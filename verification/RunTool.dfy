/**
 The service that runs tools and decides when the planner resumes, together with whatever else the
 backend does to the rows of its conversation. Each method is what happens between two awaits; a
 ghost state follows along and says which step of the fan-in it was.
 */
module RunTool {
  import opened Options
  import opened Entries
  import opened Forest
  import opened Batches
  import opened Repo
  import opened FanIn
  import opened FanInInvariant
  import opened FanInSafety
  import opened FanInLiveness
  import opened Thoughts

  class RunToolService {
    const chatEntries: ChatEntriesRepo
    const conversation: ConvId
    var tasks: map<FlowId, Flow>
    var continueChecks: seq<Check>
    var check: Current
    var aborted: set<nat>
    ghost var state: State

    ghost predicate Valid()
      reads this, chatEntries
    {
      && chatEntries.Valid() && conversation in chatEntries.conversations
      && state.rows == chatEntries.conversations[conversation].rows
      && state.flows == tasks && state.queue == continueChecks && state.current == check && state.aborted == aborted
      && Reached(state)
    }

    constructor (repo: ChatEntriesRepo, c: ConvId, ghost s: State)
      requires repo.Valid() && c in repo.conversations && s.rows == repo.conversations[c].rows && Reached(s)
      requires s.flows == map[] && s.queue == [] && s.current == Idle && s.aborted == {}
      ensures Valid() && state == s && chatEntries == repo && conversation == c
    {
      chatEntries, conversation, state := repo, c, s;
      tasks, continueChecks, check, aborted := map[], [], Idle, {};
    }

    // -------------------------------------------------------------- dispatch

    /** Any other append to the conversation: messages, thoughts, invocations without a batch. */
    method AppendOther(id: Id, parent: Option<Id>, isSide: bool, payload: Payload) returns (index: int)
      requires Valid() && Unused(chatEntries.conversations, id) && parent != Some(id) && StampOf(payload) == None
      modifies this`state, chatEntries
      ensures Valid() && Steps(old(state), Foreign(id, Row(index, parent, isSide, payload)), state)
    {
      ghost var s := state;
      var seqNo;
      index, seqNo := chatEntries.AppendEntry(conversation, id, parent, isSide, payload);
      ReachedStep(s, Foreign(id, Row(index, parent, isSide, payload)));
      state := Do(s, Foreign(id, Row(index, parent, isSide, payload)));
    }

    /** Any merge into an entry that is no tool invocation. */
    method MergeOther(id: Id, patch: Patch) returns (seqNo: Option<nat>)
      requires Valid()
      requires id in state.rows ==> !state.rows[id].payload.ToolInvocation?
      modifies this`state, chatEntries
      ensures Valid() && (seqNo.Some? <==> id in old(state).rows)
      ensures if seqNo.Some? then Steps(old(state), Action.MergeOther(id, patch), state) else state == old(state)
    {
      ghost var s := state;
      seqNo := chatEntries.MergeEntryPayload(conversation, id, patch);
      if seqNo.Some? {
        ReachedStep(s, Action.MergeOther(id, patch));
        state := Do(s, Action.MergeOther(id, patch));
      }
    }

    /** A planner decides on a fan-out batch: so far nothing but its id and its size. */
    ghost method Begin(b: nat, size: nat, continues: bool, anchor: Id)
      requires Valid() && Enabled(state, Action.Begin(b, size, continues, anchor))
      modifies this`state
      ensures Valid() && Steps(old(state), Action.Begin(b, size, continues, anchor), state)
    {
      ReachedStep(state, Action.Begin(b, size, continues, anchor));
      state := Do(state, Action.Begin(b, size, continues, anchor));
    }

    /** The thought's cursor is where the next member of batch b goes. */
    ghost predicate AtCursor(ctx: ThoughtContext, b: nat)
      reads this, ctx
    {
      ctx.conversation == conversation && b in state.batches && ctx.cursorParentId == Some(Cursor(state.batches[b]))
    }

    method AppendMember(ctx: ThoughtContext, b: nat, size: nat, call: Call) returns (index: int)
      requires Valid() && AtCursor(ctx, b) && size == state.batches[b].size && |state.batches[b].members| < size
      requires Unused(chatEntries.conversations, call.id)
      modifies this`state, ctx`cursorParentId, chatEntries
      ensures Valid() && ctx.cursorParentId == Some(call.id)
      ensures Steps(old(state), Action.AppendMember(b, call.id, index, call.toolId, call.parameters), state)
      ensures OthersSame(old(chatEntries.conversations), chatEntries.conversations, conversation)
    {
      ghost var s := state;
      CursorPresent(s, b);
      index := ctx.AppendAtCursor(chatEntries, call.id, false, MemberPayload(call, Batch(b, size)));
      ghost var a := Action.AppendMember(b, call.id, index, call.toolId, call.parameters);
      assert MemberRow(s.batches[b], b, index, call.toolId, call.parameters)
             == Row(index, Some(Cursor(s.batches[b])), false, MemberPayload(call, Batch(b, size)));
      ReachedStep(s, a);
      state := Do(s, a);
    }

    ghost predicate Dispatching(ctx: ThoughtContext, b: nat, calls: seq<Call>, ids: seq<Id>, s: State)
      reads this, ctx, chatEntries
    {
      && ctx.conversation == conversation && Progress(s, state, chatEntries.conversations, ctx.cursorParentId, b, calls, ids)
      && AllMade(state.rows, calls, |ids|, Batch(b, |calls|))
    }

    method AppendNext(ctx: ThoughtContext, b: nat, calls: seq<Call>, ids: seq<Id>, ghost s: State)
      requires Valid() && Dispatching(ctx, b, calls, ids, s) && |ids| < |calls| == s.batches[b].size && Distinct(calls)
      modifies this`state, ctx`cursorParentId, chatEntries
      ensures Valid() && Dispatching(ctx, b, calls, ids + [calls[|ids|].id], s)
    {
      ghost var t, cs := state, chatEntries.conversations;
      var index := AppendMember(ctx, b, |calls|, calls[|ids|]);
      ProgressMore(s, t, cs, chatEntries.conversations, conversation, b, calls, ids, index);
      MadeMore(t.rows, t.batches[b], b, calls, |ids|, index);
    }

    /** The dispatch loop: all members are created, in request order, before any of them runs. They
        form one chain under the thought, resolving and stamped with the batch. The loop stops where
        the scope has been aborted, and then leaves the batch incomplete. */
    method Dispatch(ctx: ThoughtContext, b: nat, calls: seq<Call>, scope: nat) returns (ids: seq<Id>)
      requires Valid() && AtCursor(ctx, b) && state.batches[b].members == [] && state.batches[b].size == |calls|
      requires Distinct(calls) && RestApart(chatEntries.conversations, ctx.cursorParentId, calls, 0)
      modifies this`state, ctx`cursorParentId, chatEntries
      ensures Valid() && AtCursor(ctx, b)
      ensures ids == if scope in aborted then [] else IdsOf(calls)
      ensures Grew(old(state), state, b, ids) && Created(old(state).rows, state.rows, ids)
      ensures scope !in aborted ==> AllMade(state.rows, calls, |calls|, Batch(b, |calls|))
      ensures DispatchOk(state.rows, state.batches[b], b)
    {
      ids := [];
      ghost var s := state;
      assert Elements([]) == {};
      assert Progress(s, s, chatEntries.conversations, ctx.cursorParentId, b, calls, []);
      while |ids| < |calls| && scope !in aborted
        invariant Valid() && Dispatching(ctx, b, calls, ids, s) && aborted == old(aborted)
        invariant scope in aborted ==> ids == []
        decreases |calls| - |ids|
      {
        AppendNext(ctx, b, calls, ids, s);
        ids := ids + [calls[|ids|].id];
      }
      assert calls[..|calls|] == calls;
      ReachedInv(state);
    }

    // -------------------------------------------------------------- requests

    /** A dispatched member sets off, with the follow-up that its planner asked for. */
    method Run(f: FlowId, entry: Id, scope: nat, continues: bool)
      requires Valid() && Enabled(state, StartMember(f, entry, scope))
      requires continues == state.batches[StampOf(state.rows[entry].payload).value.id].continues
      modifies this`tasks, this`state
      ensures Valid() && Steps(old(state), StartMember(f, entry, scope), state)
    {
      ReachedStep(state, StartMember(f, entry, scope));
      state := Do(state, StartMember(f, entry, scope));
      var p := chatEntries.conversations[conversation].rows[entry].payload;
      tasks := tasks[f := Flow(entry, StampOf(p), continues, false, scope, Preparing)];
    }

    /** Approval is refused unless the entry awaits it. */
    method Approve(f: FlowId, entry: Id, scope: nat) returns (ok: bool)
      requires Valid() && f !in tasks
      modifies this`tasks, this`state
      ensures Valid() && (ok <==> HasState(old(state).rows, entry, Requested))
      ensures if ok then Steps(old(state), Action.Approve(f, entry, scope), state) else state == old(state)
    {
      var rows := chatEntries.conversations[conversation].rows;
      ok := entry in rows && rows[entry].payload.ToolInvocation? && rows[entry].payload.state == Requested;
      if ok {
        ReachedStep(state, Action.Approve(f, entry, scope));
        state := Do(state, Action.Approve(f, entry, scope));
        var p := rows[entry].payload;
        tasks := tasks[f := Flow(entry, StampOf(p), true, false, scope, Approving(p.parameters))];
      }
    }

    method Deny(f: FlowId, entry: Id, scope: nat) returns (ok: bool)
      requires Valid() && f !in tasks
      modifies this`tasks, this`state
      ensures Valid() && (ok <==> HasState(old(state).rows, entry, Requested))
      ensures if ok then Steps(old(state), Action.Deny(f, entry, scope), state) else state == old(state)
    {
      var rows := chatEntries.conversations[conversation].rows;
      ok := entry in rows && rows[entry].payload.ToolInvocation? && rows[entry].payload.state == Requested;
      if ok {
        ReachedStep(state, Action.Deny(f, entry, scope));
        state := Do(state, Action.Deny(f, entry, scope));
        tasks := tasks[f := Flow(entry, StampOf(rows[entry].payload), true, false, scope, Denying)];
      }
    }

    /** A retry is refused for what was blocked, not failed, and for a tool that is switched off. */
    method Retry(f: FlowId, entry: Id, scope: nat, off: bool) returns (ok: bool)
      requires Valid() && f !in tasks
      modifies this`tasks, this`state
      ensures Valid()
      ensures ok <==> !off && HasState(old(state).rows, entry, Error) && old(state).rows[entry].payload.allowed
      ensures if ok then Steps(old(state), Action.Retry(f, entry, scope), state) else state == old(state)
    {
      var rows := chatEntries.conversations[conversation].rows;
      ok := !off && entry in rows && rows[entry].payload.ToolInvocation? && rows[entry].payload.state == Error
            && rows[entry].payload.allowed;
      if ok {
        ReachedStep(state, Action.Retry(f, entry, scope));
        state := Do(state, Action.Retry(f, entry, scope));
        tasks := tasks[f := Flow(entry, StampOf(rows[entry].payload), true, true, scope, Retrying)];
      }
    }

    /** The signal of a scope fires; whoever looks at it later stops. */
    method Abort(scope: nat)
      requires Valid()
      modifies this`aborted, this`state
      ensures Valid() && Steps(old(state), Action.Abort(scope), state) && aborted == old(aborted) + {scope}
    {
      ReachedStep(state, Action.Abort(scope));
      state := Do(state, Action.Abort(scope));
      aborted := aborted + {scope};
    }

    /** A flow ends early, because its scope was aborted or something in it threw. */
    method Drop(f: FlowId)
      requires Valid() && f in tasks
      modifies this`tasks, this`state
      ensures Valid() && Steps(old(state), Action.Drop(f), state)
    {
      ReachedStep(state, Action.Drop(f));
      state := Do(state, Action.Drop(f));
      tasks := tasks - {f};
    }

    // -------------------------------------------------------------- updateToolInvocation

    /** The read of a merge. */
    method FetchEntry(f: FlowId, patch: Patch, after: After)
      requires Valid() && f in tasks && MayWrite(tasks[f].phase, tasks[f].batch, patch, after)
      modifies this`tasks, this`state
      ensures Valid() && Steps(old(state), Fetch(f, patch, after), state)
    {
      EntryKnown(state, f);
      ReachedStep(state, Fetch(f, patch, after));
      state := Do(state, Fetch(f, patch, after));
      var rows := chatEntries.conversations[conversation].rows;
      tasks := tasks[f := tasks[f].(phase := Writing(patch, rows[tasks[f].entry].payload, after))];
    }

    /** Its write. The flow goes on, or ends where an approval is awaited or an abort was seen. */
    method WriteEntry(f: FlowId)
      requires Valid() && f in tasks && tasks[f].phase.Writing?
      modifies this`tasks, this`state, chatEntries
      ensures Valid() && Steps(old(state), Write(f), state)
    {
      ghost var s := state;
      EntryKnown(s, f);
      ReachedStep(s, Write(f));
      var flow := tasks[f];
      var phase := flow.phase;
      var seqNo := chatEntries.MutateEntry(conversation, flow.entry, Merged(phase.fetched, phase.patch));
      if phase.after == ThenEnds {
        tasks := tasks - {f};
      } else {
        tasks := tasks[f := flow.(phase := PhaseAfter(phase.after))];
      }
      state := Do(s, Write(f));
    }

    // -------------------------------------------------------------- the fan-in check

    /** A settled member queues its check behind the others, if the planner asked to continue. */
    method MemberResolved(f: FlowId)
      requires Valid() && f in tasks && tasks[f].phase == Settled
      modifies this`tasks, this`continueChecks, this`state
      ensures Valid() && Steps(old(state), Resolve(f), state)
      ensures var flow := old(tasks[f]);
              continueChecks == old(continueChecks)
                + if flow.continues then [Check(flow.entry, flow.batch, flow.forced, flow.scope)] else []
    {
      ReachedStep(state, Resolve(f));
      state := Do(state, Resolve(f));
      if tasks[f].continues {
        continueChecks := continueChecks + [CheckOf(tasks[f])];
      }
      tasks := tasks - {f};
    }

    method NextCheck()
      requires Valid() && check.Idle? && continueChecks != []
      modifies this`continueChecks, this`check, this`state
      ensures Valid() && Steps(old(state), TakeCheck, state)
      ensures continueChecks == old(continueChecks)[1..]
      ensures var c := old(continueChecks[0]); check == if c.batch.Some? then AtGate(c) else AtChild(c, c.entry)
    {
      ReachedStep(state, TakeCheck);
      state := Do(state, TakeCheck);
      var c := continueChecks[0];
      check := if c.batch.Some? then AtGate(c) else AtChild(c, c.entry);
      continueChecks := continueChecks[1..];
    }

    method CountTerminal()
      requires Valid() && check.AtGate? && check.check.batch.Some?
      modifies this`check, this`state
      ensures Valid() && Steps(old(state), Gate, state)
      ensures var c := old(check.check);
              check == if |ResolvedMembers(old(state).rows, c.batch.value.id)| < c.batch.value.size then Idle else AtTail(c)
    {
      ReachedStep(state, Gate);
      var c := check.check;
      var n := chatEntries.CountTerminalToolInvocationsInBatch(conversation, c.batch.value.id);
      state := Do(state, Gate);
      check := if n < c.batch.value.size then Idle else AtTail(c);
    }

    method ResolveTail()
      requires Valid() && check.AtTail? && check.check.batch.Some?
      modifies this`check, this`state
      ensures Valid() && Steps(old(state), Tail, state)
      ensures check.AtChild? && check.check == old(check.check)
      ensures var members := Members(old(state).rows, check.check.batch.value.id);
              if members == {} then check.anchor == check.check.entry else IsNewest(old(state).rows, members, check.anchor)
    {
      ReachedStep(state, Tail);
      var c := check.check;
      var tail := chatEntries.ResolveBatchTailEntryId(conversation, c.batch.value.id);
      state := Do(state, Tail);
      check := AtChild(c, if tail.Some? then tail.value else c.entry);
    }

    method LookForContinuation()
      requires Valid() && check.AtChild?
      modifies this`check, this`state
      ensures Valid() && Steps(old(state), Child, state)
      ensures old(check.check.forced) || !HasSpineChild(old(state).rows, old(check.anchor)) ==>
                check.AtInsert? && check.check == old(check.check) && check.anchor == old(check.anchor)
      ensures !old(check.check.forced) && HasSpineChild(old(state).rows, old(check.anchor)) ==> check == Idle
    {
      ReachedStep(state, Child);
      var c, anchor := check.check, check.anchor;
      if !c.forced {
        var found := chatEntries.HasSpineChildQuery(conversation, anchor);
        check := if found then Idle else AtInsert(c, anchor);
      } else {
        check := AtInsert(c, anchor);
      }
      state := Do(state, Child);
    }

    /** Creates the planner's next thought, unless the scope has been aborted. */
    method ContinuePlanner(id: Id, thought: Payload) returns (started: bool)
      requires Valid() && check.AtInsert? && thought.Thought? && thought.kind == Planner
      requires Unused(chatEntries.conversations, id)
      modifies this`check, this`state, chatEntries
      ensures Valid() && (started <==> old(check.check.scope) !in aborted)
      ensures !started ==> Steps(old(state), DropCheck, state)
      ensures started ==> exists index :: Steps(old(state), Insert(id, index, thought), state)
      ensures started ==>
                && id in state.rows && state.rows - {id} == old(state).rows && state.rows[id].parent == Some(old(check.anchor))
                && !state.rows[id].isSide && state.rows[id].payload == thought
      ensures !started ==> state.rows == old(state).rows
      ensures check == Idle
    {
      ghost var s := state;
      var anchor := check.anchor;
      if check.check.scope in aborted {
        ReachedStep(s, DropCheck);
        state := Do(s, DropCheck);
        check := Idle;
        return false;
      }
      AnchorPresent(s);
      var index, seqNo := chatEntries.AppendEntry(conversation, id, Some(anchor), false, thought);
      ReachedStep(s, Insert(id, index, thought));
      state := Do(s, Insert(id, index, thought));
      check := Idle;
      assert Steps(s, Insert(id, index, thought), state);
      started := true;
    }

    // -------------------------------------------------------------- boot

    /** A new process: nothing is in flight, and what was running is marked failed. */
    method OnModuleInit()
      requires Valid()
      modifies this, chatEntries
      ensures Valid() && Steps(old(state), Restart, state)
    {
      ghost var s := state;
      ReachedStep(s, Restart);
      tasks, continueChecks, check := map[], [], Idle;
      var rows := chatEntries.conversations[conversation].rows;
      var zombies := set a | a in rows && rows[a].payload.ToolInvocation? && rows[a].payload.state == Running;
      SweepZombies(rows, zombies);
      state := Do(s, Restart);
    }

    method SweepZombies(rows: Forest, zombies: set<Id>)
      requires chatEntries.Valid() && conversation in chatEntries.conversations
      requires rows == chatEntries.conversations[conversation].rows
      requires zombies == set a | a in rows && rows[a].payload.ToolInvocation? && rows[a].payload.state == Running
      modifies chatEntries
      ensures chatEntries.Valid() && conversation in chatEntries.conversations
      ensures chatEntries.conversations[conversation].rows == Sweep(rows)
    {
      var todo := zombies;
      while todo != {}
        invariant todo <= zombies && chatEntries.Valid() && conversation in chatEntries.conversations
        invariant SweptBut(rows, todo, chatEntries.conversations[conversation].rows)
      {
        var z :| z in todo;
        var done := chatEntries.MergeEntryPayload(conversation, z, ToolPatch(Some(Error), Some(true), None));
        todo := todo - {z};
      }
      assert chatEntries.conversations[conversation].rows == Sweep(rows);
    }
  }

  /** The entry of a flow, and what it has read, are tool invocations. */
  lemma {:induction false} EntryKnown(s: State, f: FlowId)
    requires Reached(s) && f in s.flows
    ensures s.flows[f].entry in s.rows
    ensures s.flows[f].phase.Writing? ==> s.flows[f].phase.fetched.ToolInvocation?
  {
    ReachedInv(s);
    assert FlowOk(s.rows, s.batches, s.flows[f]);
  }

  ghost predicate SweptBut(m: Forest, todo: set<Id>, n: Forest) {
    n.Keys == m.Keys && forall a | a in m :: n[a] == if a in todo then m[a] else m[a].(payload := Swept(m[a].payload))
  }

  lemma {:induction false} AnchorPresent(s: State)
    requires Reached(s) && s.current.AtInsert?
    ensures s.current.anchor in s.rows
  {
    ReachedInv(s);
    var c := s.current.check;
    assert CurrentOk(s.rows, s.batches, s.current);
    if c.batch.Some? {
      TailStamped(s.rows, s.batches, c.batch.value.id);
    }
  }

  lemma {:induction false} CursorPresent(s: State, b: nat)
    requires Reached(s) && b in s.batches
    ensures Cursor(s.batches[b]) in s.rows
  {
    ReachedInv(s);
    assert DispatchOk(s.rows, s.batches[b], b);
  }

  /** Batch b has got the members ids; nothing else has changed in the batches. */
  ghost predicate Grew(s: State, t: State, b: nat, ids: seq<Id>) {
    b in s.batches && t.batches == s.batches[b := s.batches[b].(members := ids)]
  }

  /** The first calls of batch b, which was begun in s, have been dispatched by t. */
  /** A fresh member: the call's tool and parameters under the stamp, neither allowed nor decided yet. */
  ghost predicate MadeFor(m: Forest, call: Call, batch: Batch) {
    && call.id in m && m[call.id].payload.ToolInvocation? && !m[call.id].isSide
    && var p := m[call.id].payload;
       && p.toolId == call.toolId && p.state == Resolving && !p.allowed && ParseToolBatch(p.parameters) == Some(batch)
       && p.parameters - {STAMP} == call.parameters - {STAMP}
  }

  ghost predicate AllMade(m: Forest, calls: seq<Call>, n: nat, batch: Batch) {
    n <= |calls| && forall i | 0 <= i < n :: MadeFor(m, calls[i], batch)
  }

  lemma {:induction false} MadeMore(m: Forest, d: Dispatch, b: nat, calls: seq<Call>, n: nat, index: int)
    requires n < |calls| && AllMade(m, calls, n, Batch(b, d.size)) && calls[n].id !in m
    ensures AllMade(m[calls[n].id := MemberRow(d, b, index, calls[n].toolId, calls[n].parameters)], calls, n + 1, Batch(b, d.size))
  {
    var call := calls[n];
    var p := call.parameters[STAMP := BatchRef(Batch(b, d.size))];
    assert p - {STAMP} == call.parameters - {STAMP};
    forall i | 0 <= i < n ensures calls[i].id in m && calls[i].id != call.id { assert MadeFor(m, calls[i], Batch(b, d.size)); }
  }

  ghost predicate Progress(s: State, t: State, cs: map<ConvId, Conversation>, cursor: Option<Id>, b: nat,
                           calls: seq<Call>, ids: seq<Id>)
  {
    && |ids| <= |calls| && ids == IdsOf(calls[..|ids|]) && Grew(s, t, b, ids) && Created(s.rows, t.rows, ids)
    && cursor == Some(Cursor(t.batches[b])) && RestApart(cs, cursor, calls, |ids|)
  }

  lemma {:induction false} ProgressMore(s: State, t: State, cs: map<ConvId, Conversation>, ds: map<ConvId, Conversation>,
                                        c: ConvId, b: nat, calls: seq<Call>, ids: seq<Id>, index: int)
    requires b in t.batches && Progress(s, t, cs, Some(Cursor(t.batches[b])), b, calls, ids) && |ids| < |calls| && Distinct(calls)
    requires Enabled(t, AppendMember(b, calls[|ids|].id, index, calls[|ids|].toolId, calls[|ids|].parameters))
    requires c in cs && OthersSame(cs, ds, c) && cs[c].rows == t.rows
    requires var u := Do(t, AppendMember(b, calls[|ids|].id, index, calls[|ids|].toolId, calls[|ids|].parameters));
             ds[c].rows == u.rows
    ensures var u := Do(t, AppendMember(b, calls[|ids|].id, index, calls[|ids|].toolId, calls[|ids|].parameters));
            Progress(s, u, ds, Some(calls[|ids|].id), b, calls, ids + [calls[|ids|].id])
  {
    var call := calls[|ids|];
    var r := MemberRow(t.batches[b], b, index, call.toolId, call.parameters);
    Grows(s, t, b, ids, call, index);
    RestApartMore(cs, ds, c, Some(Cursor(t.batches[b])), calls, |ids|, r);
    CreatedMore(s.rows, t.rows, ids, call.id, r);
    assert calls[..|ids| + 1] == calls[..|ids|] + [call];
  }

  lemma {:induction false} Grows(s: State, t: State, b: nat, ids: seq<Id>, call: Call, index: int)
    requires Grew(s, t, b, ids) && Enabled(t, AppendMember(b, call.id, index, call.toolId, call.parameters))
    ensures var u := Do(t, AppendMember(b, call.id, index, call.toolId, call.parameters));
            && Grew(s, u, b, ids + [call.id]) && Cursor(u.batches[b]) == call.id
            && u.rows == t.rows[call.id := MemberRow(t.batches[b], b, index, call.toolId, call.parameters)]
  {
  }

  /** The rows gain the new entries ids, which are still resolving; nothing else has changed. */
  ghost predicate Created(m: Forest, n: Forest, ids: seq<Id>) {
    && n.Keys == m.Keys + Elements(ids) && (forall a | a in m :: n[a] == m[a])
    && forall x | x in ids :: HasState(n, x, Resolving)
  }

  lemma {:induction false} CreatedMore(m: Forest, n: Forest, ids: seq<Id>, id: Id, r: Row)
    requires Created(m, n, ids) && id !in n && r.payload.ToolInvocation? && r.payload.state == Resolving
    ensures Created(m, n[id := r], ids + [id])
  {
    assert Elements(ids + [id]) == Elements(ids) + {id};
    forall x | x in ids + [id] ensures HasState(n[id := r], x, Resolving) {
      assert x in ids ==> HasState(n, x, Resolving);
    }
  }
}
