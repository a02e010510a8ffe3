/** When a batch is left without its continuation, step by step, and how many continuations it gets. */
module FanInLiveness {
  import opened Options
  import opened Entries
  import opened Forest
  import opened Batches
  import opened FanIn
  import opened FanInInvariant
  import opened FanInSafety

  // ---------------------------------------------------------------- counting

  lemma {:induction false} CountResolve(s: State, f: FlowId, b: nat)
    requires Enabled(s, Resolve(f)) && CountOk(s, b)
    ensures CountOk(Do(s, Resolve(f)), b)
  {
    ForcedMore(s.queue, CheckOf(s.flows[f]), b);
    ForcedMore(s.asked, CheckOf(s.flows[f]), b);
  }

  lemma {:induction false} CountInsert(s: State, a: Action, b: nat)
    requires a.Insert? && Enabled(s, a) && CountOk(s, b)
    ensures CountOk(Do(s, a), b)
  {
    var k := Cont(s.current.check, s.current.anchor, a.id);
    assert (s.conts + [k])[..|s.conts|] == s.conts;
  }

  lemma {:induction false} CountStep(s: State, a: Action, b: nat)
    requires Enabled(s, a) && CountOk(s, b)
    ensures CountOk(Do(s, a), b)
  {
    match a
    case Resolve(f) => CountResolve(s, f, b);
    case TakeCheck => ForcedFront(s.queue, b);
    case Insert(_, _, _) => CountInsert(s, a, b);
    case _ =>
  }

  // ---------------------------------------------------------------- the steps that strand a batch

  /** All members but perhaps one are terminal. */
  ghost predicate ResolvedBut(m: Forest, d: Dispatch, e: Id) {
    Complete(d) && forall x | x in d.members && x != e :: x in m && Resolved(m[x].payload)
  }

  /** At boot the members that were running become failed. */
  ghost predicate ResolvedOrRunning(m: Forest, d: Dispatch) {
    Complete(d) && forall x | x in d.members :: x in m && (Resolved(m[x].payload) || HasState(m, x, Running))
  }

  ghost predicate Unanswered(s: State, b: nat) {
    b in s.batches && s.batches[b].continues && s.batches[b].members != [] && !HasSpineChild(s.rows, Last(s.batches[b]))
  }

  /** The steps that leave batch b stranded. Nothing that is stored says that a check is due, so
      - a restart does, if by then every member is terminal or running;
      - the end of the last flow that owes the batch its check does, if every member is terminal;
      - so does a write that makes the last member terminal and ends its flow, as an abort does;
      - so does a check that is dropped because its scope was aborted, if it was the last. */
  ghost predicate Strands(s: State, a: Action, b: nat) {
    Unanswered(s, b) &&
    match a
    case Restart => ResolvedOrRunning(s.rows, s.batches[b])
    case Drop(f) =>
      && f in s.flows && OwesTo(s.flows[f], b) && AllResolved(s.rows, s.batches[b])
      && !Pending(s.(flows := s.flows - {f}), b)
    case Write(f) =>
      && f in s.flows && OwesTo(s.flows[f], b) && s.flows[f].phase.Writing? && s.flows[f].phase.after == ThenEnds
      && Resolved(Merged(s.flows[f].phase.fetched, s.flows[f].phase.patch))
      && ResolvedBut(s.rows, s.batches[b], s.flows[f].entry)
      && !Pending(s.(flows := s.flows - {f}), b)
    case DropCheck =>
      && AtWork(s.current, b) && AllResolved(s.rows, s.batches[b]) && !Pending(s.(current := Idle), b)
    case _ => false
  }

  /** The steps that take a stranded batch up again: a foreign entry under its tail; a flow of one of
      its members, such as a retry, that is about to run it, or that asks for its approval again. */
  ghost predicate Rescues(s: State, a: Action, b: nat) {
    b in s.batches && s.batches[b].members != [] &&
    match a
    case Foreign(_, row) => !row.isSide && row.parent == Some(Last(s.batches[b]))
    case Fetch(f, patch, _) => f in s.flows && FlowOf(s.flows[f], b) && patch.state != Some(Requested)
    case Write(f) =>
      && f in s.flows && FlowOf(s.flows[f], b) && s.flows[f].phase.Writing?
      && s.flows[f].phase.patch.state == Some(Requested)
    case _ => false
  }

  predicate FlowOf(f: Flow, b: nat) {
    f.batch.Some? && f.batch.value.id == b
  }

  /** Exactly these steps strand a batch or take it up again. */
  ghost predicate StrandedAfter(s: State, a: Action, b: nat)
    requires Enabled(s, a)
  {
    Stranded(Do(s, a), b) <==> Strands(s, a, b) || (Stranded(s, b) && !Rescues(s, a, b))
  }

  // ---------------------------------------------------------------- what is pending

  lemma {:induction false} OwesAt(flows: map<FlowId, Flow>, f: FlowId, b: nat)
    ensures FlowOwes(flows, b) <==> (f in flows && OwesTo(flows[f], b)) || FlowOwes(flows - {f}, b)
  {
    if g :| g in flows && OwesTo(flows[g], b) {
      assert g != f ==> g in flows - {f} && OwesTo((flows - {f})[g], b);
    }
    if g :| g in flows - {f} && OwesTo((flows - {f})[g], b) {
      assert g in flows && OwesTo(flows[g], b);
    }
  }

  lemma {:induction false} OwesSet(flows: map<FlowId, Flow>, f: FlowId, x: Flow, b: nat)
    ensures FlowOwes(flows[f := x], b) <==> OwesTo(x, b) || FlowOwes(flows - {f}, b)
  {
    OwesAt(flows[f := x], f, b);
    assert flows[f := x] - {f} == flows - {f};
  }

  lemma {:induction false} QueuedMore(q: seq<Check>, c: Check, b: nat)
    ensures Queued(q + [c], b) <==> Queued(q, b) || Of(c, b)
  {
    if i :| 0 <= i < |q + [c]| && Of((q + [c])[i], b) {
      assert i < |q| ==> Of(q[i], b);
    }
    if i :| 0 <= i < |q| && Of(q[i], b) {
      assert Of((q + [c])[i], b);
    }
    if Of(c, b) { assert Of((q + [c])[|q|], b); }
  }

  lemma {:induction false} QueuedFront(q: seq<Check>, b: nat)
    requires q != []
    ensures Queued(q, b) <==> Of(q[0], b) || Queued(q[1..], b)
  {
    if i :| 0 <= i < |q| && Of(q[i], b) {
      if i > 0 { assert Of(q[1..][i - 1], b); }
    }
    if i :| 0 <= i < |q[1..]| && Of(q[1..][i], b) {
      assert Of(q[i + 1], b);
    }
  }

  lemma {:induction false} NoneOwes(b: nat)
    ensures !FlowOwes(map[], b) && !Queued([], b)
  {
  }

  // ---------------------------------------------------------------- what the rows say

  lemma {:induction false} ChildKept(m: Forest, n: Forest, a: Id)
    requires Kept(m, n) && HasSpineChild(m, a)
    ensures HasSpineChild(n, a)
  {
    var c :| c in SpineChildren(m, Some(a));
    assert KeptRow(m[c], n[c]);
    assert c in SpineChildren(n, Some(a));
  }

  lemma {:induction false} ChildSame(m: Forest, n: Forest, a: Id)
    requires Kept(m, n) && n.Keys == m.Keys
    ensures HasSpineChild(n, a) <==> HasSpineChild(m, a)
  {
    if HasSpineChild(m, a) { ChildKept(m, n, a); }
    if HasSpineChild(n, a) {
      var c :| c in SpineChildren(n, Some(a));
      assert KeptRow(m[c], n[c]);
      assert c in SpineChildren(m, Some(a));
    }
  }

  lemma {:induction false} ChildAdded(m: Forest, id: Id, r: Row, a: Id)
    requires id !in m
    ensures HasSpineChild(m[id := r], a) <==> HasSpineChild(m, a) || (!r.isSide && r.parent == Some(a))
  {
    var n := m[id := r];
    assert SpineChildren(n, Some(a)) == SpineChildren(m, Some(a)) + (if !r.isSide && r.parent == Some(a) then {id} else {});
  }

  lemma {:induction false} MemberStamped(m: Forest, d: Dispatch, b: nat, x: Id)
    requires DispatchOk(m, d, b) && x in d.members
    ensures x in m && StampOf(m[x].payload) == Some(Batch(b, d.size))
  {
    var i :| 0 <= i < |d.members| && d.members[i] == x;
    assert MemberOk(m, d, b, i);
  }

  lemma {:induction false} TailStamped(m: Forest, bs: map<nat, Dispatch>, b: nat)
    requires RowsOk(m, bs) && b in bs && bs[b].members != []
    ensures Last(bs[b]) in m && StampOf(m[Last(bs[b])].payload) == Some(Batch(b, bs[b].size))
  {
    assert DispatchOk(m, bs[b], b);
    MemberStamped(m, bs[b], b, Last(bs[b]));
  }

  /** A batch's members are resolved in grown rows just if they were before. */
  lemma {:induction false} ResolvedSame(m: Forest, n: Forest, d: Dispatch, b: nat)
    requires DispatchOk(m, d, b) && forall a | a in m :: a in n && n[a] == m[a]
    ensures AllResolved(n, d) <==> AllResolved(m, d)
  {
    forall x | x in d.members ensures x in m {
      MemberStamped(m, d, b, x);
    }
  }

  // ---------------------------------------------------------------- appends

  predicate Appends(a: Action) {
    a.Foreign? || a.Begin? || a.AppendMember?
  }

  /** The rows gain one entry that is no member of b and is not put under its tail. */
  lemma {:induction false} AppendedElsewhere(s: State, t: State, b: nat, id: Id, r: Row)
    requires b in s.batches && DispatchOk(s.rows, s.batches[b], b) && b in t.batches && t.batches[b] == s.batches[b]
    requires id !in s.rows && t.rows == s.rows[id := r] && (Pending(t, b) <==> Pending(s, b))
    ensures Stranded(t, b) <==> Stranded(s, b) && !(!r.isSide && r.parent == Some(Last(s.batches[b])))
  {
    var d := s.batches[b];
    ResolvedSame(s.rows, t.rows, d, b);
    if AllResolved(s.rows, d) { ChildAdded(s.rows, id, r, Last(d)); }
  }

  /** The next member of one batch does not hang under the tail of another. */
  lemma {:induction false} CursorIsNoTail(m: Forest, bs: map<nat, Dispatch>, b: nat, c: nat)
    requires RowsOk(m, bs) && b in bs && c in bs && b != c && bs[b].members != []
    ensures Cursor(bs[c]) != Last(bs[b])
  {
    TailStamped(m, bs, b);
    assert DispatchOk(m, bs[c], c);
    if bs[c].members != [] { TailStamped(m, bs, c); }
  }

  lemma {:induction false} StrandedAppend(s: State, a: Action, b: nat)
    requires Safe(s) && Appends(a) && Enabled(s, a) && b in s.batches
    ensures StrandedAfter(s, a, b)
  {
    var t, d := Do(s, a), s.batches[b];
    assert DispatchOk(s.rows, d, b);
    if a.Foreign? {
      AppendedElsewhere(s, t, b, a.id, a.row);
    } else if a.AppendMember? && a.batchId == b {
      assert a.id in t.batches[b].members && !Resolved(t.rows[a.id].payload);
    } else if a.AppendMember? {
      if d.members != [] { CursorIsNoTail(s.rows, s.batches, b, a.batchId); }
      AppendedElsewhere(s, t, b, a.id, MemberRow(s.batches[a.batchId], a.batchId, a.index, a.toolId, a.parameters));
    }
  }

  // ---------------------------------------------------------------- flows

  lemma {:induction false} FetchOwes(f: Flow, patch: Patch, after: After, fetched: Payload)
    requires MayWrite(f.phase, f.batch, patch, after)
    ensures Owes(f.(phase := Writing(patch, fetched, after))) <==> patch.state != Some(Requested)
    ensures Owes(f) ==> patch.state != Some(Requested)
  {
  }

  lemma {:induction false} StrandedFlow(s: State, a: Action, b: nat)
    requires Safe(s) && (StartsFlow(a) || a.Fetch?) && Enabled(s, a) && b in s.batches
    ensures StrandedAfter(s, a, b)
  {
    var t := Do(s, a);
    OwesAt(s.flows, a.flow, b);
    OwesSet(s.flows, a.flow, t.flows[a.flow], b);
    if a.Fetch? {
      FetchOwes(s.flows[a.flow], a.patch, a.after, s.rows[s.flows[a.flow].entry].payload);
    }
  }

  /** Ending: a settled flow turns into a queued check; a dropped flow leaves nothing behind. */
  lemma {:induction false} StrandedEnd(s: State, a: Action, b: nat)
    requires Safe(s) && EndsFlow(a) && Enabled(s, a) && b in s.batches
    ensures StrandedAfter(s, a, b)
  {
    var t, f := Do(s, a), s.flows[a.flow];
    assert FlowOk(s.rows, s.batches, f);
    OwesAt(s.flows, a.flow, b);
    QueuedMore(s.queue, CheckOf(f), b);
  }

  // ---------------------------------------------------------------- writes

  lemma {:induction false} OtherBatch(m: Forest, d: Dispatch, b: nat, e: Id, p: Payload)
    requires DispatchOk(m, d, b) && e in m && e !in d.members
    ensures AllResolved(m[e := m[e].(payload := p)], d) <==> AllResolved(m, d)
  {
    forall x | x in d.members ensures x in m && x != e {
      MemberStamped(m, d, b, x);
    }
  }

  lemma {:induction false} OwnBatch(m: Forest, d: Dispatch, e: Id, p: Payload)
    requires e in m && e in d.members
    ensures AllResolved(m[e := m[e].(payload := p)], d) <==> ResolvedBut(m, d, e) && Resolved(p)
  {
  }

  lemma {:induction false} StrandedMerge(s: State, a: Action, b: nat)
    requires Safe(s) && a.MergeOther? && Enabled(s, a) && b in s.batches && Kept(s.rows, Do(s, a).rows)
    ensures StrandedAfter(s, a, b)
  {
    var t, d := Do(s, a), s.batches[b];
    assert DispatchOk(s.rows, d, b);
    if a.id in d.members { MemberStamped(s.rows, d, b, a.id); }
    OtherBatch(s.rows, d, b, a.id, Merged(s.rows[a.id].payload, a.patch));
    if d.members != [] { ChildSame(s.rows, t.rows, Last(d)); }
  }

  /** The flow of an entry of b, and no other, is a flow of b. */
  lemma {:induction false} FlowIsOf(s: State, f: FlowId, b: nat)
    requires Safe(s) && f in s.flows && b in s.batches
    ensures s.flows[f].entry in s.rows
    ensures FlowOf(s.flows[f], b) <==> s.flows[f].entry in s.batches[b].members
  {
    var fl := s.flows[f];
    assert FlowOk(s.rows, s.batches, fl);
    assert DispatchOk(s.rows, s.batches[b], b);
    if fl.entry in s.batches[b].members { MemberStamped(s.rows, s.batches[b], b, fl.entry); }
    assert StampOk(s.rows, s.batches, fl.entry);
  }

  lemma {:induction false} PhaseOwes(f: Flow, after: After)
    requires after != ThenEnds
    ensures Owes(f.(phase := PhaseAfter(after)))
  {
  }

  /** A write says what a batch's rows are like afterwards. */
  ghost predicate RowsAfter(m: Forest, n: Forest, d: Dispatch, b: nat, f: Flow)
    requires f.phase.Writing?
  {
    && (d.members != [] ==> (HasSpineChild(n, Last(d)) <==> HasSpineChild(m, Last(d))))
    && (AllResolved(n, d) <==>
          if FlowOf(f, b) then ResolvedBut(m, d, f.entry) && Resolved(Merged(f.phase.fetched, f.phase.patch))
          else AllResolved(m, d))
  }

  lemma {:induction false} WrittenRows(m: Forest, d: Dispatch, b: nat, f: Flow, p: Payload)
    requires f.phase.Writing? && p == Merged(f.phase.fetched, f.phase.patch) && f.entry in m
    requires DispatchOk(m, d, b) && (FlowOf(f, b) <==> f.entry in d.members)
    requires Kept(m, m[f.entry := m[f.entry].(payload := p)])
    ensures RowsAfter(m, m[f.entry := m[f.entry].(payload := p)], d, b, f)
  {
    var n := m[f.entry := m[f.entry].(payload := p)];
    if d.members != [] { ChildSame(m, n, Last(d)); }
    if FlowOf(f, b) {
      OwnBatch(m, d, f.entry, p);
    } else {
      OtherBatch(m, d, b, f.entry, p);
    }
  }

  /** A write after which a check for b is outstanding just if one was, or its flow goes on. */
  lemma {:induction false} WrittenPending(s: State, a: Action, b: nat)
    requires a.Write? && Enabled(s, a)
    ensures var f, less := s.flows[a.flow], s.(flows := s.flows - {a.flow});
            && (Pending(s, b) <==> OwesTo(f, b) || Pending(less, b))
            && (Pending(Do(s, a), b) <==> (f.phase.after != ThenEnds && FlowOf(f, b)) || Pending(less, b))
  {
    var f := s.flows[a.flow];
    OwesAt(s.flows, a.flow, b);
    if f.phase.after != ThenEnds {
      PhaseOwes(f, f.phase.after);
      OwesSet(s.flows, a.flow, f.(phase := PhaseAfter(f.phase.after)), b);
    }
  }

  lemma {:induction false} StrandedByWrite(s: State, t: State, f: FlowId, b: nat)
    requires f in s.flows && s.flows[f].phase.Writing? && b in s.batches && t.batches == s.batches
    requires RowsAfter(s.rows, t.rows, s.batches[b], b, s.flows[f])
    requires Pending(s, b) <==> OwesTo(s.flows[f], b) || Pending(s.(flows := s.flows - {f}), b)
    requires Pending(t, b) <==> (s.flows[f].phase.after != ThenEnds && FlowOf(s.flows[f], b))
                                || Pending(s.(flows := s.flows - {f}), b)
    ensures Stranded(t, b) <==> Strands(s, Write(f), b) || (Stranded(s, b) && !Rescues(s, Write(f), b))
  {
    var d := s.batches[b];
    assert AllResolved(s.rows, d) && FlowOf(s.flows[f], b) ==> ResolvedBut(s.rows, d, s.flows[f].entry);
  }

  lemma {:induction false} StrandedWrite(s: State, a: Action, b: nat)
    requires Safe(s) && a.Write? && Enabled(s, a) && b in s.batches && Kept(s.rows, Do(s, a).rows)
    ensures StrandedAfter(s, a, b)
  {
    var f := s.flows[a.flow];
    FlowIsOf(s, a.flow, b);
    assert DispatchOk(s.rows, s.batches[b], b);
    WrittenRows(s.rows, s.batches[b], b, f, Merged(f.phase.fetched, f.phase.patch));
    WrittenPending(s, a, b);
    StrandedByWrite(s, Do(s, a), a.flow, b);
  }

  lemma {:induction false} SweptResolved(m: Forest, d: Dispatch)
    ensures AllResolved(Sweep(m), d) <==> ResolvedOrRunning(m, d)
  {
    var n := Sweep(m);
    forall x | x in m ensures Resolved(n[x].payload) <==> Resolved(m[x].payload) || HasState(m, x, Running) {}
  }

  lemma {:induction false} StrandedRestart(s: State, b: nat)
    requires Safe(s) && b in s.batches
    ensures StrandedAfter(s, Restart, b)
  {
    var t, d := Do(s, Restart), s.batches[b];
    SweepIsKept(s.rows);
    SweptResolved(s.rows, d);
    NoneOwes(b);
    if d.members != [] { ChildSame(s.rows, t.rows, Last(d)); }
  }

  // ---------------------------------------------------------------- checks

  lemma {:induction false} StrandedTake(s: State, b: nat)
    requires Safe(s) && Enabled(s, TakeCheck) && b in s.batches
    ensures StrandedAfter(s, TakeCheck, b)
  {
    QueuedFront(s.queue, b);
  }

  /** A gate that stays closed shows that some member is not resolved. */
  lemma {:induction false} StrandedQuery(s: State, a: Action, b: nat)
    requires Safe(s) && (a.Gate? || a.Tail? || a.Child? || a.DropCheck?) && Enabled(s, a) && b in s.batches
    ensures StrandedAfter(s, a, b)
  {
    assert CurrentOk(s.rows, s.batches, s.current);
    if AtWork(s.current, b) {
      if a.Gate? {
        GateExact(s.rows, s.batches, b);
      } else if a.Child? {
        assert s.current.anchor == Last(s.batches[b]);
      }
    }
  }

  lemma {:induction false} AnchorIsNoTail(s: State, b: nat)
    requires Safe(s) && s.current.AtInsert? && b in s.batches && s.batches[b].members != []
    ensures s.current.anchor == Last(s.batches[b]) <==> Of(s.current.check, b)
  {
    var c := s.current.check;
    assert CurrentOk(s.rows, s.batches, s.current);
    TailStamped(s.rows, s.batches, b);
    if c.batch.Some? { TailStamped(s.rows, s.batches, c.batch.value.id); }
  }

  lemma {:induction false} StrandedInsert(s: State, a: Action, b: nat)
    requires Safe(s) && a.Insert? && Enabled(s, a) && b in s.batches
    ensures StrandedAfter(s, a, b)
  {
    var d := s.batches[b];
    var row := ContRow(s.current.anchor, a.index, a.payload);
    assert DispatchOk(s.rows, d, b);
    ResolvedSame(s.rows, Do(s, a).rows, d, b);
    if d.members != [] {
      AnchorIsNoTail(s, b);
      ChildAdded(s.rows, a.id, row, Last(d));
    }
  }

  lemma {:induction false} KeptStep(s: State, a: Action)
    requires Safe(s) && Enabled(s, a)
    ensures Kept(s.rows, Do(s, a).rows)
  {
    if a.Foreign? {
      AppendIsKept(s.rows, a.id, a.row);
    } else if a.AppendMember? {
      AppendIsKept(s.rows, a.id, MemberRow(s.batches[a.batchId], a.batchId, a.index, a.toolId, a.parameters));
    } else if a.MergeOther? {
      MergeIsKept(s.rows, a.id, Merged(s.rows[a.id].payload, a.patch));
    } else if a.Insert? {
      AppendIsKept(s.rows, a.id, ContRow(s.current.anchor, a.index, a.payload));
    } else if a.Restart? {
      SweepIsKept(s.rows);
    } else if a.Write? {
      var f := s.flows[a.flow];
      assert FlowOk(s.rows, s.batches, f);
      MergedStamp(f.phase.fetched, f.phase.patch, f.batch);
      MergeIsKept(s.rows, f.entry, Merged(f.phase.fetched, f.phase.patch));
    } else {
      Same(s.rows, s.batches);
    }
  }

  /** The exact effect of every step on whether a batch is stranded. */
  lemma {:induction false} StrandedStep(s: State, a: Action, b: nat)
    requires Safe(s) && Enabled(s, a)
    ensures Stranded(Do(s, a), b) <==> Strands(s, a, b) || (Stranded(s, b) && !Rescues(s, a, b))
  {
    if b !in s.batches {
      StrandedNew(s, a, b);
    } else if Appends(a) {
      StrandedAppend(s, a, b);
    } else if StartsFlow(a) || a.Fetch? {
      StrandedFlow(s, a, b);
    } else if EndsFlow(a) {
      StrandedEnd(s, a, b);
    } else if a.Write? {
      KeptStep(s, a);
      StrandedWrite(s, a, b);
    } else if a.MergeOther? {
      KeptStep(s, a);
      StrandedMerge(s, a, b);
    } else if a.Insert? {
      StrandedInsert(s, a, b);
    } else if a.Restart? {
      StrandedRestart(s, b);
    } else if a.TakeCheck? {
      StrandedTake(s, b);
    } else if !a.Abort? {
      StrandedQuery(s, a, b);
    }
  }

  lemma {:induction false} StrandedNew(s: State, a: Action, b: nat)
    requires Enabled(s, a) && b !in s.batches
    ensures !Stranded(Do(s, a), b)
  {
    if a.Begin? && a.batchId == b { assert !Complete(Do(s, a).batches[b]); }
  }

  // ---------------------------------------------------------------- runs

  lemma {:induction false} InvStep(s: State, a: Action)
    requires Inv(s) && Enabled(s, a)
    ensures Inv(Do(s, a))
  {
    SafeStep(s, a);
    forall b: nat ensures CountOk(Do(s, a), b) {
      assert CountOk(s, b);
      CountStep(s, a, b);
    }
  }

  /** Every state of every run satisfies the invariant. */
  lemma {:induction false} InvAlways(acts: seq<Action>, states: seq<State>, i: nat)
    requires Run(acts, states) && i < |states|
    ensures Inv(states[i])
    decreases i
  {
    if i > 0 {
      InvAlways(acts, states, i - 1);
      assert Steps(states[i - 1], acts[i - 1], states[i - 1 + 1]);
      InvStep(states[i - 1], acts[i - 1]);
    } else {
      StoredRows(INIT.rows);
    }
  }

  /** Some run comes to this state. */
  ghost predicate Reached(s: State) {
    exists acts: seq<Action>, states: seq<State> :: Run(acts, states) && states[|acts|] == s
  }

  lemma {:induction false} ReachedInv(s: State)
    requires Reached(s)
    ensures Inv(s)
  {
    var acts: seq<Action>, states: seq<State> :| Run(acts, states) && states[|acts|] == s;
    InvAlways(acts, states, |acts|);
  }

  lemma {:induction false} RunMore(acts: seq<Action>, states: seq<State>, a: Action)
    requires Run(acts, states) && Enabled(states[|acts|], a)
    ensures Run(acts + [a], states + [Do(states[|acts|], a)])
  {
    var q, r := acts + [a], states + [Do(states[|acts|], a)];
    forall i | 0 <= i < |q| ensures Steps(r[i], q[i], r[i + 1]) {
      if i < |acts| { assert Steps(states[i], acts[i], states[i + 1]); }
    }
  }

  lemma {:induction false} ReachedStep(s: State, a: Action)
    requires Reached(s) && Enabled(s, a)
    ensures Reached(Do(s, a))
  {
    var acts: seq<Action>, states: seq<State> :| Run(acts, states) && states[|acts|] == s;
    RunMore(acts, states, a);
    assert (states + [Do(s, a)])[|acts + [a]|] == Do(s, a);
  }
}
