/** Where flows, checks and continuations of a run come from, and what becomes of a retry. */
module FanInHistory {
  import opened Options
  import opened Entries
  import opened Forest
  import opened Batches
  import opened FanIn
  import opened FanInInvariant
  import opened FanInSafety
  import opened FanInLiveness
  import opened FanInResults

  // ---------------------------------------------------------------- flows

  /** A flow handles the entry of the request that set it off, for the batch that the entry was
      stamped with; it is forced just if the request was a retry; a dispatched member continues
      as its batch says, and every other flow does. */
  ghost predicate Origin(s: State, a: Action, f: Flow) {
    && StartsFlow(a) && a.entry in s.rows && f.entry == a.entry && f.scope == a.scope
    && f.batch == StampOf(s.rows[a.entry].payload) && (f.forced <==> a.Retry?)
    && (a.StartMember? ==> f.batch.Some? && f.batch.value.id in s.batches && f.continues == s.batches[f.batch.value.id].continues)
    && (!a.StartMember? ==> f.continues)
  }

  /** The request at step i set off the flow f of state n, which has been there ever since. */
  ghost predicate StartedAt(acts: seq<Action>, states: seq<State>, n: nat, f: FlowId, i: nat)
    requires |states| == |acts| + 1 && n <= |acts|
  {
    && i < n && StartsFlow(acts[i]) && acts[i].flow == f && (forall k | i < k <= n :: f in states[k].flows)
    && Origin(states[i], acts[i], states[n].flows[f]) && PhaseOf(acts[i], states[n].flows[f].phase)
  }

  /** What the handling of each request may be about to write. */
  predicate MayState(a: Action, patch: Patch) {
    match patch.state
    case Some(Denied) => a.Deny? && patch.allowed == Some(false)
    case Some(Requested) => a.StartMember? && patch.allowed == Some(false)
    case Some(Running) => !a.Deny? && patch.allowed == None
    case Some(Done) => !a.Deny? && patch.allowed == Some(true)
    case Some(Error) => !a.Deny? && patch.allowed.Some? && (patch.allowed.value || a.StartMember?)
    case Some(Resolving) => false
    case None => a.Approve? && patch.allowed == None
  }

  /** A write settles its flow with a terminal state only, and lets it run with the running state. */
  predicate AfterWrite(patch: Patch, after: After) {
    match after
    case ThenSettled => patch.state.Some? && patch.state.value.Terminal()
    case ThenExecuting => patch.state == Some(ToolState.Running)
    case ThenEdited => patch.state == None
    case ThenEnds => patch.state == Some(Requested) || patch.state == Some(Error)
  }

  predicate PhaseOf(a: Action, phase: Phase) {
    match phase
    case Preparing => a.StartMember?
    case Approving(_) => a.Approve?
    case Edited => a.Approve?
    case Retrying => a.Retry?
    case Denying => a.Deny?
    case Executing => !a.Deny?
    case Writing(patch, _, after) => MayState(a, patch) && AfterWrite(patch, after)
    case Settled => true
  }

  lemma {:induction false} MayWriteState(a: Action, phase: Phase, batch: Option<Batch>, patch: Patch, after: After)
    requires MayWrite(phase, batch, patch, after) && PhaseOf(a, phase)
    ensures MayState(a, patch) && AfterWrite(patch, after)
  {
  }

  /** A flow that goes on changes nothing but its phase. */
  lemma {:induction false} FlowGoesOn(s: State, a: Action, f: FlowId, start: Action)
    requires Enabled(s, a) && f in s.flows && f in Do(s, a).flows && PhaseOf(start, s.flows[f].phase)
    ensures var x, y := s.flows[f], Do(s, a).flows[f];
            y == x.(phase := y.phase) && PhaseOf(start, y.phase)
  {
    if a.Fetch? && a.flow == f { MayWriteState(start, s.flows[f].phase, s.flows[f].batch, a.patch, a.after); }
  }

  lemma {:induction false} FlowStarts(s: State, a: Action, f: FlowId)
    requires Enabled(s, a) && f !in s.flows && f in Do(s, a).flows
    ensures StartsFlow(a) && a.flow == f && Origin(s, a, Do(s, a).flows[f]) && PhaseOf(a, Do(s, a).flows[f].phase)
  {
  }

  lemma {:induction false} StartedMore(acts: seq<Action>, states: seq<State>, n: nat, f: FlowId, i: nat)
    requires |states| == |acts| + 1 && n < |acts| && StartedAt(acts, states, n, f, i) && f in states[n + 1].flows
    requires var x, y := states[n].flows[f], states[n + 1].flows[f];
             y == x.(phase := y.phase) && PhaseOf(acts[i], y.phase)
    ensures StartedAt(acts, states, n + 1, f, i)
  {
  }

  lemma {:induction false} StartedStep(acts: seq<Action>, states: seq<State>, n: nat, f: FlowId, i: nat)
    requires Run(acts, states) && n < |acts| && StartedAt(acts, states, n, f, i) && f in states[n + 1].flows
    ensures StartedAt(acts, states, n + 1, f, i)
  {
    StepOfRun(acts, states, n);
    FlowGoesOn(states[n], acts[n], f, acts[i]);
    StartedMore(acts, states, n, f, i);
  }

  lemma {:induction false} StartedNow(acts: seq<Action>, states: seq<State>, n: nat, f: FlowId)
    requires Run(acts, states) && n < |acts| && f !in states[n].flows && f in states[n + 1].flows
    ensures StartedAt(acts, states, n + 1, f, n)
  {
    StepOfRun(acts, states, n);
    FlowStarts(states[n], acts[n], f);
  }

  /** Every flow of every run was set off by one request, and still is what that request made it. */
  lemma {:induction false} FlowStarted(acts: seq<Action>, states: seq<State>, n: nat, f: FlowId) returns (i: nat)
    requires Run(acts, states) && n <= |acts| && f in states[n].flows
    ensures StartedAt(acts, states, n, f, i)
    decreases n
  {
    i := 0;
    if n == 0 {
      assert false;
    } else if f in states[n - 1].flows {
      i := FlowStarted(acts, states, n - 1, f);
      StartedStep(acts, states, n - 1, f, i);
    } else {
      i := n - 1;
      StartedNow(acts, states, n - 1, f);
    }
  }

  // ---------------------------------------------------------------- merges

  /** Step i read the entry of flow f for the write that is due in state n. */
  ghost predicate ReadAt(acts: seq<Action>, states: seq<State>, n: nat, f: FlowId, i: nat)
    requires |states| == |acts| + 1 && n <= |acts| && f in states[n].flows
  {
    var fl := states[n].flows[f];
    && i < n && fl.phase.Writing? && acts[i] == Fetch(f, fl.phase.patch, fl.phase.after)
    && fl.entry in states[i].rows && fl.phase.fetched == states[i].rows[fl.entry].payload
    && forall k | i < k <= n :: f in states[k].flows && states[k].flows[f] == fl
  }

  lemma {:induction false} ReadStep(s: State, a: Action, f: FlowId)
    requires Enabled(s, a) && f in Do(s, a).flows && Do(s, a).flows[f].phase.Writing?
    ensures var fl := Do(s, a).flows[f];
            (f in s.flows && fl == s.flows[f])
            || (a == Fetch(f, fl.phase.patch, fl.phase.after) && fl.entry in s.rows && fl.phase.fetched == s.rows[fl.entry].payload)
  {
  }

  lemma {:induction false} ReadNow(acts: seq<Action>, states: seq<State>, n: nat, f: FlowId)
    requires Run(acts, states) && n < |acts| && f in states[n + 1].flows && states[n + 1].flows[f].phase.Writing?
    ensures (f in states[n].flows && states[n + 1].flows[f] == states[n].flows[f]) || ReadAt(acts, states, n + 1, f, n)
  {
    StepOfRun(acts, states, n);
    ReadStep(states[n], acts[n], f);
  }

  lemma {:induction false} ReadMore(acts: seq<Action>, states: seq<State>, n: nat, f: FlowId, i: nat)
    requires |states| == |acts| + 1 && n < |acts| && f in states[n].flows && ReadAt(acts, states, n, f, i)
    requires f in states[n + 1].flows && states[n + 1].flows[f] == states[n].flows[f]
    ensures ReadAt(acts, states, n + 1, f, i)
  {
  }

  lemma {:induction false} WasRead(acts: seq<Action>, states: seq<State>, n: nat, f: FlowId) returns (i: nat)
    requires Run(acts, states) && n <= |acts| && f in states[n].flows && states[n].flows[f].phase.Writing?
    ensures ReadAt(acts, states, n, f, i)
    decreases n
  {
    i := 0;
    if n == 0 {
      assert false;
    } else {
      ReadNow(acts, states, n - 1, f);
      i := n - 1;
      if f in states[n - 1].flows && states[n].flows[f] == states[n - 1].flows[f] {
        i := WasRead(acts, states, n - 1, f);
        ReadMore(acts, states, n - 1, f, i);
      }
    }
  }

  lemma {:induction false} StartedBeforeRead(acts: seq<Action>, states: seq<State>, n: nat, f: FlowId, i: nat, j: nat)
    requires Run(acts, states) && n <= |acts| && f in states[n].flows
    requires StartedAt(acts, states, n, f, i) && ReadAt(acts, states, n, f, j)
    ensures i < j
  {
    StepOfRun(acts, states, i);
  }

  /** The patched fields of p, and all others as they were in q. */
  predicate PatchedOver(q: Payload, patch: Patch, p: Payload) {
    q.ToolInvocation? && Assigned(q, patch, p)
  }

  /** Only the payload of e is another one. */
  ghost predicate OnlyPayload(m: Forest, n: Forest, e: Id) {
    && e in m && n.Keys == m.Keys && (forall x | x in m && x != e :: n[x] == m[x])
    && n[e].index == m[e].index && n[e].parent == m[e].parent && n[e].isSide == m[e].isSide
  }

  lemma {:induction false} WriteIs(s: State, f: FlowId)
    requires Enabled(s, Write(f))
    ensures var fl, t := s.flows[f], Do(s, Write(f));
            OnlyPayload(s.rows, t.rows, fl.entry) && PatchedOver(fl.phase.fetched, fl.phase.patch, t.rows[fl.entry].payload)
  {
  }

  /** A write changes one payload and no more. The patched fields get their new values; all others
      go back to what they were when the flow read them, at some earlier step. What is written is what
      the request that set off the flow may lead to. */
  lemma {:induction false} WritesWhatWasRead(acts: seq<Action>, states: seq<State>, n: nat, f: FlowId)
    returns (start: nat, read: nat)
    requires Run(acts, states) && n < |acts| && acts[n] == Write(f)
    ensures f in states[n].flows && states[n].flows[f].phase.Writing?
    ensures start < read < n && StartedAt(acts, states, n, f, start) && ReadAt(acts, states, n, f, read)
    ensures var fl := states[n].flows[f];
            && OnlyPayload(states[n].rows, states[n + 1].rows, fl.entry)
            && PatchedOver(states[read].rows[fl.entry].payload, fl.phase.patch, states[n + 1].rows[fl.entry].payload)
            && MayState(acts[start], fl.phase.patch) && AfterWrite(fl.phase.patch, fl.phase.after)
  {
    StepOfRun(acts, states, n);
    start := FlowStarted(acts, states, n, f);
    read := WasRead(acts, states, n, f);
    StartedBeforeRead(acts, states, n, f, start, read);
    WriteIs(states[n], f);
  }

  // ---------------------------------------------------------------- what ran

  /** A step writes that the tool of the flow runs. */
  ghost predicate SetsOff(s: State, a: Action, f: FlowId) {
    a == Write(f) && f in s.flows && s.flows[f].phase.Writing? && s.flows[f].phase.patch.state == Some(ToolState.Running)
  }

  ghost predicate SetsOffAt(acts: seq<Action>, states: seq<State>, k: nat, f: FlowId)
    requires k < |acts| < |states|
  {
    SetsOff(states[k], acts[k], f)
  }

  /** The tool of flow f, which was set off at step i, has been run by state n. */
  ghost predicate Ran(acts: seq<Action>, states: seq<State>, i: nat, n: nat, f: FlowId)
    requires n <= |acts| < |states|
  {
    exists k :: i < k < n && SetsOffAt(acts, states, k, f)
  }

  predicate Busy(phase: Phase) {
    phase.Executing? || (phase.Writing? && (phase.patch.state == Some(Done)
                                            || (phase.patch.state == Some(Error) && phase.patch.allowed == Some(true))))
  }

  ghost predicate RanKnown(acts: seq<Action>, states: seq<State>, n: nat, f: FlowId, i: nat)
    requires n <= |acts| < |states| && f in states[n].flows
  {
    states[n].flows[f].phase.Settled? || (Busy(states[n].flows[f].phase) <==> Ran(acts, states, i, n, f))
  }

  lemma {:induction false} RanStep(s: State, a: Action, f: FlowId, start: Action)
    requires Enabled(s, a) && f in s.flows && f in Do(s, a).flows && PhaseOf(start, s.flows[f].phase)
    ensures var p, q := s.flows[f].phase, Do(s, a).flows[f].phase;
            !q.Settled? ==> !p.Settled? && (Busy(q) <==> Busy(p) || SetsOff(s, a, f))
  {
  }

  lemma {:induction false} RanStart(s: State, a: Action, f: FlowId)
    requires Enabled(s, a) && f !in s.flows && f in Do(s, a).flows
    ensures !Busy(Do(s, a).flows[f].phase)
  {
  }

  lemma {:induction false} RanExtends(acts: seq<Action>, states: seq<State>, i: nat, n: nat, f: FlowId)
    requires i < n < |acts| < |states|
    ensures Ran(acts, states, i, n + 1, f) <==> Ran(acts, states, i, n, f) || SetsOff(states[n], acts[n], f)
  {
    assert SetsOffAt(acts, states, n, f) <==> SetsOff(states[n], acts[n], f);
  }

  lemma {:induction false} RanOneStep(acts: seq<Action>, states: seq<State>, n: nat, f: FlowId, start: Action)
    requires Run(acts, states) && n < |acts| && f in states[n].flows && f in states[n + 1].flows
    requires PhaseOf(start, states[n].flows[f].phase)
    ensures var p, q := states[n].flows[f].phase, states[n + 1].flows[f].phase;
            !q.Settled? ==> !p.Settled? && (Busy(q) <==> Busy(p) || SetsOff(states[n], acts[n], f))
  {
    StepOfRun(acts, states, n);
    RanStep(states[n], acts[n], f, start);
  }

  lemma {:induction false} RanMore(acts: seq<Action>, states: seq<State>, n: nat, f: FlowId, i: nat)
    requires Run(acts, states) && i < n < |acts| && f in states[n].flows && f in states[n + 1].flows
    requires PhaseOf(acts[i], states[n].flows[f].phase) && RanKnown(acts, states, n, f, i)
    ensures RanKnown(acts, states, n + 1, f, i)
  {
    RanOneStep(acts, states, n, f, acts[i]);
    RanExtends(acts, states, i, n, f);
  }

  lemma {:induction false} RanNow(acts: seq<Action>, states: seq<State>, n: nat, f: FlowId)
    requires Run(acts, states) && n < |acts| && f !in states[n].flows && f in states[n + 1].flows
    ensures RanKnown(acts, states, n + 1, f, n)
  {
    StepOfRun(acts, states, n);
    RanStart(states[n], acts[n], f);
  }

  lemma {:induction false} RanSince(acts: seq<Action>, states: seq<State>, n: nat, f: FlowId) returns (i: nat)
    requires Run(acts, states) && n <= |acts| && f in states[n].flows
    ensures StartedAt(acts, states, n, f, i) && RanKnown(acts, states, n, f, i)
    decreases n
  {
    i := 0;
    if n == 0 {
      assert false;
    } else if f in states[n - 1].flows {
      i := RanSince(acts, states, n - 1, f);
      StartedStep(acts, states, n - 1, f, i);
      RanMore(acts, states, n - 1, f, i);
    } else {
      i := n - 1;
      StartedNow(acts, states, n - 1, f);
      RanNow(acts, states, n - 1, f);
    }
  }

  /** A tool that fails can be retried exactly if it has been run since the request that set off its flow:
      what was blocked before cannot. Nothing is done without having run. */
  lemma {:induction false} RetryableExactly(acts: seq<Action>, states: seq<State>, n: nat, f: FlowId) returns (start: nat)
    requires Run(acts, states) && n < |acts| && acts[n] == Write(f)
    ensures f in states[n].flows && states[n].flows[f].phase.Writing? && StartedAt(acts, states, n, f, start)
    ensures var patch := states[n].flows[f].phase.patch;
            && (patch.state == Some(Error) ==> (patch.allowed == Some(true) <==> Ran(acts, states, start, n, f)))
            && (patch.state == Some(Done) ==> Ran(acts, states, start, n, f))
            && (patch.state == Some(Denied) || patch.state == Some(Requested) ==> !Ran(acts, states, start, n, f))
  {
    StepOfRun(acts, states, n);
    start := RanSince(acts, states, n, f);
  }

  // ---------------------------------------------------------------- checks

  /** The check that a settled flow asks for. */
  ghost predicate AskedFor(s: State, a: Action, c: Check) {
    && a.Resolve? && a.flow in s.flows && s.flows[a.flow].continues
    && c.entry == s.flows[a.flow].entry && c.batch == s.flows[a.flow].batch
    && c.forced == s.flows[a.flow].forced && c.scope == s.flows[a.flow].scope
  }

  predicate Asks(s: State, a: Action) {
    a.Resolve? && a.flow in s.flows && s.flows[a.flow].continues
  }

  /** Checks wait in the order in which they were asked for. */
  ghost predicate InOrder(asked: seq<Check>, queue: seq<Check>) {
    |queue| <= |asked| && queue == asked[|asked| - |queue|..]
  }

  lemma {:induction false} AskedStep(s: State, a: Action)
    requires Enabled(s, a) && InOrder(s.asked, s.queue)
    ensures InOrder(Do(s, a).asked, Do(s, a).queue)
    ensures if Asks(s, a) then |Do(s, a).asked| == |s.asked| + 1 && Do(s, a).asked[..|s.asked|] == s.asked
                               && AskedFor(s, a, Do(s, a).asked[|s.asked|])
            else Do(s, a).asked == s.asked
  {
  }

  /** Checks run in the order in which they were asked for: those that have yet to be taken are always
      the last ones asked for. */
  lemma {:induction false} ChecksInOrder(acts: seq<Action>, states: seq<State>, n: nat)
    requires Run(acts, states) && n <= |acts|
    ensures InOrder(states[n].asked, states[n].queue)
    decreases n
  {
    if n > 0 {
      ChecksInOrder(acts, states, n - 1);
      StepOfRun(acts, states, n - 1);
      AskedStep(states[n - 1], acts[n - 1]);
    }
  }

  /** Settled flows of batch b that were set off by a retry and asked for their check. */
  ghost function SettledRetries(acts: seq<Action>, states: seq<State>, n: nat, b: nat): nat
    requires n <= |acts| <= |states|
  {
    if n == 0 then 0
    else SettledRetries(acts, states, n - 1, b) + (if RetrySettles(states[n - 1], acts[n - 1], b) then 1 else 0)
  }

  predicate RetrySettles(s: State, a: Action, b: nat) {
    Asks(s, a) && s.flows[a.flow].forced && FlowOf(s.flows[a.flow], b)
  }

  /** Forced checks that were asked for, beyond those of the retries that settled. */
  ghost function AskedGap(acts: seq<Action>, states: seq<State>, n: nat, b: nat): int
    requires n <= |acts| < |states|
  {
    Forced(states[n].asked, b) - SettledRetries(acts, states, n, b)
  }

  lemma {:induction false} AskedMore(acts: seq<Action>, states: seq<State>, n: nat, b: nat)
    requires Run(acts, states) && n < |acts|
    ensures AskedGap(acts, states, n + 1, b) == AskedGap(acts, states, n, b)
  {
    ChecksInOrder(acts, states, n);
    StepOfRun(acts, states, n);
    AskedStep(states[n], acts[n]);
    var q, r := states[n].asked, states[n + 1].asked;
    if Asks(states[n], acts[n]) {
      assert r == q + [r[|q|]];
      ForcedMore(q, r[|q|], b);
    }
  }

  lemma {:induction false} AskedGapNone(acts: seq<Action>, states: seq<State>, n: nat, b: nat)
    requires Run(acts, states) && n <= |acts|
    ensures AskedGap(acts, states, n, b) == 0
    decreases n
  {
    if n > 0 {
      AskedGapNone(acts, states, n - 1, b);
      AskedMore(acts, states, n - 1, b);
    }
  }

  /** The forced checks asked for are those of the retries that settled. */
  lemma {:induction false} AskedByRetries(acts: seq<Action>, states: seq<State>, n: nat, b: nat)
    requires Run(acts, states) && n <= |acts|
    ensures Forced(states[n].asked, b) == SettledRetries(acts, states, n, b)
  {
    AskedGapNone(acts, states, n, b);
  }

  // ---------------------------------------------------------------- the account of forced checks

  /** Forced checks of b that have led to a continuation, that wait, or that are at work. */
  function ForcedAlive(s: State, b: nat): nat {
    ForcedConts(s.conts, b) + Forced(s.queue, b) + ForcedNow(s.current, b)
  }

  /** Forced checks of b that a step loses: at a gate that some member has yet to open, in an aborted
      scope, and in a restart. */
  ghost function ForcedLostBy(s: State, a: Action, b: nat): nat {
    match a
    case Gate => if ForcedNow(s.current, b) == 1 && b in s.batches && !AllResolved(s.rows, s.batches[b]) then 1 else 0
    case DropCheck => ForcedNow(s.current, b)
    case Restart => Forced(s.queue, b) + ForcedNow(s.current, b)
    case _ => 0
  }

  ghost function ForcedLost(acts: seq<Action>, states: seq<State>, n: nat, b: nat): nat
    requires n <= |acts| <= |states|
  {
    if n == 0 then 0 else ForcedLost(acts, states, n - 1, b) + ForcedLostBy(states[n - 1], acts[n - 1], b)
  }

  /** Forced checks that a step makes appear or vanish unaccounted for. */
  ghost function Unaccounted(s: State, a: Action, b: nat): int
    requires Enabled(s, a)
  {
    ForcedAlive(Do(s, a), b) + ForcedLostBy(s, a, b) - ForcedAlive(s, b) - (if RetrySettles(s, a, b) then 1 else 0)
  }

  lemma {:induction false} AccountGate(s: State, a: Action, b: nat)
    requires Safe(s) && a.Gate? && Enabled(s, a)
    ensures Unaccounted(s, a, b) == 0
  {
    assert CurrentOk(s.rows, s.batches, s.current);
    if Of(s.current.check, b) { GateExact(s.rows, s.batches, b); }
  }

  lemma {:induction false} AccountResolve(s: State, a: Action, b: nat)
    requires a.Resolve? && Enabled(s, a)
    ensures Unaccounted(s, a, b) == 0
  {
    ForcedMore(s.queue, CheckOf(s.flows[a.flow]), b);
  }

  lemma {:induction false} AccountInsert(s: State, a: Action, b: nat)
    requires a.Insert? && Enabled(s, a)
    ensures Unaccounted(s, a, b) == 0
  {
    var k := Cont(s.current.check, s.current.anchor, a.id);
    assert (s.conts + [k])[..|s.conts|] == s.conts;
  }

  lemma {:induction false} AccountTake(s: State, a: Action, b: nat)
    requires a.TakeCheck? && Enabled(s, a)
    ensures Unaccounted(s, a, b) == 0
  {
    ForcedFront(s.queue, b);
  }

  lemma {:induction false} AccountOther(s: State, a: Action, b: nat)
    requires Enabled(s, a) && !a.Gate? && !a.Resolve? && !a.Insert? && !a.TakeCheck?
    ensures Unaccounted(s, a, b) == 0
  {
  }

  lemma {:induction false} AccountStep(s: State, a: Action, b: nat)
    requires Safe(s) && Enabled(s, a)
    ensures Unaccounted(s, a, b) == 0
  {
    if a.Gate? {
      AccountGate(s, a, b);
    } else if a.Resolve? {
      AccountResolve(s, a, b);
    } else if a.Insert? {
      AccountInsert(s, a, b);
    } else if a.TakeCheck? {
      AccountTake(s, a, b);
    } else {
      AccountOther(s, a, b);
    }
  }

  /** Settled retries less the forced checks that are alive or lost. */
  ghost function Balance(acts: seq<Action>, states: seq<State>, n: nat, b: nat): int
    requires n <= |acts| < |states|
  {
    SettledRetries(acts, states, n, b) - ForcedAlive(states[n], b) - ForcedLost(acts, states, n, b)
  }

  lemma {:induction false} BalanceStep(acts: seq<Action>, states: seq<State>, n: nat, b: nat)
    requires Run(acts, states) && n < |acts|
    ensures Balance(acts, states, n + 1, b) == Balance(acts, states, n, b)
  {
    StepOfRun(acts, states, n);
    AccountStep(states[n], acts[n], b);
  }

  lemma {:induction false} Balanced(acts: seq<Action>, states: seq<State>, n: nat, b: nat)
    requires Run(acts, states) && n <= |acts|
    ensures Balance(acts, states, n, b) == 0
    decreases n
  {
    if n > 0 {
      Balanced(acts, states, n - 1, b);
      BalanceStep(acts, states, n - 1, b);
    }
  }

  /** Over every run each settled retry of a batch is accounted for: its check has led to a
      continuation, waits, is at work, or was lost at a closed gate, in an aborted scope, or in a restart. */
  lemma {:induction false} RetriesAccounted(acts: seq<Action>, states: seq<State>, n: nat, b: nat)
    requires Run(acts, states) && n <= |acts|
    ensures SettledRetries(acts, states, n, b) == ForcedAlive(states[n], b) + ForcedLost(acts, states, n, b)
  {
    Balanced(acts, states, n, b);
  }

  // ---------------------------------------------------------------- a forced check

  predicate PastGate(cur: Current, c: Check) {
    !cur.Idle? && !cur.AtGate? && cur.check == c
  }

  /** The k-th continuation is that of check c, at the anchor of c, which it hangs under. */
  ghost predicate ContinuesCheck(s: State, k: nat, c: Check) {
    && k < |s.conts| && s.conts[k].check == c && AnchorIs(s.batches, c, s.conts[k].anchor)
    && s.conts[k].child in SpineChildren(s.rows, Some(s.conts[k].anchor))
  }

  predicate GoesOn(s: State, k: nat, c: Check) {
    (PastGate(s.current, c) && |s.conts| == k) || (k < |s.conts| && s.conts[k].check == c)
  }

  lemma {:induction false} ForcedStep(s: State, a: Action, k: nat, c: Check)
    requires Enabled(s, a) && a != Restart && c.forced && c.scope !in s.aborted && GoesOn(s, k, c)
    ensures GoesOn(Do(s, a), k, c)
  {
  }

  lemma {:induction false} AbortedStep(acts: seq<Action>, states: seq<State>, n: nat)
    requires Run(acts, states) && n < |acts|
    ensures states[n].aborted <= states[n + 1].aborted
  {
    StepOfRun(acts, states, n);
  }

  lemma {:induction false} ForcedRunStep(acts: seq<Action>, states: seq<State>, n: nat, k: nat, c: Check)
    requires Run(acts, states) && n < |acts| && acts[n] != Restart
    requires c.forced && c.scope !in states[n].aborted && GoesOn(states[n], k, c)
    ensures GoesOn(states[n + 1], k, c)
  {
    StepOfRun(acts, states, n);
    ForcedStep(states[n], acts[n], k, c);
  }

  /** A forced check that has passed its gate gets its continuation, whatever hangs under the anchor
      already, unless its scope is aborted or the process restarts: when the check is over, the
      continuation is there. */
  lemma {:induction false} ForcedContinues(acts: seq<Action>, states: seq<State>, i: nat, n: nat, c: Check)
    requires Run(acts, states) && i <= n <= |acts| && PastGate(states[i].current, c) && c.forced
    requires c.scope !in states[n].aborted && forall k | i <= k < n :: acts[k] != Restart
    ensures PastGate(states[n].current, c) || ContinuesCheck(states[n], |states[i].conts|, c)
  {
    ForcedGoesOn(acts, states, i, n, c);
    InvAlways(acts, states, n);
    var s, k := states[n], |states[i].conts|;
    if !PastGate(s.current, c) { assert ContOk(s.rows, s.batches, s.conts[k]); }
  }

  lemma {:induction false} StaysTrue(q: seq<bool>, i: nat, n: nat)
    requires i <= n < |q| && q[i] && forall k | i <= k < n :: q[k] ==> q[k + 1]
    ensures q[n]
    decreases n
  {
    if i < n { StaysTrue(q, i, n - 1); }
  }

  lemma {:induction false} AbortedStays(acts: seq<Action>, states: seq<State>, scope: nat, i: nat, n: nat)
    requires Run(acts, states) && i <= n <= |acts| && scope in states[i].aborted
    ensures scope in states[n].aborted
  {
    var q := seq(|states|, j requires 0 <= j < |states| => scope in states[j].aborted);
    forall k | i <= k < n ensures q[k] ==> q[k + 1] { AbortedStep(acts, states, k); }
    StaysTrue(q, i, n);
  }

  lemma {:induction false} ForcedGoesOn(acts: seq<Action>, states: seq<State>, i: nat, n: nat, c: Check)
    requires Run(acts, states) && i <= n <= |acts| && PastGate(states[i].current, c) && c.forced
    requires c.scope !in states[n].aborted && forall k | i <= k < n :: acts[k] != Restart
    ensures GoesOn(states[n], |states[i].conts|, c)
  {
    var q := seq(|states|, j requires 0 <= j < |states| => GoesOn(states[j], |states[i].conts|, c));
    forall k | i <= k < n ensures q[k] ==> q[k + 1] {
      if c.scope in states[k].aborted { AbortedStays(acts, states, c.scope, k, n); }
      if q[k] { ForcedRunStep(acts, states, k, |states[i].conts|, c); }
    }
    StaysTrue(q, i, n);
  }

  // ---------------------------------------------------------------- a retry

  /** The continuations since state i are new entries. */
  ghost predicate ContsSince(s: State, t: State) {
    && |s.conts| <= |t.conts| && t.conts[..|s.conts|] == s.conts && Kept(s.rows, t.rows)
    && forall k | |s.conts| <= k < |t.conts| :: t.conts[k].child !in s.rows
  }

  lemma {:induction false} ContsSinceStep(s: State, t: State, a: Action)
    requires ContsSince(s, t) && Safe(t) && Enabled(t, a)
    ensures ContsSince(s, Do(t, a))
  {
    var u := Do(t, a);
    KeptStep(t, a);
    KeptTwice(s.rows, t.rows, u.rows);
    forall k | |s.conts| <= k < |u.conts| ensures u.conts[k].child !in s.rows {
      assert k < |t.conts| ==> u.conts[k] == t.conts[k];
    }
  }

  lemma {:induction false} ContsStepAt(acts: seq<Action>, states: seq<State>, i: nat, n: nat)
    requires Run(acts, states) && i <= n < |acts| && ContsSince(states[i], states[n])
    ensures ContsSince(states[i], states[n + 1])
  {
    StepOfRun(acts, states, n);
    ContsSinceStep(states[i], states[n], acts[n]);
  }

  lemma {:induction false} ContsSame(s: State)
    ensures ContsSince(s, s)
  {
    Same(s.rows, s.batches);
  }

  lemma {:induction false} ContsGrow(acts: seq<Action>, states: seq<State>, i: nat, n: nat)
    requires Run(acts, states) && i <= n <= |acts|
    ensures ContsSince(states[i], states[n])
  {
    var q := seq(|states|, k requires 0 <= k < |states| => ContsSince(states[i], states[k]));
    forall k | i <= k < n && q[k] ensures q[k + 1] { ContsStepAt(acts, states, i, k); }
    ContsSame(states[i]);
    StaysTrue(q, i, n);
  }

  lemma {:induction false} MoreForced(q: seq<Cont>, r: seq<Cont>, b: nat) returns (k: nat)
    requires |q| <= |r| && r[..|q|] == q && ForcedConts(r, b) > ForcedConts(q, b)
    ensures |q| <= k < |r| && ForcedOf(r[k].check, b)
    decreases |r|
  {
    var f := r[..|r| - 1];
    k := |r| - 1;
    if !ForcedOf(r[k].check, b) {
      assert |q| == |r| ==> q == r;
      assert f[..|q|] == q;
      k := MoreForced(q, f, b);
    }
  }

  lemma {:induction false} RetriesGrow(acts: seq<Action>, states: seq<State>, i: nat, n: nat, b: nat)
    requires i <= n <= |acts| <= |states|
    ensures SettledRetries(acts, states, i, b) <= SettledRetries(acts, states, n, b)
    decreases n
  {
    if i < n { RetriesGrow(acts, states, i, n - 1, b); }
  }

  lemma {:induction false} RetriesBetween(acts: seq<Action>, states: seq<State>, i: nat, n: nat, b: nat)
    requires Run(acts, states) && i < n <= |acts| && !Queued(states[n].queue, b) && !AtWork(states[n].current, b)
    requires ForcedLost(acts, states, n, b) == ForcedLost(acts, states, i, b)
    ensures ForcedConts(states[n].conts, b)
              == ForcedAlive(states[i], b) + SettledRetries(acts, states, n, b) - SettledRetries(acts, states, i, b)
  {
    RetriesAccounted(acts, states, i, b);
    RetriesAccounted(acts, states, n, b);
    NoneForced(states[n].queue, b);
  }

  lemma {:induction false} RetryCounts(acts: seq<Action>, states: seq<State>, i: nat, n: nat, f: FlowId, b: nat)
    requires Run(acts, states) && i < n <= |acts| && acts[i] == Resolve(f) && f in states[i].flows
    requires states[i].flows[f].forced && states[i].flows[f].continues && FlowOf(states[i].flows[f], b)
    requires !Queued(states[n].queue, b) && !AtWork(states[n].current, b)
    requires ForcedLost(acts, states, n, b) == ForcedLost(acts, states, i, b)
    ensures ForcedConts(states[n].conts, b)
              == ForcedAlive(states[i], b) + SettledRetries(acts, states, n, b) - SettledRetries(acts, states, i, b)
    ensures ForcedConts(states[n].conts, b) > ForcedConts(states[i].conts, b)
  {
    RetriesBetween(acts, states, i, n, b);
    RetriesGrow(acts, states, i + 1, n, b);
  }

  lemma {:induction false} ContHangs(acts: seq<Action>, states: seq<State>, n: nat, k: nat)
    requires Run(acts, states) && n <= |acts| && k < |states[n].conts|
    ensures ContinuesCheck(states[n], k, states[n].conts[k].check)
  {
    InvAlways(acts, states, n);
    assert ContOk(states[n].rows, states[n].batches, states[n].conts[k]);
  }

  /** A settled retry of a batch, continued before or not, ends with one more continuation at the
      batch's tail, a new entry, once no check of the batch is left and none was lost. Since then there
      is exactly one more for every retry that settled, and for every forced check that was still alive. */
  lemma {:induction false} RetryAddsOne(acts: seq<Action>, states: seq<State>, i: nat, n: nat, f: FlowId, b: nat) returns (k: nat)
    requires Run(acts, states) && i < n <= |acts| && acts[i] == Resolve(f) && f in states[i].flows
    requires states[i].flows[f].forced && states[i].flows[f].continues && FlowOf(states[i].flows[f], b)
    requires !Queued(states[n].queue, b) && !AtWork(states[n].current, b)
    requires ForcedLost(acts, states, n, b) == ForcedLost(acts, states, i, b)
    ensures ForcedConts(states[n].conts, b)
              == ForcedAlive(states[i], b) + SettledRetries(acts, states, n, b) - SettledRetries(acts, states, i, b)
    ensures ForcedConts(states[n].conts, b) > ForcedConts(states[i].conts, b)
    ensures |states[i].conts| <= k < |states[n].conts| && Of(states[n].conts[k].check, b)
    ensures ContinuesCheck(states[n], k, states[n].conts[k].check) && states[n].conts[k].child !in states[i].rows
  {
    RetryCounts(acts, states, i, n, f, b);
    ContsGrow(acts, states, i, n);
    k := MoreForced(states[i].conts, states[n].conts, b);
    ContHangs(acts, states, n, k);
  }

  lemma {:induction false} NoneForced(q: seq<Check>, b: nat)
    requires !Queued(q, b)
    ensures Forced(q, b) == 0
    decreases |q|
  {
    if q != [] {
      var f := q[..|q| - 1];
      assert !Of(q[|q| - 1], b);
      forall i | 0 <= i < |f| ensures !Of(f[i], b) { assert !Of(q[i], b); }
      NoneForced(f, b);
    }
  }

  // ---------------------------------------------------------------- restart

  /** The boot sweep makes exactly the running invocations failed and retryable, and leaves their other
      fields and all other entries alone. */
  lemma {:induction false} SweepsRunning(acts: seq<Action>, states: seq<State>, i: nat, x: Id)
    requires Run(acts, states) && i < |acts| && acts[i] == Restart && x in states[i].rows
    ensures x in states[i + 1].rows
    ensures var r, t := states[i].rows[x], states[i + 1].rows[x];
            if HasState(states[i].rows, x, ToolState.Running)
            then HasState(states[i + 1].rows, x, Error) && t.payload.allowed && OnlyPayload(map[x := r], map[x := t], x)
                 && t.payload.toolId == r.payload.toolId && t.payload.parameters == r.payload.parameters
            else t == r
    ensures states[i + 1].flows == map[] && states[i + 1].queue == [] && states[i + 1].current == Idle
  {
    StepOfRun(acts, states, i);
  }
}
