/** What the fan-in guarantees over every run. */
module FanInResults {
  import opened Options
  import opened Entries
  import opened Forest
  import opened Batches
  import opened FanIn
  import opened FanInInvariant
  import opened FanInSafety
  import opened FanInLiveness

  // ---------------------------------------------------------------- the gate

  /** A check passes its gate exactly when the batch has been dispatched in full and every stamped
      member is terminal, whatever the members went through. */
  lemma {:induction false} GateOpensExactly(acts: seq<Action>, states: seq<State>, i: nat)
    requires Run(acts, states) && i < |acts| && acts[i] == Gate
    ensures states[i].current.AtGate? && states[i].current.check.batch.Some?
    ensures var s, b := states[i], states[i].current.check.batch.value;
            && b.id in s.batches && s.batches[b.id].size == b.size
            && Members(s.rows, b.id) == Elements(s.batches[b.id].members)
            && (states[i + 1].current.AtTail? <==>
                  |s.batches[b.id].members| == b.size
                  && forall x | x in s.batches[b.id].members :: x in s.rows && Resolved(s.rows[x].payload))
  {
    InvAlways(acts, states, i);
    assert Steps(states[i], acts[i], states[i + 1]);
    var s, b := states[i], states[i].current.check.batch.value;
    assert CurrentOk(s.rows, s.batches, s.current);
    assert DispatchOk(s.rows, s.batches[b.id], b.id);
    MembersAre(s.rows, s.batches, b.id);
    GateExact(s.rows, s.batches, b.id);
  }

  /** Blocking, failing, running, approving with edits and retrying leave the place and the batch
      stamp of an entry alone. */
  lemma {:induction false} PlaceAndStampKept(acts: seq<Action>, states: seq<State>, i: nat, j: nat)
    requires Run(acts, states) && i <= j < |states|
    ensures Kept(states[i].rows, states[j].rows)
    decreases j - i
  {
    if i < j {
      InvAlways(acts, states, i);
      assert Steps(states[i], acts[i], states[i + 1]);
      KeptStep(states[i], acts[i]);
      PlaceAndStampKept(acts, states, i + 1, j);
      KeptTwice(states[i].rows, states[i + 1].rows, states[j].rows);
    }
  }

  lemma {:induction false} KeptTwice(m: Forest, n: Forest, o: Forest)
    requires Kept(m, n) && Kept(n, o)
    ensures Kept(m, o)
  {
    forall a | a in m ensures a in o && KeptRow(m[a], o[a]) {
      assert KeptRow(m[a], n[a]) && KeptRow(n[a], o[a]);
    }
  }

  // ---------------------------------------------------------------- at most one

  /** Of two continuations of one batch, the later one was forced by a retry. */
  lemma {:induction false} AtMostOneUnforced(acts: seq<Action>, states: seq<State>, n: nat, i: nat, j: nat, b: nat)
    requires Run(acts, states) && n < |states| && i < j < |states[n].conts|
    requires Of(states[n].conts[i].check, b) && Of(states[n].conts[j].check, b)
    ensures states[n].conts[j].check.forced
  {
    InvAlways(acts, states, n);
    SameAnchor(states[n], i, j, b);
  }

  /** The same holds at every anchor, also for invocations without a batch, which are their own anchor. */
  lemma {:induction false} AtMostOnePerAnchor(acts: seq<Action>, states: seq<State>, n: nat, i: nat, j: nat)
    requires Run(acts, states) && n < |states| && i < j < |states[n].conts|
    requires states[n].conts[i].anchor == states[n].conts[j].anchor
    ensures states[n].conts[j].check.forced
    ensures states[n].conts[j].check.batch.None? ==> states[n].conts[j].anchor == states[n].conts[j].check.entry
  {
    InvAlways(acts, states, n);
    assert ContOk(states[n].rows, states[n].batches, states[n].conts[j]);
  }

  lemma {:induction false} SameAnchor(s: State, i: nat, j: nat, b: nat)
    requires ContsOk(s) && i < |s.conts| && j < |s.conts| && Of(s.conts[i].check, b) && Of(s.conts[j].check, b)
    ensures s.conts[i].anchor == s.conts[j].anchor
  {
    assert ContOk(s.rows, s.batches, s.conts[i]) && ContOk(s.rows, s.batches, s.conts[j]);
  }

  function ContsFor(q: seq<Cont>, b: nat): nat {
    if q == [] then 0 else ContsFor(q[..|q| - 1], b) + (if Of(q[|q| - 1].check, b) then 1 else 0)
  }

  lemma {:induction false} NoContsFor(q: seq<Cont>, b: nat)
    requires forall i | 0 <= i < |q| :: !Of(q[i].check, b)
    ensures ContsFor(q, b) == 0
    decreases |q|
  {
    if q != [] {
      var f := q[..|q| - 1];
      forall i | 0 <= i < |f| ensures !Of(f[i].check, b) { assert f[i] == q[i]; }
      NoContsFor(f, b);
    }
  }

  lemma {:induction false} CountConts(q: seq<Cont>, b: nat)
    requires forall i, j | 0 <= i < j < |q| && Of(q[i].check, b) && Of(q[j].check, b) :: q[j].check.forced
    ensures ContsFor(q, b) <= 1 + ForcedConts(q, b)
    decreases |q|
  {
    if q != [] {
      var f, z := q[..|q| - 1], q[|q| - 1];
      assert forall i | 0 <= i < |f| :: f[i] == q[i];
      if Of(z.check, b) && !z.check.forced {
        NoContsFor(f, b);
      } else {
        CountConts(f, b);
      }
    }
  }

  /** A batch has at most one continuation more than it had settled retries. */
  lemma {:induction false} BoundedByRetries(acts: seq<Action>, states: seq<State>, n: nat, b: nat)
    requires Run(acts, states) && n < |states|
    ensures ContsFor(states[n].conts, b) <= 1 + Forced(states[n].asked, b)
  {
    InvAlways(acts, states, n);
    var s := states[n];
    forall i, j | 0 <= i < j < |s.conts| && Of(s.conts[i].check, b) && Of(s.conts[j].check, b)
      ensures s.conts[j].check.forced
    {
      SameAnchor(s, i, j, b);
    }
    CountConts(s.conts, b);
    assert CountOk(s, b);
  }

  // ---------------------------------------------------------------- stranded batches

  lemma {:induction false} StepOfRun(acts: seq<Action>, states: seq<State>, i: nat)
    requires Run(acts, states) && i < |acts|
    ensures Safe(states[i]) && Enabled(states[i], acts[i]) && states[i + 1] == Do(states[i], acts[i])
  {
    InvAlways(acts, states, i);
    assert Steps(states[i], acts[i], states[i + 1]);
  }

  /** At every step of every run: a batch is stranded after the step exactly if the step strands it,
      or it was stranded and the step does not take it up again. */
  lemma {:induction false} StrandedStepwise(acts: seq<Action>, states: seq<State>, i: nat, b: nat)
    requires Run(acts, states) && i < |acts|
    ensures Stranded(states[i + 1], b) <==>
            Strands(states[i], acts[i], b) || (Stranded(states[i], b) && !Rescues(states[i], acts[i], b))
  {
    StepOfRun(acts, states, i);
    StrandedStep(states[i], acts[i], b);
  }

  /** A restart leaves a batch stranded exactly if, as the table has it by then, every member of it is
      terminal or running and nothing continues it yet; what else was outstanding does not
      matter, since nothing in flight survives. */
  lemma {:induction false} RestartStrandsExactly(acts: seq<Action>, states: seq<State>, i: nat, b: nat)
    requires Run(acts, states) && i < |acts| && acts[i] == Restart
    ensures Stranded(states[i + 1], b) <==>
            Unanswered(states[i], b) && ResolvedOrRunning(states[i].rows, states[i].batches[b])
  {
    StrandedStepwise(acts, states, i, b);
    if Stranded(states[i], b) { StrandedIsResolved(states[i], b); }
  }

  lemma {:induction false} StrandedIsResolved(s: State, b: nat)
    requires Stranded(s, b)
    ensures Unanswered(s, b) && ResolvedOrRunning(s.rows, s.batches[b])
  {
  }

  /** A flag that some steps set and some clear. */
  ghost predicate Toggled(flag: seq<bool>, sets: seq<bool>, clears: seq<bool>) {
    && |flag| == |sets| + 1 && |clears| == |sets| && !flag[0]
    && forall i | 0 <= i < |sets| :: ToggledAt(flag, sets, clears, i)
  }

  ghost predicate ToggledAt(flag: seq<bool>, sets: seq<bool>, clears: seq<bool>, i: nat)
    requires |flag| == |sets| + 1 && |clears| == |sets| && i < |sets|
  {
    flag[i + 1] == (sets[i] || (flag[i] && !clears[i]))
  }

  ghost predicate SetBy(flag: seq<bool>, sets: seq<bool>, n: nat, i: nat)
    requires |flag| == |sets| + 1 && n <= |sets|
  {
    i < n && sets[i] && forall j | i < j <= n :: flag[j]
  }

  lemma {:induction false} SetExactly(flag: seq<bool>, sets: seq<bool>, clears: seq<bool>, n: nat)
    requires Toggled(flag, sets, clears) && n <= |sets|
    ensures flag[n] <==> exists i :: SetBy(flag, sets, n, i)
    decreases n
  {
    if n > 0 {
      SetExactly(flag, sets, clears, n - 1);
      assert ToggledAt(flag, sets, clears, n - 1);
      if flag[n] {
        if sets[n - 1] {
          assert SetBy(flag, sets, n, n - 1);
        } else {
          var i: nat :| SetBy(flag, sets, n - 1, i);
          assert SetBy(flag, sets, n, i);
        }
      }
    }
  }

  lemma {:induction false} NotSetSince(flag: seq<bool>, sets: seq<bool>, clears: seq<bool>, i: nat, n: nat)
    requires Toggled(flag, sets, clears) && i <= n <= |sets| && !flag[i]
    requires forall k | i <= k < n :: !sets[k]
    ensures !flag[n]
    decreases n
  {
    if i < n {
      NotSetSince(flag, sets, clears, i, n - 1);
      assert ToggledAt(flag, sets, clears, n - 1);
    }
  }

  /** Whether b is stranded, and which steps strand it or take it up, over a run. */
  lemma {:induction false} StrandedFlags(acts: seq<Action>, states: seq<State>, b: nat)
    returns (flag: seq<bool>, sets: seq<bool>, clears: seq<bool>)
    requires Run(acts, states)
    ensures Toggled(flag, sets, clears) && |flag| == |states|
    ensures forall i | 0 <= i < |states| :: flag[i] == Stranded(states[i], b)
    ensures forall i | 0 <= i < |acts| :: sets[i] == Strands(states[i], acts[i], b)
  {
    flag := seq(|states|, i requires 0 <= i < |states| => Stranded(states[i], b));
    sets := seq(|acts|, i requires 0 <= i < |acts| => Strands(states[i], acts[i], b));
    clears := seq(|acts|, i requires 0 <= i < |acts| => Rescues(states[i], acts[i], b));
    forall i | 0 <= i < |acts| ensures ToggledAt(flag, sets, clears, i) {
      StrandedStepwise(acts, states, i, b);
    }
  }

  /** A step i before state n stranded b, and b has been stranded since. */
  ghost predicate StrandedBy(acts: seq<Action>, states: seq<State>, n: nat, b: nat, i: nat)
    requires |states| == |acts| + 1 && n <= |acts|
  {
    i < n && Strands(states[i], acts[i], b) && forall j | i < j <= n :: Stranded(states[j], b)
  }

  /** Over every run a batch is stranded exactly if some step stranded it and nothing has taken it
      up again since. */
  lemma {:induction false} StrandedExactly(acts: seq<Action>, states: seq<State>, n: nat, b: nat)
    requires Run(acts, states) && n <= |acts|
    ensures Stranded(states[n], b) <==> exists i :: StrandedBy(acts, states, n, b, i)
  {
    var flag, sets, clears := StrandedFlags(acts, states, b);
    SetExactly(flag, sets, clears, n);
    forall i: nat ensures StrandedBy(acts, states, n, b, i) <==> SetBy(flag, sets, n, i) {
      if i < n { FlagsSay(acts, states, n, b, i, flag, sets); }
    }
  }

  lemma {:induction false} FlagsSay(acts: seq<Action>, states: seq<State>, n: nat, b: nat, i: nat, flag: seq<bool>, sets: seq<bool>)
    requires |states| == |acts| + 1 && i < n <= |acts| && |flag| == |states| && |sets| == |acts|
    requires forall j | 0 <= j < |states| :: flag[j] == Stranded(states[j], b)
    requires sets[i] == Strands(states[i], acts[i], b)
    ensures StrandedBy(acts, states, n, b, i) <==> SetBy(flag, sets, n, i)
  {
  }

  /** From any state of a run on, a batch that is not stranded stays so, whatever happened before,
      as long as no step strands it. */
  lemma {:induction false} NotStrandedSince(acts: seq<Action>, states: seq<State>, i: nat, n: nat, b: nat)
    requires Run(acts, states) && i <= n < |states| && !Stranded(states[i], b)
    requires forall k | i <= k < n :: !Strands(states[k], acts[k], b)
    ensures !Stranded(states[n], b)
  {
    var flag, sets, clears := StrandedFlags(acts, states, b);
    NotSetSince(flag, sets, clears, i, n);
  }

  /** What the queries of a check say of a batch that is not stranded. */
  lemma {:induction false} ContinuedIfNotStranded(s: State, b: nat)
    requires Inv(s) && b in s.batches && s.batches[b].continues && !Stranded(s, b) && !Pending(s, b)
    requires |ResolvedMembers(s.rows, b)| >= s.batches[b].size
    ensures TailOf(s.rows, b).Some? && HasSpineChild(s.rows, TailOf(s.rows, b).value)
  {
    GateExact(s.rows, s.batches, b);
    TailExact(s.rows, s.batches, b);
  }

  /** A batch that wants a continuation, whose members are all terminal and for which no check is
      outstanding, has one, unless some step of the run stranded it. */
  lemma {:induction false} NoStrandedBatch(acts: seq<Action>, states: seq<State>, n: nat, b: nat)
    requires Run(acts, states) && n < |states| && b in states[n].batches && states[n].batches[b].continues
    requires forall k | 0 <= k < n :: !Strands(states[k], acts[k], b)
    requires |ResolvedMembers(states[n].rows, b)| >= states[n].batches[b].size
    requires !Pending(states[n], b)
    ensures TailOf(states[n].rows, b).Some? && HasSpineChild(states[n].rows, TailOf(states[n].rows, b).value)
  {
    InvAlways(acts, states, n);
    NotStrandedSince(acts, states, 0, n, b);
    ContinuedIfNotStranded(states[n], b);
  }

  /** A member that settles late still fans in: whatever restarts, aborts and lost flows came before,
      once its flow has asked for the check, the batch gets its continuation, unless a later step
      strands it again. */
  lemma {:induction false} LateSettlementContinues(acts: seq<Action>, states: seq<State>, i: nat, n: nat, f: FlowId, b: nat)
    requires Run(acts, states) && i < n < |states| && acts[i] == Resolve(f)
    requires f in states[i].flows && FlowOf(states[i].flows[f], b)
    requires forall k | i < k < n :: !Strands(states[k], acts[k], b)
    requires b in states[n].batches && states[n].batches[b].continues
    requires |ResolvedMembers(states[n].rows, b)| >= states[n].batches[b].size
    requires !Pending(states[n], b)
    ensures TailOf(states[n].rows, b).Some? && HasSpineChild(states[n].rows, TailOf(states[n].rows, b).value)
  {
    StepOfRun(acts, states, i);
    StrandedStepwise(acts, states, i, b);
    ResolveOwes(states[i], f, b);
    NotStrandedSince(acts, states, i + 1, n, b);
    InvAlways(acts, states, n);
    ContinuedIfNotStranded(states[n], b);
  }

  lemma {:induction false} ResolveOwes(s: State, f: FlowId, b: nat)
    requires Enabled(s, Resolve(f)) && FlowOf(s.flows[f], b)
    ensures !Stranded(s, b)
  {
    assert OwesTo(s.flows[f], b);
  }

  // ---------------------------------------------------------------- the shape

  /** The batch is resolved and continued, with no retry and nothing else put under its tail. */
  ghost predicate Quiet(s: State, b: nat) {
    && b in s.batches && s.batches[b].continues && AllResolved(s.rows, s.batches[b])
    && !Stranded(s, b) && !Pending(s, b) && Forced(s.asked, b) == 0
    && forall x | x in SpineChildren(s.rows, Some(Last(s.batches[b]))) :: x !in s.foreign
  }

  lemma {:induction false} NotLast(m: Forest, e: Dispatch, i: nat)
    requires Sorted(m, e.members) && i + 1 < |e.members|
    ensures e.members[i] != Last(e)
  {
  }

  /** An entry that one of the members hangs under is no batch's last member. */
  lemma {:induction false} ParentIsNoTail(m: Forest, bs: map<nat, Dispatch>, b: nat, x: Id)
    requires RowsOk(m, bs) && b in bs && Complete(bs[b]) && x in m && StampOf(m[x].payload).Some?
    ensures m[x].parent != Some(Last(bs[b]))
  {
    var b2 := StampOf(m[x].payload).value.id;
    assert StampOk(m, bs, x);
    var e := bs[b2];
    assert DispatchOk(m, e, b2);
    var i :| 0 <= i < |e.members| && e.members[i] == x;
    assert MemberOk(m, e, b2, i);
    TailStamped(m, bs, b);
    if i > 0 {
      assert MemberOk(m, e, b2, i - 1);
      NotLast(m, e, i - 1);
    }
  }

  /** No member of any batch hangs under the last member of one. */
  lemma {:induction false} NoMemberBelowTail(m: Forest, bs: map<nat, Dispatch>, b: nat, x: Id)
    requires RowsOk(m, bs) && b in bs && Complete(bs[b]) && x in m && m[x].parent == Some(Last(bs[b]))
    ensures StampOf(m[x].payload) == None
  {
    if StampOf(m[x].payload).Some? {
      ParentIsNoTail(m, bs, b, x);
    }
  }

  lemma {:induction false} TailsDiffer(m: Forest, bs: map<nat, Dispatch>, b: nat, c: nat)
    requires RowsOk(m, bs) && b in bs && c in bs && Complete(bs[b]) && Complete(bs[c]) && Last(bs[b]) == Last(bs[c])
    ensures b == c
  {
    assert DispatchOk(m, bs[b], b) && DispatchOk(m, bs[c], c);
    assert MemberOk(m, bs[b], b, |bs[b].members| - 1) && MemberOk(m, bs[c], c, |bs[c].members| - 1);
  }

  lemma {:induction false} BelowTail(s: State, b: nat, x: Id) returns (k: nat)
    requires Inv(s) && Quiet(s, b) && x in SpineChildren(s.rows, Some(Last(s.batches[b])))
    ensures k < |s.conts| && s.conts[k].child == x && s.conts[k].anchor == Last(s.batches[b]) && Of(s.conts[k].check, b)
  {
    var tail := Last(s.batches[b]);
    NoMemberBelowTail(s.rows, s.batches, b, x);
    assert OriginOk(s.rows, s.foreign, s.conts, x);
    k :| 0 <= k < |s.conts| && s.conts[k].child == x;
    var c := s.conts[k];
    assert ContOk(s.rows, s.batches, c);
    TailStamped(s.rows, s.batches, b);
    if c.check.batch.Some? {
      TailsDiffer(s.rows, s.batches, b, c.check.batch.value.id);
    }
  }

  lemma {:induction false} SomeForced(q: seq<Cont>, b: nat, k: nat)
    requires k < |q| && ForcedOf(q[k].check, b)
    ensures ForcedConts(q, b) > 0
    decreases |q|
  {
    if k < |q| - 1 {
      SomeForced(q[..|q| - 1], b, k);
    }
  }

  /** The one spine child of a is the continuation of b. */
  ghost predicate ContinuedBy(s: State, b: nat, a: Id, child: Id) {
    && SpineChildren(s.rows, Some(a)) == {child}
    && exists k :: 0 <= k < |s.conts| && s.conts[k].child == child && s.conts[k].anchor == a && Of(s.conts[k].check, b)
  }

  lemma {:induction false} SameKid(s: State, b: nat, x: Id, y: Id)
    requires Inv(s) && Quiet(s, b)
    requires x in SpineChildren(s.rows, Some(Last(s.batches[b]))) && y in SpineChildren(s.rows, Some(Last(s.batches[b])))
    ensures x == y
  {
    var j := BelowTail(s, b, x);
    var k := BelowTail(s, b, y);
    OneCont(s, b, j, k);
  }

  /** Under the last member there is one continuation, and nothing else on the spine. */
  lemma {:induction false} OneContinuation(s: State, b: nat) returns (child: Id)
    requires Inv(s) && Quiet(s, b)
    ensures ContinuedBy(s, b, Last(s.batches[b]), child)
  {
    var kids := SpineChildren(s.rows, Some(Last(s.batches[b])));
    child :| child in kids;
    forall x | x in kids ensures x == child {
      SameKid(s, b, x, child);
    }
    var k := BelowTail(s, b, child);
  }

  lemma {:induction false} OneCont(s: State, b: nat, j: nat, k: nat)
    requires ContsOk(s) && CountOk(s, b) && Forced(s.asked, b) == 0
    requires j < |s.conts| && k < |s.conts| && Of(s.conts[j].check, b) && Of(s.conts[k].check, b)
    ensures j == k
  {
    if j != k {
      SameAnchor(s, j, k, b);
      SomeForced(s.conts, b, if j < k then k else j);
    }
  }

  /** Settlement order does not matter: whatever two runs do with the same dispatch, every member
      hangs under the same parent in both, in the same lane and with the same stamp, and in both the
      same last member has one spine child, the continuation of this batch. */
  lemma {:induction false} ShapeIsFixed(acts: seq<Action>, states: seq<State>, n: nat,
                                        acts2: seq<Action>, states2: seq<State>, n2: nat, b: nat)
    returns (child: Id, child2: Id)
    requires Run(acts, states) && n < |states| && Run(acts2, states2) && n2 < |states2|
    requires Quiet(states[n], b) && Quiet(states2[n2], b) && states[n].batches[b] == states2[n2].batches[b]
    ensures forall x | x in states[n].batches[b].members :: SamePosition(states[n].rows, states2[n2].rows, x)
    ensures ContinuedBy(states[n], b, Last(states[n].batches[b]), child)
    ensures ContinuedBy(states2[n2], b, Last(states[n].batches[b]), child2)
  {
    InvAlways(acts, states, n);
    InvAlways(acts2, states2, n2);
    var d := states[n].batches[b];
    assert DispatchOk(states[n].rows, d, b) && DispatchOk(states2[n2].rows, d, b);
    forall x | x in d.members ensures SamePosition(states[n].rows, states2[n2].rows, x) {
      var i :| 0 <= i < |d.members| && d.members[i] == x;
      assert MemberOk(states[n].rows, d, b, i) && MemberOk(states2[n2].rows, d, b, i);
    }
    child := OneContinuation(states[n], b);
    child2 := OneContinuation(states2[n2], b);
  }

  ghost predicate SamePosition(m: Forest, n: Forest, x: Id) {
    && x in m && x in n && m[x].parent == n[x].parent && m[x].isSide == n[x].isSide
    && StampOf(m[x].payload) == StampOf(n[x].payload)
  }
}
