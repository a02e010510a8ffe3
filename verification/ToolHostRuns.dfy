/**
 What reaches a running tool over a whole run of the tool-host protocol: when an invocation runs, when
 it has been told to stop, and why an invocation has settled as it has.
 */
module ToolHostRuns {
  import opened Options
  import opened ToolHost

  // ---------------------------------------------------------------- what happens at a step

  /** The host takes an invoke of the invocation, for a tool that it has or has not. */
  ghost predicate Begins(s: State, a: Action, id: InvId, known: bool) {
    && a.HostTakes? && s.toHost != [] && s.toHost[0].Invoke? && s.toHost[0].id == id
    && (s.toHost[0].tool in s.tools <==> known)
  }

  /** The run of the tool is over. */
  ghost predicate Ends(a: Action, id: InvId) {
    a.Finish? && a.id == id
  }

  /** The host takes a cancel of the invocation, or the channel is closed. */
  ghost predicate Stops(s: State, a: Action, id: InvId) {
    a.Close? || (a.HostTakes? && s.toHost != [] && s.toHost[0] == Cancel(id))
  }

  /** The run reports its outcome, or the host takes an invoke of a tool that it does not have. */
  ghost predicate Decides(s: State, a: Action, id: InvId, outcome: Outcome) {
    a == Finish(id, outcome) || (Begins(s, a, id, false) && outcome == Failed("Unknown tool: " + s.toHost[0].tool))
  }

  ghost predicate BeginsAt(acts: seq<Action>, states: seq<State>, k: nat, id: InvId)
    requires k < |acts| < |states|
  {
    Begins(states[k], acts[k], id, true)
  }

  ghost predicate EndsAt(acts: seq<Action>, k: nat, id: InvId)
    requires k < |acts|
  {
    Ends(acts[k], id)
  }

  ghost predicate StopsAt(acts: seq<Action>, states: seq<State>, k: nat, id: InvId)
    requires k < |acts| < |states|
  {
    Stops(states[k], acts[k], id)
  }

  ghost predicate DecidesAt(acts: seq<Action>, states: seq<State>, k: nat, id: InvId, outcome: Outcome)
    requires k < |acts| < |states|
  {
    Decides(states[k], acts[k], id, outcome)
  }

  // ---------------------------------------------------------------- one step

  /** A taken invoke of a known tool starts the invocation, its end ends it, a cancel or a close tells
      it to stop, and nothing else touches it. */
  ghost predicate Touches(s: State, a: Action, t: State, id: InvId) {
    && (Begins(s, a, id, true) ==> ResultsOf(s.results, id) + One(id in s.running) == 0)
    && (id in t.running <==> Begins(s, a, id, true) || (id in s.running && !Ends(a, id)))
    && (id in t.running ==> (t.running[id] <==> !Begins(s, a, id, true) && (s.running[id] || Stops(s, a, id))))
    && ResultsOf(t.results, id) + One(id in t.running) >= ResultsOf(s.results, id) + One(id in s.running)
  }

  lemma {:induction false} InvokeTouches(s: State, id: InvId)
    requires Inv(s) && s.toHost != [] && s.toHost[0].Invoke?
    ensures Touches(s, HostTakes, Do(s, HostTakes), id)
  {
    var m := s.toHost[0];
    InvokesFront(s.toHost, m.id);
    assert PlaceOk(s, m.id);
    ResultsMore(s.results, Result(m.id, Failed("Unknown tool: " + m.tool)), id);
  }

  lemma {:induction false} CancelTouches(s: State, id: InvId)
    requires s.toHost != [] && !s.toHost[0].Invoke?
    ensures Touches(s, HostTakes, Do(s, HostTakes), id)
  {
  }

  lemma {:induction false} FinishTouches(s: State, a: Action, id: InvId)
    requires a.Finish? && Enabled(s, a)
    ensures Touches(s, a, Do(s, a), id)
  {
    ResultsMore(s.results, Result(a.id, a.outcome), id);
  }

  lemma {:induction false} OthersTouch(s: State, a: Action, id: InvId)
    requires !a.Finish? && !a.HostTakes? && Enabled(s, a)
    ensures Touches(s, a, Do(s, a), id)
  {
    assert Do(s, a).results == s.results;
  }

  lemma {:induction false} StepTouches(s: State, a: Action, id: InvId)
    requires Inv(s) && Enabled(s, a)
    ensures Touches(s, a, Do(s, a), id)
  {
    match a
    case HostTakes => if s.toHost[0].Invoke? { InvokeTouches(s, id); } else { CancelTouches(s, id); }
    case Finish(_, _) => FinishTouches(s, a, id);
    case _ => OthersTouch(s, a, id);
  }

  // ---------------------------------------------------------------- over a run

  ghost predicate TouchesAt(acts: seq<Action>, states: seq<State>, k: nat, id: InvId)
    requires k < |acts| < |states|
  {
    Touches(states[k], acts[k], states[k + 1], id)
  }

  ghost predicate Touched(acts: seq<Action>, states: seq<State>, id: InvId) {
    && |states| == |acts| + 1 && id !in states[0].running
    && forall k | 0 <= k < |acts| :: TouchesAt(acts, states, k, id)
  }

  lemma {:induction false} RunTouches(tools: set<string>, acts: seq<Action>, states: seq<State>, id: InvId)
    requires Run(tools, acts, states)
    ensures Touched(acts, states, id)
  {
    forall k | 0 <= k < |acts| ensures TouchesAt(acts, states, k, id) {
      InvAlways(tools, acts, states, k);
      assert Steps(states[k], acts[k], states[k + 1]);
      StepTouches(states[k], acts[k], id);
    }
  }

  lemma {:induction false} RunsSince(acts: seq<Action>, states: seq<State>, n: nat, id: InvId)
    requires Touched(acts, states, id) && n < |states|
    ensures id in states[n].running <==>
              exists j :: 0 <= j < n && BeginsAt(acts, states, j, id) && forall i | j < i < n :: !EndsAt(acts, i, id)
    decreases n
  {
    if n > 0 {
      RunsSince(acts, states, n - 1, id);
      assert TouchesAt(acts, states, n - 1, id);
      assert BeginsAt(acts, states, n - 1, id) <==> Begins(states[n - 1], acts[n - 1], id, true);
      assert EndsAt(acts, n - 1, id) <==> Ends(acts[n - 1], id);
      if id in states[n].running && id in states[n - 1].running {
        var j :| 0 <= j < n - 1 && BeginsAt(acts, states, j, id) && forall i | j < i < n - 1 :: !EndsAt(acts, i, id);
        assert forall i | j < i < n :: !EndsAt(acts, i, id);
      }
    }
  }

  /** What was begun is not begun again. */
  lemma {:induction false} BegunBefore(acts: seq<Action>, states: seq<State>, j: nat, n: nat, id: InvId)
    requires Touched(acts, states, id) && j < n < |states| && BeginsAt(acts, states, j, id)
    ensures ResultsOf(states[n].results, id) + One(id in states[n].running) >= 1
    ensures n < |acts| ==> !BeginsAt(acts, states, n, id)
    decreases n
  {
    assert TouchesAt(acts, states, n - 1, id);
    if j < n - 1 { BegunBefore(acts, states, j, n - 1, id); }
    if n < |acts| { assert TouchesAt(acts, states, n, id); }
  }

  lemma {:induction false} ToldSince(acts: seq<Action>, states: seq<State>, j: nat, n: nat, id: InvId)
    requires Touched(acts, states, id) && j < n < |states| && BeginsAt(acts, states, j, id)
    requires id in states[n].running
    ensures states[n].running[id] <==> exists k :: j < k < n && StopsAt(acts, states, k, id)
    decreases n
  {
    assert TouchesAt(acts, states, n - 1, id);
    if j < n - 1 {
      BegunBefore(acts, states, j, n - 1, id);
      assert !Begins(states[n - 1], acts[n - 1], id, true);
      ToldSince(acts, states, j, n - 1, id);
      assert StopsAt(acts, states, n - 1, id) <==> Stops(states[n - 1], acts[n - 1], id);
    }
  }

  // ---------------------------------------------------------------- what runs and is told to stop

  /** An invocation runs exactly if the host has taken an invoke of it, for a tool that it has, and the
      run has not ended since. */
  lemma {:induction false} RunsExactly(tools: set<string>, acts: seq<Action>, states: seq<State>, n: nat, id: InvId)
    requires Run(tools, acts, states) && n < |states|
    ensures id in states[n].running <==>
              exists j :: 0 <= j < n && BeginsAt(acts, states, j, id) && forall i | j < i < n :: !EndsAt(acts, i, id)
  {
    RunTouches(tools, acts, states, id);
    RunsSince(acts, states, n, id);
  }

  /** A running invocation has been told to stop exactly if, since it was begun, the host has taken a
      cancel of it or the channel was closed. */
  lemma {:induction false} ToldExactly(tools: set<string>, acts: seq<Action>, states: seq<State>, j: nat, n: nat, id: InvId)
    requires Run(tools, acts, states) && j < n < |states| && BeginsAt(acts, states, j, id)
    requires id in states[n].running
    ensures states[n].running[id] <==> exists k :: j < k < n && StopsAt(acts, states, k, id)
  {
    RunTouches(tools, acts, states, id);
    ToldSince(acts, states, j, n, id);
  }

  /** Once told to stop, an invocation stays told for as long as it runs. */
  lemma {:induction false} StaysTold(tools: set<string>, acts: seq<Action>, states: seq<State>, m: nat, n: nat, id: InvId)
    requires Run(tools, acts, states) && m <= n < |states|
    requires id in states[m].running && states[m].running[id] && id in states[n].running
    ensures states[n].running[id]
  {
    RunsExactly(tools, acts, states, m, id);
    var j :| 0 <= j < m && BeginsAt(acts, states, j, id);
    ToldExactly(tools, acts, states, j, m, id);
    ToldExactly(tools, acts, states, j, n, id);
  }

  /** A cancel for an invocation that does not run is taken from its channel and does nothing. */
  lemma {:induction false} LateCancel(s: State, id: InvId)
    requires s.toHost != [] && s.toHost[0] == Cancel(id) && id !in s.running
    ensures Enabled(s, HostTakes) && Do(s, HostTakes) == s.(toHost := s.toHost[1..])
  {
  }

  // ---------------------------------------------------------------- what the client cancels

  ghost predicate Opens(a: Action, id: InvId) {
    a.Start? && a.id == id && a.listens
  }

  ghost predicate Fires(s: State, a: Action, id: InvId) {
    a == Signal(id) && id in s.client.pending
  }

  ghost predicate OpensAt(acts: seq<Action>, k: nat, id: InvId)
    requires k < |acts|
  {
    Opens(acts[k], id)
  }

  ghost predicate FiresAt(acts: seq<Action>, states: seq<State>, k: nat, id: InvId)
    requires k < |acts| < |states|
  {
    Fires(states[k], acts[k], id)
  }

  ghost predicate Opened(acts: seq<Action>, n: nat, id: InvId)
    requires n <= |acts|
  {
    exists i :: 0 <= i < n && OpensAt(acts, i, id)
  }

  /** The signal that the invocation was started with has fired while it was in flight. */
  ghost predicate Fired(acts: seq<Action>, states: seq<State>, n: nat, id: InvId)
    requires n <= |acts| < |states|
  {
    exists k :: 0 <= k < n && FiresAt(acts, states, k, id) && Opened(acts, k, id)
  }

  ghost predicate Signalled(s: State, a: Action, t: State, id: InvId) {
    && (id in s.client.pending ==> id in s.client.accepted) && (id in s.client.accepted ==> id in t.client.accepted)
    && (a.Start? && a.id == id ==> id !in s.client.accepted && id in t.client.accepted)
    && (Listens(t.client, id) <==> Opens(a, id) || (Listens(s.client, id) && id in t.client.pending && !Fires(s, a, id)))
    && (id in t.client.pending ==> id in s.client.pending || (a.Start? && a.id == id))
    && CancelsOf(SentBy(s, a), id) == One(Listens(s.client, id) && Fires(s, a, id))
  }

  lemma {:induction false} StartSignals(s: State, a: Action, id: InvId)
    requires ClientOk(s.client) && a.Start? && Enabled(s, a)
    ensures Signalled(s, a, Do(s, a), id)
  {
    assert SentBy(s, a)[..0] == [];
  }

  lemma {:induction false} SignalSignals(s: State, a: Action, id: InvId)
    requires ClientOk(s.client) && a.Signal? && Enabled(s, a)
    ensures Signalled(s, a, Do(s, a), id)
  {
    if SentBy(s, a) != [] { assert SentBy(s, a)[..0] == []; }
  }

  /** Nothing else starts to listen, or is heard. */
  lemma {:induction false} OthersSignal(s: State, a: Action, id: InvId)
    requires ClientOk(s.client) && !a.Start? && !a.Signal? && Enabled(s, a)
    ensures Signalled(s, a, Do(s, a), id)
  {
    var c, d := s.client, Do(s, a).client;
    assert d.accepted == c.accepted;
    assert id in d.pending ==> id in c.pending && d.pending[id] == c.pending[id];
  }

  lemma {:induction false} StepSignals(s: State, a: Action, id: InvId)
    requires Inv(s) && Enabled(s, a)
    ensures Signalled(s, a, Do(s, a), id)
  {
    if a.Start? { StartSignals(s, a, id); } else if a.Signal? { SignalSignals(s, a, id); } else { OthersSignal(s, a, id); }
  }

  ghost predicate SignalledAt(acts: seq<Action>, states: seq<State>, k: nat, id: InvId)
    requires k < |acts| < |states|
  {
    Signalled(states[k], acts[k], states[k + 1], id)
  }

  ghost predicate AllSignalled(acts: seq<Action>, states: seq<State>, id: InvId) {
    && |states| == |acts| + 1 && id !in states[0].client.pending
    && forall k | 0 <= k < |acts| :: SignalledAt(acts, states, k, id)
  }

  lemma {:induction false} RunSignals(tools: set<string>, acts: seq<Action>, states: seq<State>, id: InvId)
    requires Run(tools, acts, states)
    ensures AllSignalled(acts, states, id)
  {
    forall k | 0 <= k < |acts| ensures SignalledAt(acts, states, k, id) {
      InvAlways(tools, acts, states, k);
      assert Steps(states[k], acts[k], states[k + 1]);
      StepSignals(states[k], acts[k], id);
    }
  }

  lemma {:induction false} FiredMore(acts: seq<Action>, states: seq<State>, n: nat, id: InvId)
    requires n < |acts| < |states|
    ensures Fired(acts, states, n + 1, id) <==> Fired(acts, states, n, id) || (Fires(states[n], acts[n], id) && Opened(acts, n, id))
    ensures Opened(acts, n + 1, id) <==> Opened(acts, n, id) || Opens(acts[n], id)
  {
    assert FiresAt(acts, states, n, id) <==> Fires(states[n], acts[n], id);
    assert OpensAt(acts, n, id) <==> Opens(acts[n], id);
  }

  lemma {:induction false} SignalStep(s: State, a: Action, t: State, id: InvId, sent: nat, began: bool, fired: bool)
    requires Signalled(s, a, t, id) && sent == One(fired)
    requires Listens(s.client, id) <==> began && id in s.client.pending && !fired
    requires began || fired ==> id in s.client.accepted
    ensures var began', fired' := began || Opens(a, id), fired || (Fires(s, a, id) && began);
            && sent + CancelsOf(SentBy(s, a), id) == One(fired')
            && (Listens(t.client, id) <==> began' && id in t.client.pending && !fired')
            && (began' || fired' ==> id in t.client.accepted)
  {
  }

  /** The history of one invocation: how many cancels were sent, whether it began with a signal, and
      whether that has fired. */
  ghost predicate CountAt(acts: seq<Action>, states: seq<State>, id: InvId, sent: seq<nat>, began: seq<bool>, fired: seq<bool>,
                          k: nat)
    requires k < |acts| < |states| && |sent| == |began| == |fired| == |acts| + 1
  {
    && sent[k + 1] == sent[k] + CancelsOf(SentBy(states[k], acts[k]), id)
    && began[k + 1] == (began[k] || Opens(acts[k], id))
    && fired[k + 1] == (fired[k] || (Fires(states[k], acts[k], id) && began[k]))
  }

  ghost predicate Counts(acts: seq<Action>, states: seq<State>, id: InvId, sent: seq<nat>, began: seq<bool>, fired: seq<bool>) {
    && |states| == |sent| == |began| == |fired| == |acts| + 1
    && sent[0] == 0 && !began[0] && !fired[0]
    && forall k | 0 <= k < |acts| :: CountAt(acts, states, id, sent, began, fired, k)
  }

  lemma {:induction false} CountsStay(acts: seq<Action>, states: seq<State>, id: InvId, sent: seq<nat>, began: seq<bool>,
                                      fired: seq<bool>, n: nat)
    requires AllSignalled(acts, states, id) && Counts(acts, states, id, sent, began, fired) && n <= |acts|
    ensures sent[n] == One(fired[n]) && (began[n] || fired[n] ==> id in states[n].client.accepted)
    ensures Listens(states[n].client, id) <==> began[n] && id in states[n].client.pending && !fired[n]
    decreases n
  {
    if n > 0 {
      CountsStay(acts, states, id, sent, began, fired, n - 1);
      assert SignalledAt(acts, states, n - 1, id) && CountAt(acts, states, id, sent, began, fired, n - 1);
      SignalStep(states[n - 1], acts[n - 1], states[n], id, sent[n - 1], began[n - 1], fired[n - 1]);
    }
  }

  lemma {:induction false} SentMore(acts: seq<Action>, states: seq<State>, k: nat, id: InvId)
    requires k < |acts| < |states|
    ensures CancelsOf(SentToHost(acts, states, k + 1), id)
              == CancelsOf(SentToHost(acts, states, k), id) + CancelsOf(SentBy(states[k], acts[k]), id)
  {
    CancelsJoin(SentToHost(acts, states, k), SentBy(states[k], acts[k]), id);
  }

  lemma {:induction false} NoneYet(acts: seq<Action>, states: seq<State>, id: InvId)
    requires |acts| < |states|
    ensures CancelsOf(SentToHost(acts, states, 0), id) == 0 && !Opened(acts, 0, id) && !Fired(acts, states, 0, id)
  {
    assert SentToHost(acts, states, 0) == [];
  }

  ghost function SentSoFar(acts: seq<Action>, states: seq<State>, id: InvId): (q: seq<nat>)
    requires |acts| < |states|
    ensures |q| == |acts| + 1 && forall k | 0 <= k < |q| :: q[k] == CancelsOf(SentToHost(acts, states, k), id)
  {
    seq(|acts| + 1, k requires 0 <= k <= |acts| => CancelsOf(SentToHost(acts, states, k), id))
  }

  ghost function OpenedSoFar(acts: seq<Action>, id: InvId): (q: seq<bool>)
    ensures |q| == |acts| + 1 && forall k | 0 <= k < |q| :: q[k] == Opened(acts, k, id)
  {
    seq(|acts| + 1, k requires 0 <= k <= |acts| => Opened(acts, k, id))
  }

  ghost function FiredSoFar(acts: seq<Action>, states: seq<State>, id: InvId): (q: seq<bool>)
    requires |acts| < |states|
    ensures |q| == |acts| + 1 && forall k | 0 <= k < |q| :: q[k] == Fired(acts, states, k, id)
  {
    seq(|acts| + 1, k requires 0 <= k <= |acts| => Fired(acts, states, k, id))
  }

  lemma {:induction false} SoFarCounts(acts: seq<Action>, states: seq<State>, id: InvId)
    requires |states| == |acts| + 1
    ensures Counts(acts, states, id, SentSoFar(acts, states, id), OpenedSoFar(acts, id), FiredSoFar(acts, states, id))
  {
    NoneYet(acts, states, id);
    var sent, began, fired := SentSoFar(acts, states, id), OpenedSoFar(acts, id), FiredSoFar(acts, states, id);
    forall k | 0 <= k < |acts| ensures CountAt(acts, states, id, sent, began, fired, k) {
      SentMore(acts, states, k, id);
      FiredMore(acts, states, k, id);
    }
  }

  lemma {:induction false} CancelsJoin(q: seq<ToHost>, r: seq<ToHost>, id: InvId)
    requires |r| <= 1
    ensures CancelsOf(q + r, id) == CancelsOf(q, id) + CancelsOf(r, id)
  {
    CancelsMore(q, r, id);
    CancelsMore([], r, id);
    assert [] + r == r;
  }

  /** A cancel of an invocation is sent exactly if the signal it was started with has fired while it was
      in flight, and then once. */
  lemma {:induction false} CancelsExactly(tools: set<string>, acts: seq<Action>, states: seq<State>, n: nat, id: InvId)
    requires Run(tools, acts, states) && n <= |acts|
    ensures CancelsOf(SentToHost(acts, states, n), id) == One(Fired(acts, states, n, id))
  {
    RunSignals(tools, acts, states, id);
    SoFarCounts(acts, states, id);
    CountsStay(acts, states, id, SentSoFar(acts, states, id), OpenedSoFar(acts, id), FiredSoFar(acts, states, id), n);
  }

  // ---------------------------------------------------------------- why it settled

  lemma {:induction false} OutcomeStep(s: State, a: Action, id: InvId)
    requires Enabled(s, a) && id in Do(s, a).outcomes
    ensures (id in s.outcomes && Do(s, a).outcomes[id] == s.outcomes[id]) || Decides(s, a, id, Do(s, a).outcomes[id])
  {
  }

  lemma {:induction false} OutcomeDecided(tools: set<string>, acts: seq<Action>, states: seq<State>, n: nat, id: InvId)
    requires Run(tools, acts, states) && n < |states| && id in states[n].outcomes
    ensures exists k :: 0 <= k < n && DecidesAt(acts, states, k, id, states[n].outcomes[id])
    decreases n
  {
    if n > 0 {
      assert Steps(states[n - 1], acts[n - 1], states[n - 1 + 1]);
      OutcomeStep(states[n - 1], acts[n - 1], id);
      if Decides(states[n - 1], acts[n - 1], id, states[n].outcomes[id]) {
        assert DecidesAt(acts, states, n - 1, id, states[n].outcomes[id]);
      } else {
        OutcomeDecided(tools, acts, states, n - 1, id);
      }
    }
  }

  /** A settlement that a step adds repeats what was decided before, or is that of a close. */
  ghost predicate Adds(s: State, a: Action, x: Settlement) {
    || (x.id in s.outcomes && x.outcome == s.outcomes[x.id])
    || (a.Close? && x.outcome == Failed(a.message))
  }

  lemma {:induction false} SettledStep(s: State, a: Action, i: nat)
    requires Inv(s) && Enabled(s, a) && i < |Do(s, a).client.settled|
    ensures (i < |s.client.settled| && Do(s, a).client.settled[i] == s.client.settled[i]) || Adds(s, a, Do(s, a).client.settled[i])
  {
    var t := Do(s, a);
    match a {
    case ClientTakes =>
      assert FrameOk(s, 0);
      if t.client != s.client && i == |s.client.settled| { assert s.toHarness[0].Result?; }
    case Close(message, after) =>
      if !s.client.closed {
        if i < |s.client.settled| {
          assert after.settled[..|s.client.settled|][i] == s.client.settled[i];
        } else {
          assert after.settled[|s.client.settled|..][i - |s.client.settled|] == t.client.settled[i];
        }
      }
    case _ =>
    }
  }

  /** An invocation settles with what its run reported, with the failure that names the unknown tool, or
      with the failure of the close that cut it off. */
  ghost predicate Reason(acts: seq<Action>, states: seq<State>, k: nat, x: Settlement)
    requires k < |acts| < |states|
  {
    DecidesAt(acts, states, k, x.id, x.outcome) || (acts[k].Close? && x.outcome == Failed(acts[k].message))
  }

  lemma {:induction false} SettledForReason(tools: set<string>, acts: seq<Action>, states: seq<State>, n: nat, i: nat)
    requires Run(tools, acts, states) && n < |states| && i < |states[n].client.settled|
    ensures exists k :: 0 <= k < n && Reason(acts, states, k, states[n].client.settled[i])
    decreases n
  {
    if n > 0 {
      var x := states[n].client.settled[i];
      InvAlways(tools, acts, states, n - 1);
      assert Steps(states[n - 1], acts[n - 1], states[n - 1 + 1]);
      SettledStep(states[n - 1], acts[n - 1], i);
      if i < |states[n - 1].client.settled| && x == states[n - 1].client.settled[i] {
        SettledForReason(tools, acts, states, n - 1, i);
      } else if acts[n - 1].Close? && x.outcome == Failed(acts[n - 1].message) {
        assert Reason(acts, states, n - 1, x);
      } else {
        OutcomeDecided(tools, acts, states, n - 1, x.id);
        var k :| 0 <= k < n - 1 && DecidesAt(acts, states, k, x.id, x.outcome);
        assert Reason(acts, states, k, x);
      }
    }
  }
}
