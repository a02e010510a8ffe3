/**
 What the registry of active runs holds over a whole run of the processor: which scope is registered,
 which are aborted, and which tasks a scope still waits for, each told from the actions so far.
 */
module ScopeRuns {
  import opened Options
  import opened Scope

  // ---------------------------------------------------------------- what happens at a step

  /** The run that a step registers: a run that begins on an idle conversation, or one that has waited. */
  ghost function Registered(s: State, a: Action): Option<(ConvId, ScopeId)> {
    match a
    case Join(c, x) => if c in s.active then None else Some((c, x))
    case Steer(c, x) => Some((c, x))
    case SteerOn(w, x) => if w in s.waiting then Some((s.waiting[w].0, x)) else None
    case _ => None
  }

  /** A cancel, or a steering request, hits the run that is registered. */
  ghost predicate Hits(s: State, a: Action, x: ScopeId) {
    (a.Cancel? || a.SteerWait?) && a.conv in s.active && s.active[a.conv] == x
  }

  ghost predicate RegistersAt(acts: seq<Action>, states: seq<State>, k: nat, c: ConvId, x: ScopeId)
    requires k < |acts| < |states|
  {
    Registered(states[k], acts[k]) == Some((c, x))
  }

  /** No step after j, up to n, registers another run of the conversation. */
  ghost predicate NoneSince(acts: seq<Action>, states: seq<State>, c: ConvId, j: nat, n: nat)
    requires n <= |acts| < |states|
  {
    forall i, y | j < i < n :: !RegistersAt(acts, states, i, c, y)
  }

  ghost predicate HitsAt(acts: seq<Action>, states: seq<State>, k: nat, x: ScopeId)
    requires k < |acts| < |states|
  {
    Hits(states[k], acts[k], x)
  }

  ghost predicate SpawnsAt(acts: seq<Action>, k: nat, x: ScopeId, t: TaskId)
    requires k < |acts|
  {
    acts[k] == Spawn(x, t)
  }

  ghost predicate SettlesAt(acts: seq<Action>, k: nat, t: TaskId)
    requires k < |acts|
  {
    acts[k] == Settle(t)
  }

  ghost predicate ClosesAt(acts: seq<Action>, k: nat, x: ScopeId)
    requires k < |acts|
  {
    acts[k] == RootDone(x)
  }

  ghost predicate WaitsAt(acts: seq<Action>, states: seq<State>, k: nat, w: WaiterId, c: ConvId, x: ScopeId)
    requires k < |acts| < |states|
  {
    acts[k] == SteerWait(c, w) && c in states[k].active && states[k].active[c] == x
  }

  // ---------------------------------------------------------------- one step

  /** A run stays registered until it finishes or another one is registered. */
  ghost predicate RegistryMoves(s: State, a: Action, t: State, c: ConvId) {
    && (if Registered(s, a).Some? && Registered(s, a).value.0 == c then
          c in t.active && t.active[c] == Registered(s, a).value.1 && t.active[c] !in t.finishCalls
        else if c in s.active && s.active[c] !in t.finishCalls then c in t.active && t.active[c] == s.active[c]
        else c !in t.active)
    && (forall x | x in s.finishCalls :: x in t.finishCalls)
  }

  ghost predicate Aborted(s: State, x: ScopeId) {
    x in s.scopes && s.scopes[x].aborted
  }

  ghost predicate RootDoneIn(s: State, x: ScopeId) {
    x in s.scopes && s.scopes[x].rootSettled
  }

  ghost predicate TaskMoves(s: State, a: Action, t: State, k: TaskId) {
    && (a == Settle(k) ==> k in s.tasks && k !in t.tasks)
    && (forall x :: a == Spawn(x, k) ==> k !in s.tasks && k in t.tasks && t.tasks[k] == x)
    && (a != Settle(k) && !(a.Spawn? && a.task == k) ==>
          (k in t.tasks <==> k in s.tasks) && (k in t.tasks ==> t.tasks[k] == s.tasks[k]))
  }

  lemma {:induction false} RegistryStep(s: State, a: Action, c: ConvId)
    requires Inv(s) && Enabled(s, a)
    ensures RegistryMoves(s, a, Do(s, a), c)
  {
    if c in s.active { assert ActiveOk(s, c) && ScopeOk(s, s.active[c]); }
    if a.Settle? { assert ScopeOk(s, s.tasks[a.task]); }
  }

  lemma {:induction false} AbortStep(s: State, a: Action, x: ScopeId)
    requires Enabled(s, a) && forall c | c in s.active :: s.active[c] in s.scopes
    ensures Aborted(Do(s, a), x) <==> Aborted(s, x) || Hits(s, a, x)
  {
  }

  lemma {:induction false} RootStep(s: State, a: Action, x: ScopeId)
    requires Enabled(s, a)
    ensures RootDoneIn(Do(s, a), x) <==> RootDoneIn(s, x) || a == RootDone(x)
  {
  }

  lemma {:induction false} TaskStep(s: State, a: Action, k: TaskId)
    requires Enabled(s, a) && forall t | t in s.tasks :: s.tasks[t] in s.owner
    ensures TaskMoves(s, a, Do(s, a), k)
  {
  }

  // ---------------------------------------------------------------- over a run

  ghost predicate MovesAt(acts: seq<Action>, states: seq<State>, k: nat, c: ConvId, x: ScopeId, task: TaskId)
    requires k < |acts| < |states|
  {
    var s, a, t := states[k], acts[k], states[k + 1];
    && RegistryMoves(s, a, t, c) && TaskMoves(s, a, t, task)
    && (Aborted(t, x) <==> Aborted(s, x) || Hits(s, a, x))
    && (RootDoneIn(t, x) <==> RootDoneIn(s, x) || a == RootDone(x))
  }

  ghost predicate Moves(acts: seq<Action>, states: seq<State>, c: ConvId, x: ScopeId, task: TaskId) {
    && |states| == |acts| + 1 && states[0] == INIT
    && forall k | 0 <= k < |acts| :: MovesAt(acts, states, k, c, x, task)
  }

  lemma {:induction false} MovesThere(s: State, a: Action, c: ConvId, x: ScopeId, task: TaskId)
    requires Inv(s) && Enabled(s, a)
    ensures var t := Do(s, a);
            && RegistryMoves(s, a, t, c) && TaskMoves(s, a, t, task)
            && (Aborted(t, x) <==> Aborted(s, x) || Hits(s, a, x))
            && (RootDoneIn(t, x) <==> RootDoneIn(s, x) || a == RootDone(x))
  {
    forall d | d in s.active ensures s.active[d] in s.scopes { assert ActiveOk(s, d); }
    forall k | k in s.tasks ensures s.tasks[k] in s.owner { assert ScopeOk(s, s.tasks[k]); }
    RegistryStep(s, a, c);
    TaskStep(s, a, task);
    AbortStep(s, a, x);
    RootStep(s, a, x);
  }

  lemma {:induction false} RunMoves(acts: seq<Action>, states: seq<State>, c: ConvId, x: ScopeId, task: TaskId)
    requires Run(acts, states)
    ensures Moves(acts, states, c, x, task)
  {
    forall k | 0 <= k < |acts| ensures MovesAt(acts, states, k, c, x, task) {
      InvAlways(acts, states, k);
      assert Steps(states[k], acts[k], states[k + 1]);
      MovesThere(states[k], acts[k], c, x, task);
    }
  }

  lemma {:induction false} RegisteredSince(acts: seq<Action>, states: seq<State>, n: nat, c: ConvId, x: ScopeId, task: TaskId)
    requires Moves(acts, states, c, x, task) && n < |states|
    ensures (c in states[n].active && states[n].active[c] == x) <==>
              x !in states[n].finishCalls
              && exists j :: 0 <= j < n && RegistersAt(acts, states, j, c, x) && NoneSince(acts, states, c, j, n)
    decreases n
  {
    if n > 0 {
      RegisteredSince(acts, states, n - 1, c, x, task);
      assert MovesAt(acts, states, n - 1, c, x, task);
      var now := Registered(states[n - 1], acts[n - 1]);
      if now.Some? && now.value.0 == c {
        assert RegistersAt(acts, states, n - 1, c, now.value.1);
        assert forall j | 0 <= j < n - 1 :: !NoneSince(acts, states, c, j, n);
      } else {
        assert forall j | 0 <= j < n - 1 :: NoneSince(acts, states, c, j, n) <==> NoneSince(acts, states, c, j, n - 1);
      }
    }
  }

  lemma {:induction false} HitBefore(acts: seq<Action>, states: seq<State>, n: nat, c: ConvId, x: ScopeId, task: TaskId)
    requires Moves(acts, states, c, x, task) && n < |states|
    ensures Aborted(states[n], x) <==> exists k :: 0 <= k < n && HitsAt(acts, states, k, x)
    ensures RootDoneIn(states[n], x) <==> exists k :: 0 <= k < n && ClosesAt(acts, k, x)
    decreases n
  {
    if n > 0 {
      HitBefore(acts, states, n - 1, c, x, task);
      assert MovesAt(acts, states, n - 1, c, x, task);
      assert HitsAt(acts, states, n - 1, x) <==> Hits(states[n - 1], acts[n - 1], x);
      assert ClosesAt(acts, n - 1, x) <==> acts[n - 1] == RootDone(x);
    }
  }

  lemma {:induction false} SpawnedSince(acts: seq<Action>, states: seq<State>, n: nat, c: ConvId, x: ScopeId, task: TaskId)
    requires Moves(acts, states, c, x, task) && n < |states|
    ensures task in TasksOf(states[n].tasks, x) <==>
              exists j :: 0 <= j < n && SpawnsAt(acts, j, x, task) && forall i | j < i < n :: !SettlesAt(acts, i, task)
    decreases n
  {
    if n > 0 {
      SpawnedSince(acts, states, n - 1, c, x, task);
      assert MovesAt(acts, states, n - 1, c, x, task);
      assert SpawnsAt(acts, n - 1, x, task) <==> acts[n - 1] == Spawn(x, task);
      assert SettlesAt(acts, n - 1, task) <==> acts[n - 1] == Settle(task);
    }
  }

  // ---------------------------------------------------------------- results

  /** The registered run of a conversation is the one registered last, and for exactly as long as it has
      not finished. */
  lemma {:induction false} RegisteredExactly(acts: seq<Action>, states: seq<State>, n: nat, c: ConvId, x: ScopeId)
    requires Run(acts, states) && n < |states|
    ensures (c in states[n].active && states[n].active[c] == x) <==>
              x !in states[n].finishCalls
              && exists j :: 0 <= j < n && RegistersAt(acts, states, j, c, x) && NoneSince(acts, states, c, j, n)
  {
    RunMoves(acts, states, c, x, 0);
    RegisteredSince(acts, states, n, c, x, 0);
  }

  /** A run is aborted exactly if, while it was registered, its conversation was cancelled or steered;
      and its root is done exactly if it was closed. */
  lemma {:induction false} AbortedExactly(acts: seq<Action>, states: seq<State>, n: nat, x: ScopeId)
    requires Run(acts, states) && n < |states|
    ensures Aborted(states[n], x) <==> exists k :: 0 <= k < n && HitsAt(acts, states, k, x)
    ensures RootDoneIn(states[n], x) <==> exists k :: 0 <= k < n && ClosesAt(acts, k, x)
  {
    RunMoves(acts, states, 0, x, 0);
    HitBefore(acts, states, n, 0, x, 0);
  }

  /** A scope waits exactly for the tasks that were spawned on it and have not settled since. */
  lemma {:induction false} TasksExactly(acts: seq<Action>, states: seq<State>, n: nat, x: ScopeId, task: TaskId)
    requires Run(acts, states) && n < |states|
    ensures task in TasksOf(states[n].tasks, x) <==>
              exists j :: 0 <= j < n && SpawnsAt(acts, j, x, task) && forall i | j < i < n :: !SettlesAt(acts, i, task)
  {
    RunMoves(acts, states, 0, x, task);
    SpawnedSince(acts, states, n, 0, x, task);
  }

  lemma {:induction false} WaitStep(s: State, a: Action, w: WaiterId)
    requires Enabled(s, a) && w in Do(s, a).waiting
    ensures var now := Do(s, a).waiting[w];
            || (w in s.waiting && s.waiting[w] == now)
            || (a == SteerWait(now.0, w) && now.0 in s.active && s.active[now.0] == now.1)
  {
  }

  ghost predicate StopsWaiting(acts: seq<Action>, k: nat, w: WaiterId)
    requires k < |acts|
  {
    acts[k].SteerOn? && acts[k].waiter == w
  }

  ghost predicate ComesToWait(acts: seq<Action>, k: nat, w: WaiterId)
    requires k < |acts|
  {
    acts[k].SteerWait? && acts[k].waiter == w
  }

  lemma {:induction false} WaitingStep(s: State, a: Action, w: WaiterId)
    requires Enabled(s, a)
    ensures w in Do(s, a).waiting <==>
              (a.SteerWait? && a.waiter == w) || (w in s.waiting && !(a.SteerOn? && a.waiter == w))
  {
  }

  lemma {:induction false} WaitingAt(acts: seq<Action>, states: seq<State>, n: nat, w: WaiterId)
    requires Run(acts, states) && n < |acts|
    ensures w in states[n + 1].waiting <==> ComesToWait(acts, n, w) || (w in states[n].waiting && !StopsWaiting(acts, n, w))
  {
    assert Steps(states[n], acts[n], states[n + 1]);
    WaitingStep(states[n], acts[n], w);
  }

  /** A steering request waits exactly from when it met an active run until it goes on. */
  lemma {:induction false} WaitsExactly(acts: seq<Action>, states: seq<State>, n: nat, w: WaiterId)
    requires Run(acts, states) && n <= |acts|
    ensures w in states[n].waiting <==>
              exists k :: 0 <= k < n && ComesToWait(acts, k, w) && forall i | k < i < n :: !StopsWaiting(acts, i, w)
    decreases n
  {
    if n > 0 {
      WaitsExactly(acts, states, n - 1, w);
      WaitingAt(acts, states, n - 1, w);
    }
  }

  lemma {:induction false} WaitWhence(acts: seq<Action>, states: seq<State>, n: nat, w: WaiterId) returns (k: nat)
    requires Run(acts, states) && n < |states| && w in states[n].waiting
    ensures k < n && WaitsAt(acts, states, k, w, states[n].waiting[w].0, states[n].waiting[w].1)
    decreases n
  {
    k := n - 1;
    assert Steps(states[n - 1], acts[n - 1], states[n - 1 + 1]);
    WaitStep(states[n - 1], acts[n - 1], w);
    if w in states[n - 1].waiting && states[n - 1].waiting[w] == states[n].waiting[w] {
      k := WaitWhence(acts, states, n - 1, w);
    }
  }

  /** A steering request waits for the run that was registered when it came, and has aborted it. */
  lemma {:induction false} WaitsForAborted(acts: seq<Action>, states: seq<State>, n: nat, w: WaiterId)
    requires Run(acts, states) && n < |states| && w in states[n].waiting
    ensures exists k :: 0 <= k < n && WaitsAt(acts, states, k, w, states[n].waiting[w].0, states[n].waiting[w].1)
    ensures Aborted(states[n], states[n].waiting[w].1)
  {
    var k := WaitWhence(acts, states, n, w);
    AbortedExactly(acts, states, n, states[n].waiting[w].1);
    assert HitsAt(acts, states, k, states[n].waiting[w].1);
  }
}
