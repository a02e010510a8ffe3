/**
 Lifecycle scopes and the registry of active runs. A scope finishes when its root is done and all
 the tasks spawned on it have settled; a conversation has at most one registered run.
 */
module Scope {
  import opened Options

  type ScopeId = nat
  type TaskId = nat
  type ConvId = nat
  type WaiterId = nat

  datatype ScopeState = ScopeState(pending: nat, rootSettled: bool, finished: bool, aborted: bool)

  const NEW_SCOPE := ScopeState(0, false, false, false)

  function MaybeFinish(s: ScopeState): ScopeState {
    if !s.finished && s.rootSettled && s.pending == 0 then s.(finished := true) else s
  }

  function Spawned(s: ScopeState): ScopeState {
    s.(pending := s.pending + 1)
  }

  function SettledOne(s: ScopeState): ScopeState
    requires s.pending > 0
  {
    MaybeFinish(s.(pending := s.pending - 1))
  }

  function RootIsDone(s: ScopeState): ScopeState {
    if s.rootSettled then s else MaybeFinish(s.(rootSettled := true))
  }

  /** One scope. A method says whether it called onFinished. */
  class LifecycleScope {
    var pending: nat
    var rootSettled: bool
    var finished: bool
    var aborted: bool

    ghost function State(): ScopeState
      reads this
    {
      ScopeState(pending, rootSettled, finished, aborted)
    }

    constructor ()
      ensures State() == NEW_SCOPE
    {
      pending, rootSettled, finished, aborted := 0, false, false, false;
    }

    method Abort()
      modifies this`aborted
      ensures State() == old(State()).(aborted := true)
    {
      aborted := true;
    }

    method Spawn()
      modifies this`pending
      ensures State() == Spawned(old(State()))
    {
      pending := pending + 1;
    }

    method RootDone() returns (fired: bool)
      modifies this
      ensures State() == RootIsDone(old(State()))
      ensures fired <==> finished && !old(finished)
    {
      if rootSettled { return false; }
      rootSettled := true;
      fired := MaybeFinishNow();
    }

    method SettleOne() returns (fired: bool)
      requires pending > 0
      modifies this
      ensures State() == SettledOne(old(State()))
      ensures fired <==> finished && !old(finished)
    {
      pending := pending - 1;
      fired := MaybeFinishNow();
    }

    method MaybeFinishNow() returns (fired: bool)
      modifies this`finished
      ensures State() == MaybeFinish(old(State()))
      ensures fired <==> finished && !old(finished)
    {
      if finished { return false; }
      if rootSettled && pending == 0 {
        finished := true;
        return true;
      }
      fired := false;
    }
  }

  // ---------------------------------------------------------------- runs of the processor

  /** Scopes with their conversations, unsettled tasks, the registry, steering requests that wait for
      an earlier run to finish, and the finish calls so far. */
  datatype State = State(
    scopes: map<ScopeId, ScopeState>,
    owner: map<ScopeId, ConvId>,
    tasks: map<TaskId, ScopeId>,
    active: map<ConvId, ScopeId>,
    waiting: map<WaiterId, (ConvId, ScopeId)>,
    finishCalls: seq<ScopeId>)

  const INIT := State(map[], map[], map[], map[], map[], [])

  datatype Action =
    | Join(conv: ConvId, scope: ScopeId)
    | Steer(conv: ConvId, scope: ScopeId)
    | SteerWait(conv: ConvId, waiter: WaiterId)
    | SteerOn(waiter: WaiterId, scope: ScopeId)
    | Cancel(conv: ConvId)
    | Spawn(scope: ScopeId, task: TaskId)
    | Settle(task: TaskId)
    | RootDone(scope: ScopeId)

  ghost predicate Enabled(s: State, a: Action) {
    match a
    case Join(_, x) => x !in s.scopes
    case Steer(c, x) => x !in s.scopes && c !in s.active
    case SteerWait(c, w) => c in s.active && s.active[c] in s.scopes && w !in s.waiting
    case SteerOn(w, x) =>
      x !in s.scopes && w in s.waiting && s.waiting[w].1 in s.scopes && s.scopes[s.waiting[w].1].finished
    case Cancel(c) => c in s.active ==> s.active[c] in s.scopes
    case Spawn(x, t) => x in s.scopes && t !in s.tasks
    case Settle(t) => t in s.tasks && s.tasks[t] in s.scopes && s.scopes[s.tasks[t]].pending > 0
    case RootDone(x) => x in s.scopes && x in s.owner
  }

  function Begun(s: State, c: ConvId, x: ScopeId): State {
    s.(scopes := s.scopes[x := NEW_SCOPE], owner := s.owner[x := c])
  }

  /** The scope moves on; if that finishes it, onFinished takes it out of the registry, but leaves
      another run of the conversation alone. */
  function Moved(s: State, x: ScopeId, after: ScopeState): State
    requires x in s.scopes && x in s.owner
  {
    var c, t := s.owner[x], s.(scopes := s.scopes[x := after]);
    if after.finished && !s.scopes[x].finished then
      t.(finishCalls := s.finishCalls + [x],
         active := if c in s.active && s.active[c] == x then s.active - {c} else s.active)
    else t
  }

  function AbortedIn(s: State, c: ConvId): State {
    if c in s.active && s.active[c] in s.scopes then
      s.(scopes := s.scopes[s.active[c] := s.scopes[s.active[c]].(aborted := true)])
    else s
  }

  ghost function Do(s: State, a: Action): State
    requires Enabled(s, a)
  {
    match a
    case Join(c, x) =>
      if c in s.active then Begun(s, c, x) else Begun(s, c, x).(active := s.active[c := x])
    case Steer(c, x) => Begun(s, c, x).(active := s.active[c := x])
    case SteerWait(c, w) => AbortedIn(s, c).(waiting := s.waiting[w := (c, s.active[c])])
    case SteerOn(w, x) =>
      var c := s.waiting[w].0;
      Begun(s, c, x).(active := s.active[c := x], waiting := s.waiting - {w})
    case Cancel(c) => AbortedIn(s, c)
    case Spawn(x, t) => s.(scopes := s.scopes[x := Spawned(s.scopes[x])], tasks := s.tasks[t := x])
    case Settle(t) =>
      var x := s.tasks[t];
      if x in s.owner then Moved(s.(tasks := s.tasks - {t}), x, SettledOne(s.scopes[x])) else s
    case RootDone(x) => Moved(s, x, RootIsDone(s.scopes[x]))
  }

  ghost predicate Steps(s: State, a: Action, t: State) {
    Enabled(s, a) && t == Do(s, a)
  }

  ghost predicate Run(acts: seq<Action>, states: seq<State>) {
    && |states| == |acts| + 1 && states[0] == INIT
    && forall i | 0 <= i < |acts| :: Steps(states[i], acts[i], states[i + 1])
  }

  // ---------------------------------------------------------------- the invariant

  function TasksOf(tasks: map<TaskId, ScopeId>, x: ScopeId): set<TaskId> {
    set t | t in tasks && tasks[t] == x
  }

  ghost predicate ScopeOk(s: State, x: ScopeId)
    requires x in s.scopes
  {
    var sc := s.scopes[x];
    && x in s.owner && sc.pending == |TasksOf(s.tasks, x)|
    && (sc.finished ==> sc.rootSettled) && (sc.rootSettled && sc.pending == 0 ==> sc.finished)
    && (sc.finished <==> x in s.finishCalls)
  }

  ghost predicate ActiveOk(s: State, c: ConvId)
    requires c in s.active
  {
    var x := s.active[c];
    x in s.scopes && x in s.owner && s.owner[x] == c && !s.scopes[x].finished
  }

  ghost predicate NoRepeat(q: seq<ScopeId>) {
    forall i, j | 0 <= i < j < |q| :: q[i] != q[j]
  }

  ghost predicate Inv(s: State) {
    && (forall x | x in s.scopes :: ScopeOk(s, x))
    && (forall c | c in s.active :: ActiveOk(s, c))
    && (forall x | x in s.finishCalls :: x in s.scopes)
    && (forall t | t in s.tasks :: s.tasks[t] in s.scopes)
    && (forall w | w in s.waiting :: s.waiting[w].1 in s.scopes)
    && NoRepeat(s.finishCalls)
  }

  lemma {:induction false} TaskAdded(tasks: map<TaskId, ScopeId>, t: TaskId, x: ScopeId, y: ScopeId)
    requires t !in tasks
    ensures |TasksOf(tasks[t := x], y)| == |TasksOf(tasks, y)| + (if x == y then 1 else 0)
  {
    if x == y {
      assert TasksOf(tasks[t := x], y) == TasksOf(tasks, y) + {t};
    } else {
      assert TasksOf(tasks[t := x], y) == TasksOf(tasks, y);
    }
  }

  lemma {:induction false} TaskRemoved(tasks: map<TaskId, ScopeId>, t: TaskId, y: ScopeId)
    requires t in tasks
    ensures |TasksOf(tasks - {t}, y)| == |TasksOf(tasks, y)| - (if tasks[t] == y then 1 else 0)
  {
    if tasks[t] == y {
      assert TasksOf(tasks - {t}, y) == TasksOf(tasks, y) - {t};
    } else {
      assert TasksOf(tasks - {t}, y) == TasksOf(tasks, y);
    }
  }

  lemma {:induction false} NoTasks(tasks: map<TaskId, ScopeId>, x: ScopeId)
    requires forall t | t in tasks :: tasks[t] != x
    ensures |TasksOf(tasks, x)| == 0
  {
    assert TasksOf(tasks, x) == {};
  }

  /** A scope that has begun. */
  lemma {:induction false} BegunKeeps(s: State, a: Action)
    requires Inv(s) && (a.Join? || a.Steer? || a.SteerOn?) && Enabled(s, a)
    ensures Inv(Do(s, a))
  {
    var t := Do(s, a);
    NoTasks(s.tasks, a.scope);
    forall x | x in t.scopes ensures ScopeOk(t, x) {
      if x in s.scopes { assert ScopeOk(s, x); }
    }
    forall c | c in t.active ensures ActiveOk(t, c) {
      if c in s.active { assert ActiveOk(s, c); }
    }
  }

  lemma {:induction false} AbortKeeps(s: State, a: Action)
    requires Inv(s) && (a.SteerWait? || a.Cancel?) && Enabled(s, a)
    ensures Inv(Do(s, a))
  {
    var t := Do(s, a);
    forall x | x in t.scopes ensures ScopeOk(t, x) { assert ScopeOk(s, x); }
    forall c | c in t.active ensures ActiveOk(t, c) { assert ActiveOk(s, c); }
  }

  lemma {:induction false} SpawnKeeps(s: State, a: Action)
    requires Inv(s) && a.Spawn? && Enabled(s, a)
    ensures Inv(Do(s, a))
  {
    var t := Do(s, a);
    forall x | x in t.scopes ensures ScopeOk(t, x) {
      assert ScopeOk(s, x);
      TaskAdded(s.tasks, a.task, a.scope, x);
    }
    forall c | c in t.active ensures ActiveOk(t, c) { assert ActiveOk(s, c); }
  }

  /** What a scope may become: its count is that of its tasks, and it has finished if it can. */
  ghost predicate MayBecome(sc: ScopeState, after: ScopeState, tasks: nat) {
    && after.pending == tasks && (sc.finished ==> after.finished)
    && (after.finished ==> after.rootSettled) && (after.rootSettled && after.pending == 0 ==> after.finished)
  }

  lemma {:induction false} InMore(q: seq<ScopeId>, x: ScopeId, y: ScopeId)
    ensures y in q + [x] <==> y in q || y == x
  {
  }

  lemma {:induction false} MovedKeeps(s: State, tasks: map<TaskId, ScopeId>, x: ScopeId, after: ScopeState)
    requires Inv(s) && x in s.scopes && MayBecome(s.scopes[x], after, |TasksOf(tasks, x)|)
    requires forall y | y != x :: |TasksOf(tasks, y)| == |TasksOf(s.tasks, y)|
    requires forall t | t in tasks :: t in s.tasks && tasks[t] == s.tasks[t]
    ensures x in s.owner && Inv(Moved(s.(tasks := tasks), x, after))
  {
    assert ScopeOk(s, x);
    var t := Moved(s.(tasks := tasks), x, after);
    forall y ensures y in t.finishCalls <==> y in s.finishCalls || (y == x && after.finished && !s.scopes[x].finished) {
      InMore(s.finishCalls, x, y);
    }
    forall y | y in t.scopes ensures ScopeOk(t, y) {
      assert ScopeOk(s, y);
    }
    forall c | c in t.active ensures ActiveOk(t, c) { assert ActiveOk(s, c); }
  }

  lemma {:induction false} SettleKeeps(s: State, a: Action)
    requires Inv(s) && a.Settle? && Enabled(s, a)
    ensures Inv(Do(s, a))
  {
    var x, tasks := s.tasks[a.task], s.tasks - {a.task};
    assert ScopeOk(s, x);
    forall y ensures |TasksOf(tasks, y)| == |TasksOf(s.tasks, y)| - (if x == y then 1 else 0) {
      TaskRemoved(s.tasks, a.task, y);
    }
    MovedKeeps(s, tasks, x, SettledOne(s.scopes[x]));
  }

  lemma {:induction false} InvStep(s: State, a: Action)
    requires Inv(s) && Enabled(s, a)
    ensures Inv(Do(s, a))
  {
    match a
    case Join(_, _) => BegunKeeps(s, a);
    case Steer(_, _) => BegunKeeps(s, a);
    case SteerWait(_, _) => AbortKeeps(s, a);
    case SteerOn(_, _) => BegunKeeps(s, a);
    case Cancel(_) => AbortKeeps(s, a);
    case Spawn(_, _) => SpawnKeeps(s, a);
    case Settle(_) => SettleKeeps(s, a);
    case RootDone(x) =>
      assert ScopeOk(s, x);
      MovedKeeps(s, s.tasks, x, RootIsDone(s.scopes[x]));
  }

  lemma {:induction false} InvAlways(acts: seq<Action>, states: seq<State>, n: nat)
    requires Run(acts, states) && n < |states|
    ensures Inv(states[n])
    decreases n
  {
    if n > 0 {
      InvAlways(acts, states, n - 1);
      assert Steps(states[n - 1], acts[n - 1], states[n - 1 + 1]);
      InvStep(states[n - 1], acts[n - 1]);
    }
  }

  // ---------------------------------------------------------------- results

  /** Over every run, no scope finishes twice; a scope whose root is done and whose tasks have all
      settled has finished; and a registered scope never has. */
  lemma {:induction false} FinishesOnce(acts: seq<Action>, states: seq<State>, n: nat)
    requires Run(acts, states) && n < |states|
    ensures NoRepeat(states[n].finishCalls)
    ensures forall x | x in states[n].scopes && states[n].scopes[x].rootSettled && TasksOf(states[n].tasks, x) == {} ::
              x in states[n].finishCalls
    ensures forall c | c in states[n].active :: states[n].active[c] in states[n].scopes && states[n].active[c] !in states[n].finishCalls
  {
    InvAlways(acts, states, n);
    var s := states[n];
    forall x | x in s.scopes && s.scopes[x].rootSettled && TasksOf(s.tasks, x) == {} ensures x in s.finishCalls {
      assert ScopeOk(s, x);
    }
    forall c | c in s.active ensures s.active[c] in s.scopes && s.active[c] !in s.finishCalls {
      assert ActiveOk(s, c) && ScopeOk(s, s.active[c]);
    }
  }

  /** At the moment a scope finishes, its root is done and nothing spawned on it is unsettled. */
  lemma {:induction false} FinishesIdle(acts: seq<Action>, states: seq<State>, n: nat, x: ScopeId)
    requires Run(acts, states) && n < |acts| && x in states[n + 1].finishCalls && x !in states[n].finishCalls
    ensures x in states[n + 1].scopes && states[n + 1].scopes[x].rootSettled && TasksOf(states[n + 1].tasks, x) == {}
  {
    InvAlways(acts, states, n);
    InvAlways(acts, states, n + 1);
    var s, t := states[n], states[n + 1];
    assert Steps(s, acts[n], t);
    assert ScopeOk(t, x);
    if x in s.scopes { assert ScopeOk(s, x); }
  }

  /** A steering request goes on only after the run it waited for has left the registry. */
  lemma {:induction false} WaitIsOver(acts: seq<Action>, states: seq<State>, n: nat)
    requires Run(acts, states) && n < |acts| && acts[n].SteerOn?
    ensures acts[n].waiter in states[n].waiting
    ensures forall c | c in states[n].active :: states[n].active[c] != states[n].waiting[acts[n].waiter].1
  {
    InvAlways(acts, states, n);
    var s := states[n];
    assert Steps(s, acts[n], states[n + 1]);
    forall c | c in s.active ensures s.active[c] != s.waiting[acts[n].waiter].1 {
      assert ActiveOk(s, c);
    }
  }

  // ---------------------------------------------------------------- the processor

  /** The registry as the processor changes it. Scopes are handles into its table of scopes. */
  class ConversationProcessor {
    var scopes: map<ScopeId, ScopeState>
    var owner: map<ScopeId, ConvId>
    var tasks: map<TaskId, ScopeId>
    var activeExecutions: map<ConvId, ScopeId>
    var waiting: map<WaiterId, (ConvId, ScopeId)>
    var finishCalls: seq<ScopeId>

    ghost function Now(): State
      reads this
    {
      State(scopes, owner, tasks, activeExecutions, waiting, finishCalls)
    }

    constructor ()
      ensures Now() == INIT
    {
      scopes, owner, tasks, activeExecutions, waiting, finishCalls := map[], map[], map[], map[], map[], [];
    }

    /** A joining run leaves an active one registered; any other aborts it and has to wait for it. */
    method BeginRun(c: ConvId, joinActive: bool, scope: ScopeId, waiter: WaiterId) returns (begun: bool)
      requires Inv(Now()) && scope !in scopes && waiter !in waiting
      modifies this
      ensures begun <==> joinActive || c !in old(activeExecutions)
      ensures Steps(old(Now()),
                    if joinActive then Join(c, scope) else if begun then Steer(c, scope) else SteerWait(c, waiter), Now())
      ensures Inv(Now())
    {
      ghost var a := if joinActive then Join(c, scope)
                     else if c !in activeExecutions then Steer(c, scope) else SteerWait(c, waiter);
      assert c in activeExecutions ==> ActiveOk(Now(), c);
      InvStep(Now(), a);
      if c in activeExecutions && !joinActive {
        var prev := activeExecutions[c];
        scopes := scopes[prev := scopes[prev].(aborted := true)];
        waiting := waiting[waiter := (c, prev)];
        return false;
      }
      scopes, owner := scopes[scope := NEW_SCOPE], owner[scope := c];
      if !(joinActive && c in activeExecutions) {
        activeExecutions := activeExecutions[c := scope];
      }
      begun := true;
    }

    /** The wait of a steering run is over. */
    method ResumeRun(waiter: WaiterId, scope: ScopeId)
      requires Inv(Now()) && Enabled(Now(), SteerOn(waiter, scope))
      modifies this
      ensures Steps(old(Now()), SteerOn(waiter, scope), Now()) && Inv(Now())
    {
      InvStep(Now(), SteerOn(waiter, scope));
      var c := waiting[waiter].0;
      scopes, owner := scopes[scope := NEW_SCOPE], owner[scope := c];
      activeExecutions := activeExecutions[c := scope];
      waiting := waiting - {waiter};
    }

    method CancelProcessing(c: ConvId) returns (n: nat)
      requires Inv(Now())
      modifies this`scopes
      ensures Steps(old(Now()), Cancel(c), Now()) && Inv(Now()) && n == if c in activeExecutions then 1 else 0
    {
      assert c in activeExecutions ==> ActiveOk(Now(), c);
      InvStep(Now(), Cancel(c));
      if c !in activeExecutions { return 0; }
      scopes := scopes[activeExecutions[c] := scopes[activeExecutions[c]].(aborted := true)];
      n := 1;
    }

    /** A conversation that is processing has a scope that has not finished. */
    method IsProcessing(c: ConvId) returns (processing: bool)
      requires Inv(Now())
      ensures processing <==> c in activeExecutions
      ensures processing ==> activeExecutions[c] in scopes && !scopes[activeExecutions[c]].finished
    {
      processing := c in activeExecutions;
      assert processing ==> ActiveOk(Now(), c);
    }

    /** onFinished: the scope leaves the registry, unless another run has taken its place. */
    method OnFinished(x: ScopeId)
      requires x in owner
      modifies this`activeExecutions, this`finishCalls
      ensures finishCalls == old(finishCalls) + [x]
      ensures activeExecutions == if owner[x] in old(activeExecutions) && old(activeExecutions)[owner[x]] == x
                                  then old(activeExecutions) - {owner[x]} else old(activeExecutions)
    {
      finishCalls := finishCalls + [x];
      if owner[x] in activeExecutions && activeExecutions[owner[x]] == x {
        activeExecutions := activeExecutions - {owner[x]};
      }
    }

    /** A scope's root is done. */
    method CloseRoot(x: ScopeId)
      requires Inv(Now()) && x in scopes
      modifies this
      ensures Steps(old(Now()), RootDone(x), Now()) && Inv(Now())
    {
      assert ScopeOk(Now(), x);
      InvStep(Now(), RootDone(x));
      var was := scopes[x];
      var after := RootIsDone(was);
      scopes := scopes[x := after];
      if after.finished && !was.finished { OnFinished(x); }
    }

    /** A task of a scope has settled. */
    method SettleTask(t: TaskId)
      requires Inv(Now()) && Enabled(Now(), Settle(t))
      modifies this
      ensures Steps(old(Now()), Settle(t), Now()) && Inv(Now())
    {
      var x := tasks[t];
      assert ScopeOk(Now(), x);
      InvStep(Now(), Settle(t));
      var was := scopes[x];
      var after := SettledOne(was);
      tasks, scopes := tasks - {t}, scopes[x := after];
      if after.finished && !was.finished { OnFinished(x); }
    }
  }
}
