/** Runs of the fan-in: one that continues, and three that end stranded. */
module FanInExamples {
  import opened Options
  import opened Entries
  import opened Forest
  import opened Batches
  import opened FanIn
  import opened FanInInvariant
  import opened FanInSafety
  import opened FanInLiveness
  import opened FanInResults
  import opened Runs

  const STAMPED: Params := map[STAMP := BatchRef(Batch(0, 1))]
  const THOUGHT := Thought(Planner, Usage(None, None, None, None))
  const ROOT := Row(0, None, false, THOUGHT)
  const CALL := ToolInvocation("tool", Resolving, false, STAMPED)
  const FAILED := ToolInvocation("tool", Error, false, STAMPED)
  const BATCH := Some(Batch(0, 1))
  const FAIL := ToolPatch(Some(Error), Some(false), Some(STAMPED))

  function Member(p: Payload): Row {
    Row(1, Some(0), false, p)
  }

  function Running(phase: Phase): map<FlowId, Flow> {
    map[0 := Flow(1, BATCH, true, false, 0, phase)]
  }

  const DISPATCHED: map<nat, Dispatch> := map[0 := Dispatch(1, true, 0, [1])]
  const CHECK := Check(1, BATCH, false, 0)

  // ---------------------------------------------------------------- a member fails

  const DISPATCHING := [Foreign(0, ROOT), Begin(0, 1, true, 0), AppendMember(0, 1, 1, "tool", map[])]

  function Dispatching(): seq<State> {
    var none: map<nat, Dispatch> := map[];
    [INIT,
     INIT.(rows := map[0 := ROOT], foreign := {0}),
     INIT.(rows := map[0 := ROOT], foreign := {0}, batches := map[0 := Dispatch(1, true, 0, [])]),
     Ready()]
  }

  /** The batch has been dispatched. */
  function Ready(): State {
    INIT.(rows := map[0 := ROOT, 1 := Member(CALL)], foreign := {0}, batches := DISPATCHED)
  }

  const FAILING := [StartMember(0, 1, 0), Fetch(0, FAIL, ThenSettled), Write(0)]

  function Failing(): seq<State> {
    [Ready(),
     Ready().(started := {1}, flows := Running(Preparing)),
     Ready().(started := {1}, flows := Running(Writing(FAIL, CALL, ThenSettled))),
     Failed()]
  }

  /** Its only member has failed, and its flow has yet to ask for the check. */
  function Failed(): State {
    Ready().(started := {1}, flows := Running(Settled), rows := map[0 := ROOT, 1 := Member(FAILED)])
  }

  lemma {:induction false} DispatchingPath()
    ensures Path(Steps, DISPATCHING, Dispatching())
  {
    var q := Dispatching();
    assert Steps(q[0], DISPATCHING[0], q[1]);
    assert Steps(q[1], DISPATCHING[1], q[2]);
    assert MemberRow(q[2].batches[0], 0, 1, "tool", map[]) == Member(CALL);
    assert 0 in q[2].rows && q[2].rows[0].index == 0;
    assert IsNextIndex(q[2].rows, 1);
    assert Fresh(q[2].rows, 1);
    assert q[2].batches[0].members + [1] == [1];
    assert q[2].batches[0 := Dispatch(1, true, 0, [1])] == DISPATCHED;
    assert Steps(q[2], DISPATCHING[2], q[3]);
  }

  lemma {:induction false} FailRewrites()
    ensures Rewrites(BATCH, Some(STAMPED))
  {
    assert Some(STAMPED) == Some(ToParametersPayload(Some(map[]), OtherValue(0), None, None, BATCH));
  }

  lemma {:induction false} FailingWrite()
    ensures Steps(Failing()[2], Write(0), Failed())
  {
    assert Merged(CALL, FAIL) == FAILED;
  }

  lemma {:induction false} FailingPath()
    ensures Path(Steps, FAILING, Failing())
  {
    var q := Failing();
    FailRewrites();
    assert StampOf(CALL) == BATCH;
    assert Steps(q[0], FAILING[0], q[1]);
    assert Steps(q[1], FAILING[1], q[2]);
    FailingWrite();
  }

  /** A run up to the failed member. */
  lemma {:induction false} FailedRun()
    ensures Run(DISPATCHING + FAILING, Dispatching() + Failing()[1..])
    ensures (Dispatching() + Failing()[1..])[|DISPATCHING + FAILING|] == Failed()
  {
    DispatchingPath();
    FailingPath();
    PathJoin(Steps, DISPATCHING, Dispatching(), FAILING, Failing());
  }

  // ---------------------------------------------------------------- stranded

  /** The run comes to a state in which batch b is stranded. */
  ghost predicate EndsStranded(acts: seq<Action>, b: nat) {
    exists states: seq<State> :: Run(acts, states) && Stranded(states[|acts|], b)
  }

  lemma {:induction false} RunEnds(acts: seq<Action>, states: seq<State>, b: nat)
    requires Path(Steps, acts, states) && states[0] == INIT && Stranded(states[|acts|], b)
    ensures EndsStranded(acts, b)
  {
    assert Run(acts, states);
  }

  /** A restart between a member's last write and its check strands the batch. */
  lemma {:induction false} RestartStrands()
    ensures EndsStranded(DISPATCHING + FAILING + [Restart], 0)
  {
    FailedRun();
    var acts, states := DISPATCHING + FAILING, Dispatching() + Failing()[1..];
    var t := Do(Failed(), Restart);
    assert Steps(Failed(), Restart, t);
    assert Path(Steps, [Restart], [Failed(), t]);
    PathJoin(Steps, acts, states, [Restart], [Failed(), t]);
    SweptIsStranded();
    RunEnds(acts + [Restart], states + [Failed(), t][1..], 0);
  }

  lemma {:induction false} SweptIsStranded()
    ensures Stranded(Do(Failed(), Restart), 0)
  {
    var t := Do(Failed(), Restart);
    assert t.rows == Failed().rows;
    assert SpineChildren(t.rows, Some(1)) == {};
  }

  const RUN := ToolPatch(Some(ToolState.Running), None, Some(STAMPED))
  const BUSY := ToolInvocation("tool", ToolState.Running, false, STAMPED)
  const STARTING := [StartMember(0, 1, 0), Fetch(0, RUN, ThenExecuting), Write(0), Restart]

  function Started(): seq<State> {
    [Ready(),
     Ready().(started := {1}, flows := Running(Preparing)),
     Ready().(started := {1}, flows := Running(Writing(RUN, CALL, ThenExecuting))),
     Ready().(started := {1}, flows := Running(Executing), rows := map[0 := ROOT, 1 := Member(BUSY)]),
     Ready().(started := {1}, rows := map[0 := ROOT, 1 := Member(BUSY.(state := Error, allowed := true))])]
  }

  lemma {:induction false} StartedSteps()
    ensures Steps(Started()[0], STARTING[0], Started()[1]) && Steps(Started()[1], STARTING[1], Started()[2])
  {
    FailRewrites();
    assert StampOf(CALL) == BATCH;
  }

  lemma {:induction false} BusyStep()
    ensures Steps(Started()[2], STARTING[2], Started()[3])
  {
    assert Merged(CALL, RUN) == BUSY;
  }

  lemma {:induction false} SweepStep()
    ensures Steps(Started()[3], STARTING[3], Started()[4])
  {
    assert Sweep(Started()[3].rows) == Started()[4].rows;
  }

  lemma {:induction false} StartedPath()
    ensures Path(Steps, STARTING, Started())
  {
    StartedSteps();
    BusyStep();
    SweepStep();
  }

  /** So does a restart while the last member is running: the sweep makes it terminal. */
  lemma {:induction false} RestartStrandsRunning()
    ensures EndsStranded(DISPATCHING + STARTING, 0)
  {
    DispatchingPath();
    StartedPath();
    PathJoin(Steps, DISPATCHING, Dispatching(), STARTING, Started());
    assert SpineChildren(Started()[4].rows, Some(1)) == {};
    RunEnds(DISPATCHING + STARTING, Dispatching() + Started()[1..], 0);
  }

  // ---------------------------------------------------------------- continued

  const CHECKING := [Resolve(0), TakeCheck, Gate, Tail, Child, Insert(2, 2, THOUGHT)]

  function Quieted(): State {
    Failed().(flows := map[], asked := [CHECK])
  }

  function Checking(): seq<State> {
    [Failed(),
     Quieted().(queue := [CHECK]),
     Quieted().(current := AtGate(CHECK)),
     Quieted().(current := AtTail(CHECK)),
     Quieted().(current := AtChild(CHECK, 1)),
     Quieted().(current := AtInsert(CHECK, 1)),
     Continued()]
  }

  function Continued(): State {
    Quieted().(rows := Failed().rows[2 := ContRow(1, 2, THOUGHT)], conts := [Cont(CHECK, 1, 2)])
  }

  lemma {:induction false} QueriesOfFailed()
    ensures ResolvedMembers(Failed().rows, 0) == {1} && Members(Failed().rows, 0) == {1}
    ensures TailOf(Failed().rows, 0) == Some(1) && SpineChildren(Failed().rows, Some(1)) == {}
  {
    var m := Failed().rows;
    assert StampOf(FAILED) == BATCH && StampOf(THOUGHT) == None;
    assert Members(m, 0) == {1} && ResolvedMembers(m, 0) == {1};
    assert IsNewest(m, {1}, 1);
    var z := Newest(m, Members(m, 0));
    assert z in Members(m, 0);
  }

  lemma {:induction false} AskingPath()
    ensures Path(Steps, [Resolve(0), TakeCheck], Checking()[..3])
  {
    AskStep();
    assert [CHECK][1..] == [];
    assert Steps(Checking()[1], TakeCheck, Checking()[2]);
  }

  lemma {:induction false} AskStep()
    ensures Steps(Failed(), Resolve(0), Checking()[1])
  {
  }

  lemma {:induction false} QueryingPath()
    ensures Path(Steps, [Gate, Tail], Checking()[2..5])
  {
    GateStep();
    QueriesOfFailed();
    assert Steps(Checking()[3], Tail, Checking()[4]);
  }

  lemma {:induction false} GateStep()
    ensures Steps(Checking()[2], Gate, Checking()[3])
  {
    QueriesOfFailed();
    assert |{1}| == 1;
  }

  lemma {:induction false} ContinuingPath()
    ensures Path(Steps, [Child, Insert(2, 2, THOUGHT)], Checking()[4..])
  {
    var q := Checking();
    QueriesOfFailed();
    assert Steps(q[4], Child, q[5]);
    InsertStep();
  }

  lemma {:induction false} InsertStep()
    ensures Steps(Checking()[5], Insert(2, 2, THOUGHT), Continued())
  {
    var m := Failed().rows;
    assert 1 in m && m[1].index == 1 && m.Keys == {0, 1};
    assert IsNextIndex(m, 2);
  }

  lemma {:induction false} CheckingPath()
    ensures Path(Steps, CHECKING, Checking())
  {
    AskingPath();
    QueryingPath();
    ContinuingPath();
    var q := Checking();
    PathJoin(Steps, [Resolve(0), TakeCheck], q[..3], [Gate, Tail], q[2..5]);
    PathJoin(Steps, [Resolve(0), TakeCheck] + [Gate, Tail], q[..3] + q[2..5][1..], [Child, Insert(2, 2, THOUGHT)], q[4..]);
    assert q[..3] + q[2..5][1..] + q[4..][1..] == q;
    assert [Resolve(0), TakeCheck] + [Gate, Tail] + [Child, Insert(2, 2, THOUGHT)] == CHECKING;
  }

  // ---------------------------------------------------------------- aborted

  const ABORTING := [Abort(0), DropCheck]

  function Aborting(): seq<State> {
    [Checking()[5], Checking()[5].(aborted := {0}), Quieted().(aborted := {0})]
  }

  lemma {:induction false} AbortingPath()
    ensures Path(Steps, ABORTING, Aborting())
  {
    var q := Aborting();
    assert Steps(q[0], Abort(0), q[1]);
    assert Steps(q[1], DropCheck, q[2]);
  }

  lemma {:induction false} PathPrefix(acts: seq<Action>, states: seq<State>, k: nat)
    requires Path(Steps, acts, states) && k <= |acts|
    ensures Path(Steps, acts[..k], states[..k + 1])
  {
    forall i | 0 <= i < k ensures Steps(states[..k + 1][i], acts[..k][i], states[..k + 1][i + 1]) {
      assert Steps(states[i], acts[i], states[i + 1]);
    }
  }

  /** An abort between the settlement of the last member and its continuation strands the batch. */
  lemma {:induction false} AbortStrands()
    ensures EndsStranded(DISPATCHING + FAILING + CHECKING[..5] + ABORTING, 0)
  {
    FailedRun();
    CheckingPath();
    PathPrefix(CHECKING, Checking(), 5);
    AbortingPath();
    var acts, states := DISPATCHING + FAILING, Dispatching() + Failing()[1..];
    PathJoin(Steps, acts, states, CHECKING[..5], Checking()[..6]);
    PathJoin(Steps, acts + CHECKING[..5], states + Checking()[..6][1..], ABORTING, Aborting());
    assert SpineChildren(Aborting()[2].rows, Some(1)) == {};
    RunEnds(acts + CHECKING[..5] + ABORTING, states + Checking()[..6][1..] + Aborting()[1..], 0);
  }

  // ---------------------------------------------------------------- quiet

  lemma {:induction false} ContinuedIsQuiet()
    ensures Quiet(Continued(), 0)
  {
    var s := Continued();
    assert Last(s.batches[0]) == 1;
    forall x | x in SpineChildren(s.rows, Some(1)) ensures x !in s.foreign {}
    assert 2 in SpineChildren(s.rows, Some(1));
    assert [CHECK][..0] == [];
  }

  /** The same failure without the restart: the batch ends quietly, with its one continuation. */
  lemma {:induction false} QuietRun()
    ensures exists acts: seq<Action>, states: seq<State>, b: nat :: Run(acts, states) && Quiet(states[|acts|], b)
  {
    FailedRun();
    CheckingPath();
    var acts, states := DISPATCHING + FAILING, Dispatching() + Failing()[1..];
    PathJoin(Steps, acts, states, CHECKING, Checking());
    ContinuedIsQuiet();
    assert Run(acts + CHECKING, states + Checking()[1..]);
  }
}
