/** What a client of the stream can rely on over every run. */
module StreamResults {
  import opened Options
  import opened Entries
  import opened Stream
  import opened Runs

  // ---------------------------------------------------------------- convergence, exactly

  /** Live, with nothing on its way to the client and no writer between commit and publish. */
  ghost predicate Settled(s: State) {
    s.connection.Live? && s.channel == [] && s.ops == map[]
  }

  /** The publish of e that last passed the gate since the snapshot was read, if any did, was of the
      version that the database has. */
  ghost predicate PublishedLast(acts: seq<Action>, states: seq<State>, n: nat, e: Id)
    requires n <= |acts| < |states|
  {
    var last := LastPassed(acts, states, n, e);
    last.Some? ==> e in states[n].rows && last.value == states[n].rows[e]
  }

  /** Over every run, whatever is published in whatever order: in a settled state the client's row
      of an entry is the database's row exactly if the last publish of it that passed the gate was of
      the current version. */
  lemma {:induction false} ConvergesExactly(acts: seq<Action>, states: seq<State>, n: nat, e: Id)
    requires Run(acts, states) && n <= |acts| && Settled(states[n]) && e in states[n].rows
    ensures e in states[n].client.rows && states[n].client.rows[e] == states[n].rows[e]
            <==> PublishedLast(acts, states, n, e)
  {
    PassedAlways(acts, states, n, e);
    var s := states[n];
    assert Eventual(s) == s.client;
  }

  /** So the client ends with the whole database exactly if that holds of every entry. */
  lemma {:induction false} AllConvergeExactly(acts: seq<Action>, states: seq<State>, n: nat)
    requires Run(acts, states) && n <= |acts| && Settled(states[n])
    ensures states[n].client.rows == states[n].rows
            <==> forall e | e in states[n].rows :: PublishedLast(acts, states, n, e)
  {
    BaseAlways(acts, states, n);
    var s := states[n];
    assert Eventual(s) == s.client;
    forall e | e in s.rows
      ensures e in s.client.rows && s.client.rows[e] == s.rows[e] <==> PublishedLast(acts, states, n, e)
    {
      ConvergesExactly(acts, states, n, e);
    }
  }

  // ---------------------------------------------------------------- without stale publishes

  /** Once the client has taken every frame, each of its rows is the database's row, unless the
      writer of that row has yet to publish it; and it has no row that the database lacks. */
  lemma {:induction false} Converges(acts: seq<Action>, states: seq<State>, n: nat)
    requires Run(acts, states) && n <= |acts| && NothingStale(acts, states, n)
    requires states[n].connection.Live? && states[n].channel == []
    ensures var s := states[n];
            && (forall e | e in s.client.rows :: e in s.rows)
            && (forall e | e in s.rows && !Announces(s, e, s.rows[e].seqNo) ::
                  e in s.client.rows && s.client.rows[e] == s.rows[e])
    ensures states[n].ops == map[] ==> states[n].client.rows == states[n].rows
  {
    InvAlways(acts, states, n);
    var s := states[n];
    assert Eventual(s) == s.client;
    forall e | e in s.rows && !Announces(s, e, s.rows[e].seqNo)
      ensures e in s.client.rows && s.client.rows[e] == s.rows[e]
    {
      assert EntryOk(s, s.client, e);
    }
    if s.ops == map[] {
      assert forall e | e in s.rows :: !Announces(s, e, s.rows[e].seqNo);
      assert s.client.rows == s.rows;
    }
  }

  /** No frame takes a row of the client back to an older version, or away. */
  lemma {:induction false} NeverBackwards(acts: seq<Action>, states: seq<State>, n: nat)
    requires Run(acts, states) && n < |acts| && NothingStale(acts, states, n) && acts[n] == Consume
    ensures NotAhead(states[n].client.rows, states[n + 1].client.rows)
  {
    InvAlways(acts, states, n);
    assert Steps(states[n], acts[n], states[n + 1]);
    GoodRest(states[n].client, states[n].channel);
  }

  /** The gate drops a frame only if the client already holds the commit that it announces. */
  lemma {:induction false} DroppedIsKnown(acts: seq<Action>, states: seq<State>, n: nat)
    requires Run(acts, states) && n < |acts| && NothingStale(acts, states, n) && acts[n] == Consume
    ensures states[n].channel != []
    ensures var f, c := states[n].channel[0], states[n].client;
            f.Upsert? && f.stamp <= c.lastSeq ==>
              states[n + 1].client == c && f.entry in c.rows && f.announces <= c.rows[f.entry].seqNo
  {
    InvAlways(acts, states, n);
    assert Steps(states[n], acts[n], states[n + 1]);
    GoodRest(states[n].client, states[n].channel);
  }

  // ---------------------------------------------------------------- one writer at a time

  /** No commit of an entry between another writer's read of it and the publish of what was read. */
  ghost predicate OneWriter(s: State, a: Action) {
    a.Commit? ==> forall o | o in s.ops && s.ops[o].entry == a.entry :: !s.ops[o].phase.Reading?
  }

  ghost predicate ReadsCurrent(s: State, op: Op) {
    op.phase.Reading? ==> op.entry in s.rows && s.rows[op.entry] == op.phase.version
  }

  lemma {:induction false} ReadsStep(s: State, a: Action)
    requires Enabled(s, a) && OneWriter(s, a) && forall o | o in s.ops :: ReadsCurrent(s, s.ops[o])
    ensures forall o | o in Do(s, a).ops :: ReadsCurrent(Do(s, a), Do(s, a).ops[o])
  {
    var t := Do(s, a);
    forall o | o in t.ops ensures ReadsCurrent(t, t.ops[o]) {
      assert o in s.ops ==> ReadsCurrent(s, s.ops[o]);
    }
  }

  lemma {:induction false} ReadsAlways(acts: seq<Action>, states: seq<State>, n: nat)
    requires Run(acts, states) && n < |states| && forall i | 0 <= i < |acts| :: OneWriter(states[i], acts[i])
    ensures forall o | o in states[n].ops :: ReadsCurrent(states[n], states[n].ops[o])
    decreases n
  {
    if n > 0 {
      ReadsAlways(acts, states, n - 1);
      assert Steps(states[n - 1], acts[n - 1], states[n - 1 + 1]) && OneWriter(states[n - 1], acts[n - 1]);
      ReadsStep(states[n - 1], acts[n - 1]);
    }
  }

  /** What the database still holds is not stale. */
  lemma {:induction false} CurrentIsNotStale(s: State, a: Action)
    requires Inv(s) && Enabled(s, a) && forall o | o in s.ops :: ReadsCurrent(s, s.ops[o])
    ensures NotStale(s, a)
  {
    if a.Publish? { assert ReadsCurrent(s, s.ops[a.op]); }
  }

  /** With one writer at a time, nothing stale is ever published. */
  lemma {:induction false} OneWriterIsFresh(acts: seq<Action>, states: seq<State>, n: nat)
    requires Run(acts, states) && n <= |acts| && forall i | 0 <= i < |acts| :: OneWriter(states[i], acts[i])
    ensures NothingStale(acts, states, n)
    decreases n
  {
    if n > 0 {
      OneWriterIsFresh(acts, states, n - 1);
      InvAlways(acts, states, n - 1);
      ReadsAlways(acts, states, n - 1);
      assert Steps(states[n - 1], acts[n - 1], states[n - 1 + 1]);
      CurrentIsNotStale(states[n - 1], acts[n - 1]);
    }
  }

  // ---------------------------------------------------------------- two writers

  /** Everything is published and consumed, and the client still shows something else. */
  ghost predicate Diverged(s: State) {
    Settled(s) && s.client.rows != s.rows
  }

  // A live client, and two writers of entry 0: the second commits, reads and publishes between the
  // first one's read and its publish.

  const EMPTY := Client(map[], 0)

  const OPENING := [Subscribe, ReadSnapshot, SendSnapshot, Consume]

  function Racing(v: Payload, w: Payload): seq<Action> {
    [Commit(1, 0, v), Note(1), Read(1), Commit(2, 0, w), Note(2)]
  }

  const OVERTAKING := [Read(2), Publish(2), Publish(1), Consume, Consume]

  function Open(): seq<State> {
    [INIT,
     State(map[], 0, 0, map[], Waiting([]), [], EMPTY),
     State(map[], 0, 0, map[], Ready(Snapshot(map[], 0), []), [], EMPTY),
     State(map[], 0, 0, map[], Live, [Snapshot(map[], 0)], EMPTY),
     State(map[], 0, 0, map[], Live, [], EMPTY)]
  }

  function Race(v: Version, w: Version): seq<State> {
    [State(map[], 0, 0, map[], Live, [], EMPTY),
     State(map[0 := v], 1, 0, map[1 := Op(0, 1, Committed)], Live, [], EMPTY),
     State(map[0 := v], 1, 1, map[1 := Op(0, 1, Noted)], Live, [], EMPTY),
     State(map[0 := v], 1, 1, map[1 := Op(0, 1, Reading(v))], Live, [], EMPTY),
     State(map[0 := w], 2, 1, map[1 := Op(0, 1, Reading(v)), 2 := Op(0, 2, Committed)], Live, [], EMPTY),
     State(map[0 := w], 2, 2, map[1 := Op(0, 1, Reading(v)), 2 := Op(0, 2, Noted)], Live, [], EMPTY)]
  }

  function Overtaken(v: Version, w: Version): seq<State> {
    [State(map[0 := w], 2, 2, map[1 := Op(0, 1, Reading(v)), 2 := Op(0, 2, Noted)], Live, [], EMPTY),
     State(map[0 := w], 2, 2, map[1 := Op(0, 1, Reading(v)), 2 := Op(0, 2, Reading(w))], Live, [], EMPTY),
     State(map[0 := w], 2, 2, map[1 := Op(0, 1, Reading(v))], Live, [Upsert(0, w, 2, 2)], EMPTY),
     State(map[0 := w], 2, 2, map[], Live, [Upsert(0, w, 2, 2), Upsert(0, v, 2, 1)], EMPTY),
     State(map[0 := w], 2, 2, map[], Live, [Upsert(0, v, 2, 1)], Client(map[0 := w], 0)),
     State(map[0 := w], 2, 2, map[], Live, [], Client(map[0 := v], 0))]
  }

  lemma {:induction false} OpenPath()
    ensures Path(Steps, OPENING, Open())
  {
    var q := Open();
    assert Steps(q[0], Subscribe, q[1]) && Steps(q[1], ReadSnapshot, q[2]);
    assert Steps(q[2], SendSnapshot, q[3]) && Steps(q[3], Consume, q[4]);
  }

  lemma {:induction false} RacePath(v: Payload, w: Payload)
    ensures Path(Steps, Racing(v, w), Race(Version(1, v), Version(2, w)))
  {
    var q := Race(Version(1, v), Version(2, w));
    assert Steps(q[0], Commit(1, 0, v), q[1]);
    assert Steps(q[1], Note(1), q[2]);
    assert Steps(q[2], Read(1), q[3]);
    assert Steps(q[3], Commit(2, 0, w), q[4]);
    assert Steps(q[4], Note(2), q[5]);
  }

  lemma {:induction false} OvertakenPublishes(v: Version, w: Version)
    ensures Path(Steps, OVERTAKING[..3], Overtaken(v, w)[..4])
  {
    var q := Overtaken(v, w);
    assert Steps(q[0], Read(2), q[1]);
    assert Steps(q[1], Publish(2), q[2]);
    assert Steps(q[2], Publish(1), q[3]);
  }

  lemma {:induction false} OvertakenPath(v: Version, w: Version)
    ensures Path(Steps, OVERTAKING, Overtaken(v, w))
  {
    var q := Overtaken(v, w);
    OvertakenPublishes(v, w);
    assert Steps(q[3], Consume, q[4]);
    assert Steps(q[4], Consume, q[5]);
    assert Path(Steps, OVERTAKING[3..], q[3..]);
    PathJoin(Steps, OVERTAKING[..3], q[..4], OVERTAKING[3..], q[3..]);
    assert OVERTAKING[..3] + OVERTAKING[3..] == OVERTAKING && q[..4] + q[3..][1..] == q;
  }

  /** Two writers of one entry can bring this about. */
  lemma {:induction false} TwoWritersDiverge(v: Payload, w: Payload)
    requires v != w
    ensures exists acts: seq<Action>, states: seq<State> :: Run(acts, states) && Diverged(states[|acts|])
  {
    var v1, w2 := Version(1, v), Version(2, w);
    OpenPath();
    RacePath(v, w);
    OvertakenPath(v1, w2);
    var a1, a2, a3 := OPENING, Racing(v, w), OVERTAKING;
    JoinThree(a1, Open(), a2, Race(v1, w2), a3, Overtaken(v1, w2));
    OvertakenDiverges(v1, w2);
    var acts, states := a1 + a2 + a3, Open() + Race(v1, w2)[1..] + Overtaken(v1, w2)[1..];
    assert Run(acts, states) && Diverged(states[|acts|]);
  }

  lemma {:induction false} OvertakenDiverges(v: Version, w: Version)
    requires v != w
    ensures Diverged(Overtaken(v, w)[5])
  {
    assert Overtaken(v, w)[5].client.rows[0] != Overtaken(v, w)[5].rows[0];
  }

  lemma {:induction false} JoinThree(a1: seq<Action>, s1: seq<State>, a2: seq<Action>, s2: seq<State>, a3: seq<Action>, s3: seq<State>)
    requires Path(Steps, a1, s1) && Path(Steps, a2, s2) && Path(Steps, a3, s3) && s1[|a1|] == s2[0] && s2[|a2|] == s3[0]
    ensures Path(Steps, a1 + a2 + a3, s1 + s2[1..] + s3[1..])
    ensures (s1 + s2[1..] + s3[1..])[|a1 + a2 + a3|] == s3[|a3|] && (s1 + s2[1..] + s3[1..])[0] == s1[0]
  {
    PathJoin(Steps, a1, s1, a2, s2);
    PathJoin(Steps, a1 + a2, s1 + s2[1..], a3, s3);
  }

  // ---------------------------------------------------------------- the mirror

  /** The cursor value that a step makes known to the mirror: that of a commit, or at boot the stored one. */
  function NotedBy(s: State, a: Action): Option<nat> {
    match a
    case OtherNote(v) => Some(v)
    case Note(o) => if o in s.ops then Some(s.ops[o].seqNo) else None
    case Restart => Some(s.cursor)
    case _ => None
  }

  ghost predicate NotesAt(acts: seq<Action>, states: seq<State>, k: nat, v: nat)
    requires k < |acts| < |states|
  {
    NotedBy(states[k], acts[k]) == Some(v)
  }

  lemma {:induction false} MirrorStep(s: State, a: Action)
    requires Enabled(s, a) && s.mirror <= s.cursor
    ensures var v, t := NotedBy(s, a), Do(s, a);
            t.mirror == if v.Some? && v.value > s.mirror then v.value else s.mirror
  {
  }

  lemma {:induction false} MirrorAt(acts: seq<Action>, states: seq<State>, n: nat)
    requires Run(acts, states) && n < |acts|
    ensures var v, s, t := NotedBy(states[n], acts[n]), states[n], states[n + 1];
            t.mirror == if v.Some? && v.value > s.mirror then v.value else s.mirror
  {
    BaseAlways(acts, states, n);
    assert Steps(states[n], acts[n], states[n + 1]);
    MirrorStep(states[n], acts[n]);
  }

  /** Over every run the mirror is the highest cursor value noted so far, or loaded at a boot. */
  lemma {:induction false} MirrorExactly(acts: seq<Action>, states: seq<State>, n: nat)
    requires Run(acts, states) && n <= |acts|
    ensures forall k: nat, v: nat | k < n && NotesAt(acts, states, k, v) :: v <= states[n].mirror
    ensures states[n].mirror == 0 || exists k: nat :: k < n && NotesAt(acts, states, k, states[n].mirror)
    decreases n
  {
    if n > 0 {
      MirrorExactly(acts, states, n - 1);
      MirrorAt(acts, states, n - 1);
      var v := NotedBy(states[n - 1], acts[n - 1]);
      if v.Some? { assert NotesAt(acts, states, n - 1, v.value); }
    }
  }
}
