/**
 The snapshot and live-stream protocol of one conversation, as a step system: every commit bumps the
 database cursor; its writer notes the bump in the mirror, reads the entry back and publishes it
 with the mirror's value; a connection buffers live frames until its snapshot has been sent; the
 client drops every frame at or below the snapshot's watermark. Nothing is ever replayed.
 */
module Stream {
  import opened Options
  import opened Entries

  /** What one commit wrote: the cursor value of the commit, and the payload. */
  datatype Version = Version(seqNo: nat, payload: Payload)

  type Rows = map<Id, Version>

  /** An upsert carries the version read, the mirror's stamp, and (for the proofs) the commit that
      its writer means to announce. */
  datatype Frame = Snapshot(rows: Rows, watermark: nat) | Upsert(entry: Id, version: Version, stamp: nat, announces: nat)

  datatype Phase = Committed | Noted | Reading(version: Version)

  /** A writer between its commit and its publish. */
  datatype Op = Op(entry: Id, seqNo: nat, phase: Phase)

  datatype Connection = Closed | Waiting(buffered: seq<Frame>) | Ready(frame: Frame, buffered: seq<Frame>) | Live

  datatype Client = Client(rows: Rows, lastSeq: nat)

  datatype State = State(rows: Rows, cursor: nat, mirror: nat, ops: map<nat, Op>,
                         connection: Connection, channel: seq<Frame>, client: Client)

  const INIT := State(map[], 0, 0, map[], Closed, [], Client(map[], 0))

  datatype Action =
    | Commit(op: nat, entry: Id, payload: Payload)
    | OtherCommit
    | OtherNote(seqNo: nat)
    | Note(op: nat)
    | Read(op: nat)
    | Publish(op: nat)
    | Subscribe
    | ReadSnapshot
    | SendSnapshot
    | Consume
    | Disconnect
    | Restart

  // ---------------------------------------------------------------- the parties

  /** The mirror only moves forward. */
  function Advanced(mirror: nat, seqNo: nat): nat {
    if seqNo > mirror then seqNo else mirror
  }

  function Applied(c: Client, f: Frame): Client {
    match f
    case Snapshot(rows, w) => Client(rows, w)
    case Upsert(e, v, stamp, _) => if stamp <= c.lastSeq then c else c.(rows := c.rows[e := v])
  }

  function AppliedAll(c: Client, q: seq<Frame>): Client {
    if q == [] then c else Applied(AppliedAll(c, q[..|q| - 1]), q[|q| - 1])
  }

  /** A live frame reaches the connection. */
  function Received(s: State, f: Frame): State {
    match s.connection
    case Closed => s
    case Waiting(b) => s.(connection := Waiting(b + [f]))
    case Ready(snap, b) => s.(connection := Ready(snap, b + [f]))
    case Live => s.(channel := s.channel + [f])
  }

  // ---------------------------------------------------------------- steps

  ghost predicate Enabled(s: State, a: Action) {
    match a
    case Commit(o, e, _) => o in s.ops ==> s.ops[o].phase.Noted? && s.ops[o].entry == e
    case OtherCommit => true
    case OtherNote(n) => n <= s.cursor
    case Note(o) => o in s.ops && s.ops[o].phase.Committed?
    case Read(o) => o in s.ops && s.ops[o].phase.Noted? && s.ops[o].entry in s.rows
    case Publish(o) => o in s.ops && s.ops[o].phase.Reading?
    case Subscribe => s.connection.Closed?
    case ReadSnapshot => s.connection.Waiting?
    case SendSnapshot => s.connection.Ready?
    case Consume => s.channel != []
    case Disconnect => true
    case Restart => true
  }

  ghost function Do(s: State, a: Action): State
    requires Enabled(s, a)
  {
    match a
    case Commit(o, e, p) =>
      s.(cursor := s.cursor + 1, rows := s.rows[e := Version(s.cursor + 1, p)],
         ops := s.ops[o := Op(e, s.cursor + 1, Committed)])
    case OtherCommit => s.(cursor := s.cursor + 1)
    case OtherNote(n) => s.(mirror := Advanced(s.mirror, n))
    case Note(o) =>
      s.(mirror := Advanced(s.mirror, s.ops[o].seqNo), ops := s.ops[o := s.ops[o].(phase := Noted)])
    case Read(o) => s.(ops := s.ops[o := s.ops[o].(phase := Reading(s.rows[s.ops[o].entry]))])
    case Publish(o) => Received(s.(ops := s.ops - {o}), Announcement(s, o))
    case Subscribe => s.(connection := Waiting([]))
    case ReadSnapshot => s.(connection := Ready(Snapshot(s.rows, s.cursor), s.connection.buffered))
    case SendSnapshot => s.(connection := Live, channel := s.channel + [s.connection.frame] + s.connection.buffered)
    case Consume => s.(client := Applied(s.client, s.channel[0]), channel := s.channel[1..])
    case Disconnect => s.(connection := Closed, channel := [])
    case Restart => s.(connection := Closed, channel := [], ops := map[], mirror := s.cursor)
  }

  /** The frame a writer publishes: what it read, stamped with the mirror of this moment. */
  function Announcement(s: State, o: nat): Frame
    requires o in s.ops && s.ops[o].phase.Reading?
  {
    Upsert(s.ops[o].entry, s.ops[o].phase.version, s.mirror, s.ops[o].seqNo)
  }

  ghost predicate Run(acts: seq<Action>, states: seq<State>) {
    && |states| == |acts| + 1 && states[0] == INIT
    && forall i | 0 <= i < |acts| :: Steps(states[i], acts[i], states[i + 1])
  }

  ghost predicate Steps(s: State, a: Action, t: State) {
    Enabled(s, a) && t == Do(s, a)
  }

  // ---------------------------------------------------------------- the invariant

  /** Frames on their way to the client, from the last snapshot that was read. */
  function Coming(s: State): seq<Frame> {
    match s.connection
    case Ready(f, b) => s.channel + [f] + b
    case _ => s.channel
  }

  /** The client once it has taken everything that is on its way. */
  function Eventual(s: State): Client {
    AppliedAll(s.client, Coming(s))
  }

  predicate Seeded(s: State) {
    s.connection.Ready? || s.connection.Live?
  }

  /** A frame that was published now would pass the gate of the client. */
  predicate Passes(s: State) {
    Seeded(s) && s.mirror > Eventual(s).lastSeq
  }

  /** What is published and will pass the gate is not older than what the client has or is about to
      get. It may well be older than the database, if the newer version is yet to be published. */
  ghost predicate NotStale(s: State, a: Action) {
    a.Publish? && a.op in s.ops && s.ops[a.op].phase.Reading? && Passes(s) && s.ops[a.op].entry in Eventual(s).rows ==>
      Eventual(s).rows[s.ops[a.op].entry].seqNo <= s.ops[a.op].phase.version.seqNo
  }

  /** No step before state n publishes anything stale. */
  ghost predicate NothingStale(acts: seq<Action>, states: seq<State>, n: nat) {
    n <= |acts| <= |states| && forall i | 0 <= i < n :: NotStale(states[i], acts[i])
  }

  ghost predicate OpOk(s: State, op: Op) {
    && op.entry in s.rows && op.seqNo <= s.rows[op.entry].seqNo
    && (!op.phase.Committed? ==> op.seqNo <= s.mirror)
    && (op.phase.Reading? ==> op.seqNo <= op.phase.version.seqNo && ReadOk(s.rows[op.entry], op.phase.version))
  }

  /** A version that was read is older than the row, or is the row. */
  predicate ReadOk(row: Version, read: Version) {
    read.seqNo <= row.seqNo && (read.seqNo == row.seqNo ==> read == row)
  }

  ghost predicate ServerOk(s: State) {
    && s.mirror <= s.cursor
    && (forall e | e in s.rows :: s.rows[e].seqNo <= s.cursor)
    && (forall o | o in s.ops :: OpOk(s, s.ops[o]))
  }

  /** What the client holds or will hold is no newer than the database. */
  ghost predicate NotAhead(rows: Rows, db: Rows) {
    forall e | e in rows :: e in db && rows[e].seqNo <= db[e].seqNo
  }

  /** A live frame that was published before the next snapshot is read. */
  ghost predicate EarlyOk(s: State, f: Frame) {
    f.Upsert? && f.stamp <= s.cursor && f.entry in s.rows && f.announces <= s.rows[f.entry].seqNo
  }

  /** Taking f moves no row of the client backwards, and if it is dropped, then the client has the
      commit that it announces. */
  ghost predicate GoodFrame(c: Client, f: Frame) {
    match f
    case Snapshot(rows, _) => NotAhead(c.rows, rows)
    case Upsert(e, v, stamp, announces) =>
      if stamp <= c.lastSeq then e in c.rows && announces <= c.rows[e].seqNo
      else e in c.rows ==> c.rows[e].seqNo <= v.seqNo
  }

  ghost predicate GoodAt(c: Client, q: seq<Frame>, i: nat)
    requires i < |q|
  {
    GoodFrame(AppliedAll(c, q[..i]), q[i])
  }

  ghost predicate Good(c: Client, q: seq<Frame>) {
    forall i | 0 <= i < |q| :: GoodAt(c, q, i)
  }

  /** A writer that has yet to publish the commit. */
  ghost predicate Announces(s: State, e: Id, seqNo: nat) {
    exists o :: o in s.ops && s.ops[o].entry == e && s.ops[o].seqNo == seqNo
  }

  /** The client will have what the database has, or the writer of it has yet to publish; and it
      will have whatever the snapshot had. */
  ghost predicate EntryOk(s: State, c: Client, e: Id)
    requires e in s.rows
  {
    || (e in c.rows && c.rows[e] == s.rows[e])
    || (s.rows[e].seqNo > c.lastSeq && Announces(s, e, s.rows[e].seqNo))
  }

  ghost predicate KnowsOp(c: Client, op: Op) {
    op.seqNo <= c.lastSeq ==> op.entry in c.rows && op.seqNo <= c.rows[op.entry].seqNo
  }

  ghost predicate SeededOk(s: State, c: Client) {
    && NotAhead(c.rows, s.rows)
    && (forall e | e in s.rows :: EntryOk(s, c, e))
    && (forall o | o in s.ops :: KnowsOp(c, s.ops[o]))
  }

  /** The client will know only rows of the database, by a snapshot of the past. */
  ghost predicate ClientOk(s: State, c: Client) {
    c.lastSeq <= s.cursor && c.rows.Keys <= s.rows.Keys
  }

  /** What every run keeps, whatever is published. */
  ghost predicate Base(s: State) {
    && ServerOk(s)
    && (s.connection.Ready? ==> s.connection.frame.Snapshot?)
    && (!s.connection.Live? ==> s.channel == [])
    && (s.connection.Waiting? ==> forall f | f in s.connection.buffered :: EarlyOk(s, f))
    && (Seeded(s) ==> ClientOk(s, Eventual(s)))
  }

  /** What a run without stale publishes keeps besides. */
  ghost predicate Sound(s: State) {
    && NotAhead(s.client.rows, s.rows)
    && Good(s.client, Coming(s))
    && (Seeded(s) ==> SeededOk(s, Eventual(s)))
  }

  ghost predicate Inv(s: State) {
    Base(s) && Sound(s)
  }

  // ---------------------------------------------------------------- lists of frames

  lemma {:induction false} AppliedMore(c: Client, q: seq<Frame>, f: Frame)
    ensures AppliedAll(c, q + [f]) == Applied(AppliedAll(c, q), f)
  {
    assert (q + [f])[..|q|] == q;
  }

  lemma {:induction false} AppliedFront(c: Client, q: seq<Frame>)
    requires q != []
    ensures AppliedAll(Applied(c, q[0]), q[1..]) == AppliedAll(c, q)
    decreases |q|
  {
    if |q| > 1 {
      var f := q[..|q| - 1];
      AppliedFront(c, f);
      assert f[1..] == q[1..][..|q[1..]| - 1];
    } else {
      assert q[..0] == [];
    }
  }

  lemma {:induction false} GoodMore(c: Client, q: seq<Frame>, f: Frame)
    requires Good(c, q) && GoodFrame(AppliedAll(c, q), f)
    ensures Good(c, q + [f])
  {
    var r := q + [f];
    forall i | 0 <= i < |r| ensures GoodAt(c, r, i) {
      if i < |q| {
        assert GoodAt(c, q, i) && r[..i] == q[..i];
      } else {
        assert r[..i] == q;
      }
    }
  }

  lemma {:induction false} GoodRest(c: Client, q: seq<Frame>)
    requires Good(c, q) && q != []
    ensures Good(Applied(c, q[0]), q[1..]) && GoodFrame(c, q[0])
  {
    assert GoodAt(c, q, 0) && q[..0] == [];
    forall i | 0 <= i < |q[1..]| ensures GoodAt(Applied(c, q[0]), q[1..], i) {
      assert GoodAt(c, q, i + 1);
      AppliedFront(c, q[..i + 1]);
      assert q[..i + 1][1..] == q[1..][..i];
    }
  }

  // ---------------------------------------------------------------- what every run keeps

  predicate ByServer(a: Action) {
    a.Commit? || a.OtherCommit? || a.OtherNote? || a.Note? || a.Read?
  }

  lemma {:induction false} ServerStep(s: State, a: Action)
    requires ServerOk(s) && Enabled(s, a)
    ensures ServerOk(Do(s, a))
  {
    var t := Do(s, a);
    forall o | o in t.ops ensures OpOk(t, t.ops[o]) {
      assert o in s.ops ==> OpOk(s, s.ops[o]);
    }
  }

  /** Where another version comes in, the database only gets newer. */
  lemma {:induction false} StillEarly(s: State, t: State, f: Frame)
    requires EarlyOk(s, f) && s.cursor <= t.cursor && NotAhead(s.rows, t.rows)
    ensures EarlyOk(t, f)
  {
  }

  lemma {:induction false} StillNotAhead(rows: Rows, db: Rows, db2: Rows)
    requires NotAhead(rows, db) && NotAhead(db, db2)
    ensures NotAhead(rows, db2)
  {
  }

  lemma {:induction false} ComingMore(s: State, f: Frame)
    requires Seeded(s)
    ensures Coming(Received(s, f)) == Coming(s) + [f]
  {
    if s.connection.Ready? { assert s.channel + [s.connection.frame] + (s.connection.buffered + [f]) == Coming(s) + [f]; }
  }

  /** What the client will have, after each step that it notices. */
  lemma {:induction false} EventualAfter(s: State, a: Action)
    requires Base(s) && Enabled(s, a) && Seeded(Do(s, a))
    ensures a.ReadSnapshot? ==> Eventual(Do(s, a)) == Client(s.rows, s.cursor)
    ensures !a.ReadSnapshot? ==> Seeded(s)
    ensures a.Publish? ==> Eventual(Do(s, a)) == Applied(Eventual(s), Announcement(s, a.op))
    ensures !a.ReadSnapshot? && !a.Publish? ==> Eventual(Do(s, a)) == Eventual(s)
  {
    var t := Do(s, a);
    match a
    case ReadSnapshot =>
      var snap, b := Snapshot(s.rows, s.cursor), s.connection.buffered;
      assert Coming(t) == [snap] + b;
      assert ([snap] + b)[1..] == b;
      AppliedFront(s.client, [snap] + b);
      EarlyDropped(s, Client(s.rows, s.cursor), b);
    case Publish(o) =>
      AppliedMore(s.client, Coming(s), Announcement(s, o));
      ComingMore(s.(ops := s.ops - {o}), Announcement(s, o));
    case SendSnapshot =>
      assert Coming(t) == Coming(s);
    case Consume =>
      AppliedFront(s.client, s.channel);
    case _ =>
  }

  lemma {:induction false} BaseStep(s: State, a: Action)
    requires Base(s) && Enabled(s, a)
    ensures Base(Do(s, a))
  {
    var t := Do(s, a);
    ServerStep(s, a);
    assert NotAhead(s.rows, t.rows);
    if Seeded(t) { EventualAfter(s, a); }
    if a.Publish? { assert OpOk(s, s.ops[a.op]); }
    if t.connection.Waiting? {
      forall f | f in t.connection.buffered ensures EarlyOk(t, f) {
        if s.connection.Waiting? && f in s.connection.buffered { StillEarly(s, t, f); }
      }
    }
  }

  lemma {:induction false} BaseAlways(acts: seq<Action>, states: seq<State>, n: nat)
    requires Run(acts, states) && n < |states|
    ensures Base(states[n])
    decreases n
  {
    if n > 0 {
      BaseAlways(acts, states, n - 1);
      assert Steps(states[n - 1], acts[n - 1], states[n - 1 + 1]);
      BaseStep(states[n - 1], acts[n - 1]);
    }
  }

  /** Frames from before the snapshot are all dropped, and change nothing. */
  lemma {:induction false} EarlyDropped(s: State, c: Client, q: seq<Frame>)
    requires c == Client(s.rows, s.cursor) && forall f | f in q :: EarlyOk(s, f)
    ensures Good(c, q) && AppliedAll(c, q) == c
    decreases |q|
  {
    if q != [] {
      var r, z := q[..|q| - 1], q[|q| - 1];
      assert forall f | f in r :: f in q;
      assert z in q;
      EarlyDropped(s, c, r);
      assert EarlyOk(s, z) && q == r + [z];
      GoodMore(c, r, z);
      AppliedMore(c, r, z);
    }
  }

  // ---------------------------------------------------------------- steps of the server

  /** A commit that the client may lack stays announced, or is overtaken by one that is. */
  lemma {:induction false} EntryStep(s: State, a: Action, c: Client, e: Id)
    requires ServerOk(s) && ClientOk(s, c) && ByServer(a) && Enabled(s, a) && (e in s.rows ==> EntryOk(s, c, e))
    ensures e in Do(s, a).rows ==> EntryOk(Do(s, a), c, e)
  {
    var t := Do(s, a);
    if a.Commit? && e == a.entry {
      assert t.ops[a.op].entry == e;
    } else if e in s.rows && Announces(s, e, s.rows[e].seqNo) {
      var o :| o in s.ops && s.ops[o].entry == e && s.ops[o].seqNo == s.rows[e].seqNo;
      assert t.ops[o].entry == e && t.ops[o].seqNo == s.rows[e].seqNo;
    }
  }

  lemma {:induction false} SeededStep(s: State, a: Action, c: Client)
    requires ServerOk(s) && ClientOk(s, c) && SeededOk(s, c) && ByServer(a) && Enabled(s, a)
    ensures SeededOk(Do(s, a), c)
  {
    var t := Do(s, a);
    assert NotAhead(s.rows, t.rows);
    StillNotAhead(c.rows, s.rows, t.rows);
    forall e | e in t.rows ensures EntryOk(t, c, e) {
      EntryStep(s, a, c, e);
    }
    forall o | o in t.ops ensures KnowsOp(c, t.ops[o]) {
      assert o in s.ops ==> KnowsOp(c, s.ops[o]);
    }
  }

  lemma {:induction false} ServerKeeps(s: State, a: Action)
    requires Inv(s) && ByServer(a) && Enabled(s, a)
    ensures Sound(Do(s, a))
  {
    var t := Do(s, a);
    assert NotAhead(s.rows, t.rows);
    StillNotAhead(s.client.rows, s.rows, t.rows);
    if Seeded(s) { SeededStep(s, a, Eventual(s)); }
  }

  // ---------------------------------------------------------------- publishing

  /** After a publish every entry is still as the database has it, or announced; for the entry that
      is published, provided that the frame is dropped or the client takes nothing older by it. */
  lemma {:induction false} EntryPublished(s: State, o: nat, c: Client, e: Id)
    requires ServerOk(s) && Enabled(s, Publish(o)) && e in s.rows && EntryOk(s, c, e)
    requires e == s.ops[o].entry && s.mirror > c.lastSeq && e in c.rows ==> c.rows[e].seqNo <= s.ops[o].phase.version.seqNo
    ensures EntryOk(s.(ops := s.ops - {o}), Applied(c, Announcement(s, o)), e)
  {
    var op, t := s.ops[o], s.(ops := s.ops - {o});
    assert OpOk(s, op);
    if s.rows[e].seqNo > c.lastSeq && Announces(s, e, s.rows[e].seqNo) {
      var w :| w in s.ops && s.ops[w].entry == e && s.ops[w].seqNo == s.rows[e].seqNo;
      assert w != o ==> w in t.ops && t.ops[w].entry == e;
    }
  }

  /** The client takes nothing older than what it has by a frame that passes the gate. */
  ghost predicate NewerFor(c: Client, f: Frame) {
    f.Upsert? && f.stamp > c.lastSeq && f.entry in c.rows ==> c.rows[f.entry].seqNo <= f.version.seqNo
  }

  lemma {:induction false} PublishedFrame(s: State, o: nat, c: Client)
    requires ServerOk(s) && SeededOk(s, c) && Enabled(s, Publish(o)) && NewerFor(c, Announcement(s, o))
    ensures var d := Applied(c, Announcement(s, o));
            GoodFrame(c, Announcement(s, o)) && NotAhead(c.rows, d.rows) && NotAhead(d.rows, s.rows) && d.lastSeq == c.lastSeq
  {
    assert OpOk(s, s.ops[o]) && KnowsOp(c, s.ops[o]);
  }

  lemma {:induction false} Published(s: State, o: nat, c: Client)
    requires ServerOk(s) && SeededOk(s, c) && Enabled(s, Publish(o)) && NewerFor(c, Announcement(s, o))
    ensures GoodFrame(c, Announcement(s, o))
    ensures SeededOk(s.(ops := s.ops - {o}), Applied(c, Announcement(s, o)))
  {
    var d, t := Applied(c, Announcement(s, o)), s.(ops := s.ops - {o});
    PublishedFrame(s, o, c);
    forall e | e in t.rows ensures EntryOk(t, d, e) {
      assert EntryOk(s, c, e);
      EntryPublished(s, o, c, e);
    }
    forall w | w in t.ops ensures KnowsOp(d, t.ops[w]) {
      StillKnows(c, d, s.ops[w]);
    }
  }

  /** What a client knows of a commit, it still knows when none of its rows has moved backwards. */
  lemma {:induction false} StillKnows(c: Client, d: Client, op: Op)
    requires KnowsOp(c, op) && NotAhead(c.rows, d.rows) && d.lastSeq == c.lastSeq
    ensures KnowsOp(d, op)
  {
  }

  lemma {:induction false} PublishKeeps(s: State, o: nat)
    requires Inv(s) && Enabled(s, Publish(o)) && NotStale(s, Publish(o))
    ensures Sound(Do(s, Publish(o)))
  {
    var t, f := Do(s, Publish(o)), Announcement(s, o);
    if Seeded(s) {
      var u, c := s.(ops := s.ops - {o}), Eventual(s);
      Published(s, o, c);
      GoodMore(s.client, Coming(s), f);
      ComingMore(u, f);
      EventualAfter(s, Publish(o));
      SameServer(u, t, Applied(c, f));
    }
  }

  lemma {:induction false} SameServer(s: State, t: State, c: Client)
    requires SeededOk(s, c) && t.rows == s.rows && t.ops == s.ops
    ensures SeededOk(t, c)
  {
    forall e | e in t.rows ensures EntryOk(t, c, e) {
      assert EntryOk(s, c, e);
      SameEntry(s, t, c, e);
    }
  }

  lemma {:induction false} SameEntry(s: State, t: State, c: Client, e: Id)
    requires e in s.rows && EntryOk(s, c, e) && t.rows == s.rows && t.ops == s.ops
    ensures EntryOk(t, c, e)
  {
    if Announces(s, e, s.rows[e].seqNo) {
      var o :| o in s.ops && s.ops[o].entry == e && s.ops[o].seqNo == s.rows[e].seqNo;
      assert o in t.ops;
    }
  }

  // ---------------------------------------------------------------- the connection

  lemma {:induction false} GoodJoin(c: Client, f: Frame, q: seq<Frame>)
    requires GoodFrame(c, f) && Good(Applied(c, f), q)
    ensures Good(c, [f] + q)
  {
    var r := [f] + q;
    assert r[1..] == q && r[0] == f;
    forall i | 0 <= i < |r| ensures GoodAt(c, r, i) {
      if i == 0 {
        assert r[..0] == [];
      } else {
        assert GoodAt(Applied(c, f), q, i - 1);
        AppliedFront(c, r[..i]);
        assert r[..i][1..] == q[..i - 1];
      }
    }
  }

  lemma {:induction false} SnapshotKeeps(s: State)
    requires Inv(s) && Enabled(s, ReadSnapshot)
    ensures Sound(Do(s, ReadSnapshot))
  {
    var t := Do(s, ReadSnapshot);
    var snap, b := Snapshot(s.rows, s.cursor), s.connection.buffered;
    EarlyDropped(s, Client(s.rows, s.cursor), b);
    GoodJoin(s.client, snap, b);
    assert Coming(t) == [snap] + b;
    EventualAfter(s, ReadSnapshot);
    var c := Eventual(t);
    forall e | e in t.rows ensures EntryOk(t, c, e) {}
    forall o | o in t.ops ensures KnowsOp(c, t.ops[o]) { assert OpOk(s, s.ops[o]); }
  }

  lemma {:induction false} ConsumeKeeps(s: State)
    requires Inv(s) && Enabled(s, Consume)
    ensures Sound(Do(s, Consume))
  {
    var t := Do(s, Consume);
    assert s.connection.Live?;
    AppliedFront(s.client, s.channel);
    GoodRest(s.client, s.channel);
    SameServer(s, t, Eventual(s));
    EventuallyNotAhead(s);
  }

  /** A client that will never go backwards is not ahead now. */
  lemma {:induction false} EventuallyNotAhead(s: State)
    requires Inv(s) && s.connection.Live? && s.channel != []
    ensures NotAhead(Applied(s.client, s.channel[0]).rows, s.rows)
  {
    GoodRest(s.client, s.channel);
    AppliedFront(s.client, s.channel);
    Grows(Applied(s.client, s.channel[0]), s.channel[1..]);
    StillNotAhead(Applied(s.client, s.channel[0]).rows, Eventual(s).rows, s.rows);
  }

  lemma {:induction false} Grows(c: Client, q: seq<Frame>)
    requires Good(c, q)
    ensures NotAhead(c.rows, AppliedAll(c, q).rows)
    decreases |q|
  {
    if q != [] {
      var f := q[..|q| - 1];
      forall i | 0 <= i < |f| ensures GoodAt(c, f, i) {
        assert GoodAt(c, q, i) && q[..i] == f[..i];
      }
      Grows(c, f);
      assert GoodAt(c, q, |q| - 1);
      StillNotAhead(c.rows, AppliedAll(c, f).rows, AppliedAll(c, q).rows);
    }
  }

  lemma {:induction false} SendKeeps(s: State)
    requires Inv(s) && Enabled(s, SendSnapshot)
    ensures Sound(Do(s, SendSnapshot))
  {
    var t := Do(s, SendSnapshot);
    assert Coming(t) == Coming(s);
    SameServer(s, t, Eventual(s));
  }

  lemma {:induction false} InvStep(s: State, a: Action)
    requires Inv(s) && Enabled(s, a) && NotStale(s, a)
    ensures Inv(Do(s, a))
  {
    BaseStep(s, a);
    if ByServer(a) {
      ServerKeeps(s, a);
    } else if a.Publish? {
      PublishKeeps(s, a.op);
    } else if a.ReadSnapshot? {
      SnapshotKeeps(s);
    } else if a.SendSnapshot? {
      SendKeeps(s);
    } else if a.Consume? {
      ConsumeKeeps(s);
    }
  }

  lemma {:induction false} InvAlways(acts: seq<Action>, states: seq<State>, n: nat)
    requires Run(acts, states) && NothingStale(acts, states, n) && n < |states|
    ensures Inv(states[n])
    decreases n
  {
    if n > 0 {
      InvAlways(acts, states, n - 1);
      assert Steps(states[n - 1], acts[n - 1], states[n - 1 + 1]) && NotStale(states[n - 1], acts[n - 1]);
      InvStep(states[n - 1], acts[n - 1]);
    }
  }

  // ---------------------------------------------------------------- what passed the gate

  /** The version of e that was last published past the gate since the snapshot was read. */
  ghost function PassedAfter(s: State, a: Action, e: Id, last: Option<Version>): Option<Version> {
    match a
    case ReadSnapshot => None
    case Publish(o) =>
      if o in s.ops && s.ops[o].phase.Reading? && s.ops[o].entry == e && Passes(s) then Some(s.ops[o].phase.version) else last
    case _ => last
  }

  ghost function LastPassed(acts: seq<Action>, states: seq<State>, n: nat, e: Id): Option<Version>
    requires n <= |acts| <= |states|
  {
    if n == 0 then None else PassedAfter(states[n - 1], acts[n - 1], e, LastPassed(acts, states, n - 1, e))
  }

  /** The client will have what passed last; if nothing has, then what the database has, unless its
      writer has yet to publish it. */
  ghost predicate PassedOk(s: State, e: Id, last: Option<Version>) {
    Seeded(s) ==>
      match last
      case Some(v) => e in Eventual(s).rows && Eventual(s).rows[e] == v
      case None => e in s.rows ==> EntryOk(s, Eventual(s), e)
  }

  lemma {:induction false} PassedPublish(s: State, o: nat, e: Id, last: Option<Version>)
    requires Base(s) && Enabled(s, Publish(o)) && PassedOk(s, e, last) && Seeded(s)
    ensures PassedOk(Do(s, Publish(o)), e, PassedAfter(s, Publish(o), e, last))
  {
    var c, u, t := Eventual(s), s.(ops := s.ops - {o}), Do(s, Publish(o));
    EventualAfter(s, Publish(o));
    if PassedAfter(s, Publish(o), e, last).None? && e in s.rows {
      EntryPublished(s, o, c, e);
      SameEntry(u, t, Applied(c, Announcement(s, o)), e);
    }
  }

  lemma {:induction false} PassedStep(s: State, a: Action, e: Id, last: Option<Version>)
    requires Base(s) && Enabled(s, a) && PassedOk(s, e, last)
    ensures PassedOk(Do(s, a), e, PassedAfter(s, a, e, last))
  {
    var t := Do(s, a);
    if Seeded(t) {
      EventualAfter(s, a);
      if a.Publish? {
        PassedPublish(s, a.op, e, last);
      } else if ByServer(a) {
        if last.None? { EntryStep(s, a, Eventual(s), e); }
      } else if !a.ReadSnapshot? && last.None? && e in s.rows {
        SameEntry(s, t, Eventual(s), e);
      }
    }
  }

  lemma {:induction false} PassedAlways(acts: seq<Action>, states: seq<State>, n: nat, e: Id)
    requires Run(acts, states) && n <= |acts|
    ensures PassedOk(states[n], e, LastPassed(acts, states, n, e))
    decreases n
  {
    if n > 0 {
      PassedAlways(acts, states, n - 1, e);
      BaseAlways(acts, states, n - 1);
      assert Steps(states[n - 1], acts[n - 1], states[n - 1 + 1]);
      PassedStep(states[n - 1], acts[n - 1], e, LastPassed(acts, states, n - 1, e));
    }
  }
}
