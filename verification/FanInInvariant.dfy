/** What every step of the fan-in keeps. */
module FanInInvariant {
  import opened Options
  import opened Entries
  import opened Forest
  import opened Batches
  import opened FanIn

  // ---------------------------------------------------------------- components

  /** The i-th member of a batch: stamped, on the spine, under the member before it. */
  ghost predicate MemberOk(m: Forest, d: Dispatch, b: nat, i: nat)
    requires i < |d.members|
  {
    && d.members[i] in m && !m[d.members[i]].isSide
    && StampOf(m[d.members[i]].payload) == Some(Batch(b, d.size))
    && m[d.members[i]].parent == Some(if i == 0 then d.anchor else d.members[i - 1])
  }

  ghost predicate DispatchOk(m: Forest, d: Dispatch, b: nat) {
    && d.size > 0 && |d.members| <= d.size
    && d.anchor in m && StampOf(m[d.anchor].payload) == None
    && Sorted(m, d.members)
    && (forall i | 0 <= i < |d.members| :: MemberOk(m, d, b, i))
  }

  /** A stamp names a batch that lists the entry. */
  ghost predicate StampOk(m: Forest, bs: map<nat, Dispatch>, a: Id)
    requires a in m
  {
    var stamp := StampOf(m[a].payload);
    stamp.Some? ==> stamp.value.id in bs && bs[stamp.value.id].size == stamp.value.size && a in bs[stamp.value.id].members
  }

  ghost predicate RowsOk(m: Forest, bs: map<nat, Dispatch>) {
    && WellFormed(m)
    && (forall b | b in bs :: DispatchOk(m, bs[b], b))
    && (forall a | a in m :: StampOk(m, bs, a))
  }

  ghost predicate StampIs(p: Payload, batch: Option<Batch>) {
    p.ToolInvocation? && StampOf(p) == batch
  }

  ghost predicate PhaseOk(phase: Phase, batch: Option<Batch>) {
    match phase
    case Approving(stored) => ParseToolBatch(stored) == batch
    case Writing(patch, fetched, _) =>
      StampIs(fetched, batch) && (patch.parameters.Some? ==> ParseToolBatch(patch.parameters.value) == batch)
    case _ => true
  }

  /** The flow knows the stamp of its entry, and so does whatever it read or will write. */
  ghost predicate FlowOk(m: Forest, bs: map<nat, Dispatch>, f: Flow) {
    && f.entry in m && StampIs(m[f.entry].payload, f.batch) && PhaseOk(f.phase, f.batch)
    && (f.batch.Some? ==> f.batch.value.id in bs && (bs[f.batch.value.id].continues ==> f.continues))
  }

  ghost predicate CheckOk(m: Forest, bs: map<nat, Dispatch>, c: Check) {
    && c.entry in m && StampIs(m[c.entry].payload, c.batch)
    && (c.batch.Some? ==> c.batch.value.id in bs && c.batch.value.size == bs[c.batch.value.id].size)
  }

  predicate Complete(d: Dispatch) {
    d.members != [] && |d.members| == d.size
  }

  function Last(d: Dispatch): Id
    requires d.members != []
  {
    d.members[|d.members| - 1]
  }

  /** Where a check that passed its gate continues: the last member of the batch. */
  ghost predicate AnchorIs(bs: map<nat, Dispatch>, c: Check, anchor: Id) {
    if c.batch.Some? then
      c.batch.value.id in bs && Complete(bs[c.batch.value.id]) && anchor == Last(bs[c.batch.value.id])
    else anchor == c.entry
  }

  ghost predicate CurrentOk(m: Forest, bs: map<nat, Dispatch>, cur: Current) {
    match cur
    case Idle => true
    case AtGate(c) => CheckOk(m, bs, c) && c.batch.Some?
    case AtTail(c) => CheckOk(m, bs, c) && c.batch.Some? && Complete(bs[c.batch.value.id])
    case AtChild(c, anchor) => CheckOk(m, bs, c) && AnchorIs(bs, c, anchor)
    case AtInsert(c, anchor) => CheckOk(m, bs, c) && AnchorIs(bs, c, anchor)
  }

  ghost predicate ContOk(m: Forest, bs: map<nat, Dispatch>, k: Cont) {
    && k.child in m && m[k.child].parent == Some(k.anchor) && !m[k.child].isSide && StampOf(m[k.child].payload) == None
    && CheckOk(m, bs, k.check) && AnchorIs(bs, k.check, k.anchor)
  }

  /** Only the first continuation at an anchor can be unforced, and none comes before the one
      that a check is about to create. */
  ghost predicate FirstUnforced(conts: seq<Cont>, cur: Current) {
    && (forall i, j | 0 <= i < j < |conts| && conts[i].anchor == conts[j].anchor :: conts[j].check.forced)
    && (cur.AtInsert? && !cur.check.forced ==> forall i | 0 <= i < |conts| :: conts[i].anchor != cur.anchor)
  }

  ghost predicate OriginOk(m: Forest, foreign: set<Id>, conts: seq<Cont>, a: Id)
    requires a in m
  {
    a in foreign || StampOf(m[a].payload).Some? || exists i :: 0 <= i < |conts| && conts[i].child == a
  }

  // ---------------------------------------------------------------- counting

  predicate Of(c: Check, b: nat) {
    c.batch.Some? && c.batch.value.id == b
  }

  predicate ForcedOf(c: Check, b: nat) {
    c.forced && Of(c, b)
  }

  /** Forced checks for b in a list of checks. */
  function Forced(q: seq<Check>, b: nat): nat {
    if q == [] then 0 else Forced(q[..|q| - 1], b) + (if ForcedOf(q[|q| - 1], b) then 1 else 0)
  }

  function ForcedConts(q: seq<Cont>, b: nat): nat {
    if q == [] then 0 else ForcedConts(q[..|q| - 1], b) + (if ForcedOf(q[|q| - 1].check, b) then 1 else 0)
  }

  function ForcedNow(cur: Current, b: nat): nat {
    if !cur.Idle? && ForcedOf(cur.check, b) then 1 else 0
  }

  ghost predicate CountOk(s: State, b: nat) {
    ForcedConts(s.conts, b) + Forced(s.queue, b) + ForcedNow(s.current, b) <= Forced(s.asked, b)
  }

  lemma {:induction false} ForcedMore(q: seq<Check>, c: Check, b: nat)
    ensures Forced(q + [c], b) == Forced(q, b) + (if ForcedOf(c, b) then 1 else 0)
  {
    assert (q + [c])[..|q|] == q;
  }

  lemma {:induction false} ForcedFront(q: seq<Check>, b: nat)
    requires q != []
    ensures Forced(q, b) == Forced(q[1..], b) + (if ForcedOf(q[0], b) then 1 else 0)
    decreases |q|
  {
    if |q| == 1 {
      assert q[..0] == [] == q[1..];
    } else {
      var f := q[..|q| - 1];
      ForcedFront(f, b);
      assert f[1..] == q[1..][..|q[1..]| - 1];
    }
  }

  // ---------------------------------------------------------------- liveness

  ghost predicate AllResolved(m: Forest, d: Dispatch) {
    Complete(d) && forall x | x in d.members :: x in m && Resolved(m[x].payload)
  }

  predicate OwesTo(f: Flow, b: nat) {
    f.batch.Some? && f.batch.value.id == b && Owes(f)
  }

  ghost predicate FlowOwes(flows: map<FlowId, Flow>, b: nat) {
    exists f :: f in flows && OwesTo(flows[f], b)
  }

  ghost predicate Queued(q: seq<Check>, b: nat) {
    exists i :: 0 <= i < |q| && Of(q[i], b)
  }

  predicate AtWork(cur: Current, b: nat) {
    !cur.Idle? && Of(cur.check, b)
  }

  /** A check for b will still run, or is running. */
  ghost predicate Pending(s: State, b: nat) {
    FlowOwes(s.flows, b) || Queued(s.queue, b) || AtWork(s.current, b)
  }

  /** A batch that wants a continuation, and whose members are all terminal, has none, and no check
      that could create one is outstanding. */
  ghost predicate Stranded(s: State, b: nat) {
    && b in s.batches && s.batches[b].continues && AllResolved(s.rows, s.batches[b])
    && !HasSpineChild(s.rows, Last(s.batches[b])) && !Pending(s, b)
  }

  // ---------------------------------------------------------------- the invariant

  ghost predicate FlowsOk(s: State) {
    forall f | f in s.flows :: FlowOk(s.rows, s.batches, s.flows[f])
  }

  ghost predicate ChecksOk(s: State) {
    && (forall i | 0 <= i < |s.queue| :: CheckOk(s.rows, s.batches, s.queue[i]))
    && CurrentOk(s.rows, s.batches, s.current)
  }

  ghost predicate ContsOk(s: State) {
    && (forall i | 0 <= i < |s.conts| :: ContOk(s.rows, s.batches, s.conts[i]))
    && FirstUnforced(s.conts, s.current)
    && (forall a | a in s.rows :: OriginOk(s.rows, s.foreign, s.conts, a))
  }

  ghost predicate Safe(s: State) {
    RowsOk(s.rows, s.batches) && FlowsOk(s) && ChecksOk(s) && ContsOk(s)
  }

  ghost predicate Inv(s: State) {
    Safe(s) && forall b :: CountOk(s, b)
  }

  // ---------------------------------------------------------------- growth

  /** Rows keep their place and their stamp. */
  ghost predicate KeptRow(r: Row, t: Row) {
    && r.index == t.index && r.parent == t.parent && r.isSide == t.isSide
    && StampOf(r.payload) == StampOf(t.payload) && (r.payload.ToolInvocation? <==> t.payload.ToolInvocation?)
  }

  ghost predicate Kept(m: Forest, n: Forest) {
    forall a | a in m :: a in n && KeptRow(m[a], n[a])
  }

  ghost predicate GrownOne(d: Dispatch, e: Dispatch) {
    && d.size == e.size && d.continues == e.continues && d.anchor == e.anchor && d.members <= e.members
    && (Complete(d) ==> d == e)
  }

  ghost predicate Grown(bs: map<nat, Dispatch>, cs: map<nat, Dispatch>) {
    forall b | b in bs :: b in cs && GrownOne(bs[b], cs[b])
  }

  lemma {:induction false} DispatchKept(m: Forest, n: Forest, d: Dispatch, b: nat)
    requires DispatchOk(m, d, b) && Kept(m, n)
    ensures DispatchOk(n, d, b)
  {
    assert KeptRow(m[d.anchor], n[d.anchor]);
    forall i | 0 <= i < |d.members| ensures MemberOk(n, d, b, i) {
      assert MemberOk(m, d, b, i) && KeptRow(m[d.members[i]], n[d.members[i]]);
    }
    forall i, j | 0 <= i < j < |d.members| ensures n[d.members[i]].index < n[d.members[j]].index {
      assert KeptRow(m[d.members[i]], n[d.members[i]]) && KeptRow(m[d.members[j]], n[d.members[j]]);
    }
  }

  lemma {:induction false} RowsKept(m: Forest, n: Forest, bs: map<nat, Dispatch>)
    requires RowsOk(m, bs) && Kept(m, n) && WellFormed(n)
    requires forall a | a in n && a !in m :: StampOf(n[a].payload) == None
    ensures RowsOk(n, bs)
  {
    forall b | b in bs ensures DispatchOk(n, bs[b], b) {
      DispatchKept(m, n, bs[b], b);
    }
    forall a | a in n ensures StampOk(n, bs, a) {
      if a in m { assert StampOk(m, bs, a) && KeptRow(m[a], n[a]); }
    }
  }

  lemma {:induction false} FlowKept(m: Forest, n: Forest, bs: map<nat, Dispatch>, cs: map<nat, Dispatch>, f: Flow)
    requires FlowOk(m, bs, f) && Kept(m, n) && Grown(bs, cs)
    ensures FlowOk(n, cs, f)
  {
    assert KeptRow(m[f.entry], n[f.entry]);
    if f.batch.Some? { assert GrownOne(bs[f.batch.value.id], cs[f.batch.value.id]); }
  }

  lemma {:induction false} CheckKept(m: Forest, n: Forest, bs: map<nat, Dispatch>, cs: map<nat, Dispatch>, c: Check)
    requires CheckOk(m, bs, c) && Kept(m, n) && Grown(bs, cs)
    ensures CheckOk(n, cs, c)
  {
    assert KeptRow(m[c.entry], n[c.entry]);
    if c.batch.Some? { assert GrownOne(bs[c.batch.value.id], cs[c.batch.value.id]); }
  }

  lemma {:induction false} AnchorKept(bs: map<nat, Dispatch>, cs: map<nat, Dispatch>, c: Check, anchor: Id)
    requires AnchorIs(bs, c, anchor) && Grown(bs, cs)
    ensures AnchorIs(cs, c, anchor)
  {
    if c.batch.Some? { assert GrownOne(bs[c.batch.value.id], cs[c.batch.value.id]); }
  }

  lemma {:induction false} CurrentKept(m: Forest, n: Forest, bs: map<nat, Dispatch>, cs: map<nat, Dispatch>, cur: Current)
    requires CurrentOk(m, bs, cur) && Kept(m, n) && Grown(bs, cs)
    ensures CurrentOk(n, cs, cur)
  {
    match cur
    case Idle =>
    case AtGate(c) => CheckKept(m, n, bs, cs, c);
    case AtTail(c) => CheckKept(m, n, bs, cs, c);
      assert GrownOne(bs[c.batch.value.id], cs[c.batch.value.id]);
    case AtChild(c, anchor) => CheckKept(m, n, bs, cs, c); AnchorKept(bs, cs, c, anchor);
    case AtInsert(c, anchor) => CheckKept(m, n, bs, cs, c); AnchorKept(bs, cs, c, anchor);
  }

  lemma {:induction false} ContKept(m: Forest, n: Forest, bs: map<nat, Dispatch>, cs: map<nat, Dispatch>, k: Cont)
    requires ContOk(m, bs, k) && Kept(m, n) && Grown(bs, cs)
    ensures ContOk(n, cs, k)
  {
    assert KeptRow(m[k.child], n[k.child]);
    CheckKept(m, n, bs, cs, k.check);
    AnchorKept(bs, cs, k.check, k.anchor);
  }

  /** Flows, checks and continuations that are carried over stay sound as rows and batches grow. */
  lemma {:induction false} Carried(s: State, t: State)
    requires FlowsOk(s) && ChecksOk(s) && Kept(s.rows, t.rows) && Grown(s.batches, t.batches)
    ensures forall f | f in s.flows :: FlowOk(t.rows, t.batches, s.flows[f])
    ensures forall i | 0 <= i < |s.queue| :: CheckOk(t.rows, t.batches, s.queue[i])
    ensures CurrentOk(t.rows, t.batches, s.current)
  {
    forall f | f in s.flows ensures FlowOk(t.rows, t.batches, s.flows[f]) {
      FlowKept(s.rows, t.rows, s.batches, t.batches, s.flows[f]);
    }
    forall i | 0 <= i < |s.queue| ensures CheckOk(t.rows, t.batches, s.queue[i]) {
      CheckKept(s.rows, t.rows, s.batches, t.batches, s.queue[i]);
    }
    CurrentKept(s.rows, t.rows, s.batches, t.batches, s.current);
  }

  lemma {:induction false} ContsCarried(s: State, t: State)
    requires ContsOk(s) && Kept(s.rows, t.rows) && Grown(s.batches, t.batches)
    requires t.conts == s.conts && s.foreign <= t.foreign
    requires t.current == s.current || (t.current.AtInsert? ==> t.current.check.forced)
    requires forall a | a in t.rows && a !in s.rows :: a in t.foreign || StampOf(t.rows[a].payload).Some?
    ensures ContsOk(t)
  {
    forall i | 0 <= i < |s.conts| ensures ContOk(t.rows, t.batches, t.conts[i]) {
      ContKept(s.rows, t.rows, s.batches, t.batches, s.conts[i]);
    }
    forall a | a in t.rows ensures OriginOk(t.rows, t.foreign, t.conts, a) {
      if a in s.rows { assert OriginOk(s.rows, s.foreign, s.conts, a) && KeptRow(s.rows[a], t.rows[a]); }
    }
  }

  lemma {:induction false} Same(m: Forest, bs: map<nat, Dispatch>)
    ensures Kept(m, m) && Grown(bs, bs)
  {
  }
}
