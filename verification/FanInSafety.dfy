/** Every step keeps the rows, flows, checks and continuations of the fan-in sound. */
module FanInSafety {
  import opened Options
  import opened Entries
  import opened Forest
  import opened Batches
  import opened FanIn
  import opened FanInInvariant

  // ---------------------------------------------------------------- rows

  lemma {:induction false} AppendIsKept(m: Forest, id: Id, row: Row)
    requires WellFormed(m) && MayAppend(m, id, row)
    ensures Kept(m, m[id := row]) && WellFormed(m[id := row])
  {
    AppendKeeps(m, id, row);
  }

  lemma {:induction false} MergeIsKept(m: Forest, id: Id, p: Payload)
    requires WellFormed(m) && id in m && (m[id].payload.ToolInvocation? <==> p.ToolInvocation?)
    requires StampOf(p) == StampOf(m[id].payload)
    ensures Kept(m, m[id := m[id].(payload := p)]) && WellFormed(m[id := m[id].(payload := p)])
  {
    MergeKeeps(m, id, p);
  }

  lemma {:induction false} SweepIsKept(m: Forest)
    requires WellFormed(m)
    ensures Kept(m, Sweep(m)) && WellFormed(Sweep(m))
  {
    var n := Sweep(m);
    forall a | a in n ensures RowOk(n, a) {
      assert RowOk(m, a);
    }
    StoredRows(n);
  }

  lemma {:induction false} MemberLast(n: Forest, d: Dispatch, b: nat, id: Id, index: int, toolId: string, parameters: Params)
    requires id in n && n[id] == MemberRow(d, b, index, toolId, parameters)
    ensures MemberOk(n, d.(members := d.members + [id]), b, |d.members|)
  {
    assert StampOf(n[id].payload) == Some(Batch(b, d.size));
  }

  lemma {:induction false} MemberCarried(n: Forest, d: Dispatch, b: nat, id: Id, i: nat)
    requires i < |d.members| && MemberOk(n, d, b, i)
    ensures MemberOk(n, d.(members := d.members + [id]), b, i)
  {
  }

  /** The chain of a batch grows at its end. */
  lemma {:induction false} MemberAdded(m: Forest, d: Dispatch, b: nat, id: Id, index: int, toolId: string, parameters: Params)
    requires WellFormed(m) && DispatchOk(m, d, b) && |d.members| < d.size
    requires MayAppend(m, id, MemberRow(d, b, index, toolId, parameters))
    ensures var n := m[id := MemberRow(d, b, index, toolId, parameters)];
            Kept(m, n) && WellFormed(n) && DispatchOk(n, d.(members := d.members + [id]), b)
  {
    var row := MemberRow(d, b, index, toolId, parameters);
    var n, e := m[id := row], d.(members := d.members + [id]);
    AppendIsKept(m, id, row);
    DispatchKept(m, n, d, b);
    SortedMore(n, d.members, id);
    MemberLast(n, d, b, id, index, toolId, parameters);
    forall i | 0 <= i < |e.members| ensures MemberOk(n, e, b, i) {
      if i < |d.members| { MemberCarried(n, d, b, id, i); }
    }
  }

  lemma {:induction false} DispatchGrows(bs: map<nat, Dispatch>, b: nat, id: Id)
    requires b in bs && |bs[b].members| < bs[b].size
    ensures Grown(bs, bs[b := bs[b].(members := bs[b].members + [id])])
  {
    assert GrownOne(bs[b], bs[b].(members := bs[b].members + [id]));
  }

  lemma {:induction false} RowsWithMember(m: Forest, bs: map<nat, Dispatch>, b: nat, id: Id, row: Row, index: int,
                         toolId: string, parameters: Params)
    requires RowsOk(m, bs) && b in bs && |bs[b].members| < bs[b].size && MayAppend(m, id, row)
    requires row == MemberRow(bs[b], b, index, toolId, parameters)
    ensures RowsOk(m[id := row], bs[b := bs[b].(members := bs[b].members + [id])]) && Kept(m, m[id := row])
  {
    var n, cs := m[id := row], bs[b := bs[b].(members := bs[b].members + [id])];
    assert DispatchOk(m, bs[b], b);
    MemberAdded(m, bs[b], b, id, index, toolId, parameters);
    MemberLast(n, bs[b], b, id, index, toolId, parameters);
    RowsRegrown(m, n, bs, cs, b, id);
  }

  lemma {:induction false} RowsRegrown(m: Forest, n: Forest, bs: map<nat, Dispatch>, cs: map<nat, Dispatch>, b: nat, id: Id)
    requires RowsOk(m, bs) && b in bs && Kept(m, n) && WellFormed(n) && n.Keys == m.Keys + {id}
    requires cs == bs[b := bs[b].(members := bs[b].members + [id])] && DispatchOk(n, cs[b], b)
    requires id in n && StampOf(n[id].payload) == Some(Batch(b, bs[b].size))
    ensures RowsOk(n, cs)
  {
    forall c | c in cs ensures DispatchOk(n, cs[c], c) {
      if c != b { DispatchKept(m, n, bs[c], c); }
    }
    forall x | x in n ensures StampOk(n, cs, x) {
      if x in m {
        StampCarried(m, n, bs, cs, b, id, x);
      } else {
        assert x == id && id in cs[b].members;
      }
    }
  }

  lemma {:induction false} StampCarried(m: Forest, n: Forest, bs: map<nat, Dispatch>, cs: map<nat, Dispatch>, b: nat, id: Id, x: Id)
    requires x in m && StampOk(m, bs, x) && Kept(m, n) && b in bs
    requires cs == bs[b := bs[b].(members := bs[b].members + [id])]
    ensures StampOk(n, cs, x) && KeptRow(m[x], n[x])
  {
    assert KeptRow(m[x], n[x]);
  }

  lemma {:induction false} SafeAppendMember(s: State, a: Action)
    requires Safe(s) && a.AppendMember? && Enabled(s, a)
    ensures Safe(Do(s, a))
  {
    var t, b := Do(s, a), a.batchId;
    var row := MemberRow(s.batches[b], b, a.index, a.toolId, a.parameters);
    RowsWithMember(s.rows, s.batches, b, a.id, row, a.index, a.toolId, a.parameters);
    DispatchGrows(s.batches, b, a.id);
    assert StampOf(row.payload) == Some(Batch(b, s.batches[b].size));
    Carried(s, t);
    ContsCarried(s, t);
  }

  lemma {:induction false} SafeForeign(s: State, a: Action)
    requires Safe(s) && a.Foreign? && Enabled(s, a)
    ensures Safe(Do(s, a))
  {
    var t := Do(s, a);
    AppendIsKept(s.rows, a.id, a.row);
    RowsKept(s.rows, t.rows, s.batches);
    Same(s.rows, s.batches);
    Carried(s, t);
    ContsCarried(s, t);
  }

  lemma {:induction false} SafeMerge(s: State, a: Action)
    requires Safe(s) && a.MergeOther? && Enabled(s, a)
    ensures Safe(Do(s, a))
  {
    var t := Do(s, a);
    MergeIsKept(s.rows, a.id, Merged(s.rows[a.id].payload, a.patch));
    RowsKept(s.rows, t.rows, s.batches);
    Same(s.rows, s.batches);
    Carried(s, t);
    ContsCarried(s, t);
  }

  lemma {:induction false} SafeBegin(s: State, a: Action)
    requires Safe(s) && a.Begin? && Enabled(s, a)
    ensures Safe(Do(s, a))
  {
    var t := Do(s, a);
    assert Grown(s.batches, t.batches);
    Same(s.rows, s.batches);
    forall x | x in t.rows ensures StampOk(t.rows, t.batches, x) {
      assert StampOk(s.rows, s.batches, x);
    }
    forall b | b in t.batches ensures DispatchOk(t.rows, t.batches[b], b) {
      if b != a.batchId { assert DispatchOk(s.rows, s.batches[b], b); }
    }
    Carried(s, t);
    ContsCarried(s, t);
  }

  // ---------------------------------------------------------------- flows

  predicate StartsFlow(a: Action) {
    a.StartMember? || a.Approve? || a.Deny? || a.Retry?
  }

  lemma {:induction false} SafeStart(s: State, a: Action)
    requires Safe(s) && StartsFlow(a) && Enabled(s, a)
    ensures Safe(Do(s, a))
  {
    var t := Do(s, a);
    Same(s.rows, s.batches);
    assert StampOk(s.rows, s.batches, a.entry);
    assert FlowOk(s.rows, s.batches, t.flows[a.flow]);
    forall f | f in t.flows ensures FlowOk(t.rows, t.batches, t.flows[f]) {
      assert f != a.flow ==> FlowOk(s.rows, s.batches, s.flows[f]);
    }
    ContsCarried(s, t);
  }

  /** Whatever a flow writes carries the stamp of its entry. */
  lemma {:induction false} WritesStamp(phase: Phase, batch: Option<Batch>, patch: Patch, after: After)
    requires MayWrite(phase, batch, patch, after) && PhaseOk(phase, batch)
    ensures patch.parameters.Some? ==> ParseToolBatch(patch.parameters.value) == batch
  {
    if Rewrites(batch, patch.parameters) {
      RewriteStamp(batch, patch.parameters);
    } else if phase.Approving? && EditsOf(phase.stored, patch.parameters) {
      var edited: Params :| patch.parameters == Some(EditedParameters(phase.stored, edited));
      EditKeepsStamp(phase.stored, edited);
    }
  }

  lemma {:induction false} RewriteStamp(batch: Option<Batch>, q: Option<Params>)
    requires Rewrites(batch, q)
    ensures q.Some? && ParseToolBatch(q.value) == batch
  {
    var p: Option<Params>, raw: Value, request: Option<string>, note: Option<string> :|
      && q == Some(ToParametersPayload(p, raw, request, note, batch))
      && (batch.None? && p.Some? ==> STAMP !in p.value);
    if batch.Some? {
      PayloadKeepsStamp(p, raw, request, note, batch.value);
    } else {
      assert STAMP !in ToParametersPayload(p, raw, request, note, batch);
    }
  }

  lemma {:induction false} SafeFetch(s: State, a: Action)
    requires Safe(s) && a.Fetch? && Enabled(s, a)
    ensures Safe(Do(s, a))
  {
    var t, f := Do(s, a), s.flows[a.flow];
    Same(s.rows, s.batches);
    assert FlowOk(s.rows, s.batches, f);
    WritesStamp(f.phase, f.batch, a.patch, a.after);
    assert FlowOk(s.rows, s.batches, t.flows[a.flow]);
    forall g | g in t.flows ensures FlowOk(t.rows, t.batches, t.flows[g]) {
      assert g != a.flow ==> FlowOk(s.rows, s.batches, s.flows[g]);
    }
    ContsCarried(s, t);
  }

  lemma {:induction false} MergedStamp(p: Payload, patch: Patch, batch: Option<Batch>)
    requires StampIs(p, batch) && (patch.parameters.Some? ==> ParseToolBatch(patch.parameters.value) == batch)
    ensures StampIs(Merged(p, patch), batch)
  {
  }

  lemma {:induction false} FlowAdvanced(m: Forest, bs: map<nat, Dispatch>, f: Flow, after: After)
    requires FlowOk(m, bs, f) && after != ThenEnds
    ensures FlowOk(m, bs, f.(phase := PhaseAfter(after)))
  {
  }

  lemma {:induction false} SafeWrite(s: State, a: Action)
    requires Safe(s) && a.Write? && Enabled(s, a)
    ensures Safe(Do(s, a))
  {
    var t, f := Do(s, a), s.flows[a.flow];
    assert FlowOk(s.rows, s.batches, f);
    MergedStamp(f.phase.fetched, f.phase.patch, f.batch);
    MergeIsKept(s.rows, f.entry, Merged(f.phase.fetched, f.phase.patch));
    RowsKept(s.rows, t.rows, s.batches);
    Same(s.rows, s.batches);
    Carried(s, t);
    if f.phase.after != ThenEnds {
      FlowAdvanced(t.rows, t.batches, f, f.phase.after);
    }
    forall g | g in t.flows ensures FlowOk(t.rows, t.batches, t.flows[g]) {
      assert g in s.flows && FlowOk(t.rows, t.batches, s.flows[g]);
      assert t.flows[g] == s.flows[g] || (f.phase.after != ThenEnds && t.flows[g] == f.(phase := PhaseAfter(f.phase.after)));
    }
    ContsCarried(s, t);
  }

  predicate EndsFlow(a: Action) {
    a.Resolve? || a.Drop?
  }

  lemma {:induction false} SafeEnd(s: State, a: Action)
    requires Safe(s) && EndsFlow(a) && Enabled(s, a)
    ensures Safe(Do(s, a))
  {
    var t, f := Do(s, a), s.flows[a.flow];
    Same(s.rows, s.batches);
    assert FlowOk(s.rows, s.batches, f);
    assert StampOk(s.rows, s.batches, f.entry);
    assert CheckOk(s.rows, s.batches, CheckOf(f));
    forall i | 0 <= i < |t.queue| ensures CheckOk(t.rows, t.batches, t.queue[i]) {
      assert i < |s.queue| ==> CheckOk(s.rows, s.batches, s.queue[i]);
    }
    ContsCarried(s, t);
  }

  lemma {:induction false} SafeRestart(s: State)
    requires Safe(s)
    ensures Safe(Do(s, Restart))
  {
    var t := Do(s, Restart);
    SweepIsKept(s.rows);
    RowsKept(s.rows, t.rows, s.batches);
    Same(s.rows, s.batches);
    ContsCarried(s, t);
  }

  // ---------------------------------------------------------------- checks

  /** The query counts the listed members, and nothing else. */
  lemma {:induction false} MembersAre(m: Forest, bs: map<nat, Dispatch>, b: nat)
    requires RowsOk(m, bs) && b in bs
    ensures Members(m, b) == Elements(bs[b].members) && |Members(m, b)| == |bs[b].members|
  {
    var d := bs[b];
    assert DispatchOk(m, d, b);
    forall x | x in Members(m, b) ensures x in d.members {
      assert StampOk(m, bs, x);
    }
    forall x | x in d.members ensures x in Members(m, b) {
      var i :| 0 <= i < |d.members| && d.members[i] == x;
      assert MemberOk(m, d, b, i);
    }
    ElementsCard(m, d.members);
  }

  lemma {:induction false} ElementsCard(m: Forest, q: seq<Id>)
    requires Sorted(m, q)
    ensures |Elements(q)| == |q|
    decreases |q|
  {
    if q == [] {
      assert Elements(q) == {};
    } else {
      var f, z := q[..|q| - 1], q[|q| - 1];
      ElementsCard(m, f);
      assert q == f + [z];
      assert Elements(q) == Elements(f) + {z};
      assert z !in Elements(f);
    }
  }

  /** The gate opens exactly when the whole batch has been dispatched and every member of it is
      resolved. */
  lemma {:induction false} GateExact(m: Forest, bs: map<nat, Dispatch>, b: nat)
    requires RowsOk(m, bs) && b in bs
    ensures |ResolvedMembers(m, b)| >= bs[b].size <==> AllResolved(m, bs[b])
  {
    var all, done, d := Members(m, b), ResolvedMembers(m, b), bs[b];
    assert DispatchOk(m, d, b);
    MembersAre(m, bs, b);
    assert done <= all;
    SubsetCard(done, all);
    if |done| >= d.size {
      assert done == all;
      forall x | x in d.members ensures x in m && Resolved(m[x].payload) {
        assert x in Elements(d.members);
        assert x in done;
      }
    }
    if AllResolved(m, d) {
      forall x | x in all ensures x in done { assert x in d.members; }
      assert done == all;
    }
  }

  /** The tail query finds the last member of the chain. */
  lemma {:induction false} TailExact(m: Forest, bs: map<nat, Dispatch>, b: nat)
    requires RowsOk(m, bs) && b in bs && bs[b].members != []
    ensures TailOf(m, b) == Some(Last(bs[b]))
  {
    var d := bs[b];
    assert DispatchOk(m, d, b);
    MembersAre(m, bs, b);
    var z := Last(d);
    assert z in Elements(d.members);
    forall x | x in Members(m, b) ensures m[x].index <= m[z].index {
      assert x in d.members;
      var i :| 0 <= i < |d.members| && d.members[i] == x;
    }
    assert IsNewest(m, Members(m, b), z);
    NewestUnique(m, Members(m, b), z, Newest(m, Members(m, b)));
  }

  lemma {:induction false} SafeTakeCheck(s: State)
    requires Safe(s) && Enabled(s, TakeCheck)
    ensures Safe(Do(s, TakeCheck))
  {
    var t := Do(s, TakeCheck);
    Same(s.rows, s.batches);
    assert CheckOk(s.rows, s.batches, s.queue[0]);
    forall i | 0 <= i < |t.queue| ensures CheckOk(t.rows, t.batches, t.queue[i]) {
      assert CheckOk(s.rows, s.batches, s.queue[i + 1]);
    }
    ContsCarried(s, t);
  }

  lemma {:induction false} SafeQuery(s: State, a: Action)
    requires Safe(s) && (a.Gate? || a.Tail? || a.DropCheck?) && Enabled(s, a)
    ensures Safe(Do(s, a))
  {
    var t, c := Do(s, a), s.current.check;
    Same(s.rows, s.batches);
    if a.Gate? {
      GateExact(s.rows, s.batches, c.batch.value.id);
    } else if a.Tail? {
      TailExact(s.rows, s.batches, c.batch.value.id);
    }
    ContsCarried(s, t);
  }

  lemma {:induction false} ContIsChild(m: Forest, bs: map<nat, Dispatch>, k: Cont)
    requires ContOk(m, bs, k)
    ensures HasSpineChild(m, k.anchor)
  {
    assert k.child in SpineChildren(m, Some(k.anchor));
  }

  /** Without a spine child, an anchor has no continuation yet. */
  lemma {:induction false} NoneYet(s: State, anchor: Id)
    requires ContsOk(s) && !HasSpineChild(s.rows, anchor)
    ensures forall i | 0 <= i < |s.conts| :: s.conts[i].anchor != anchor
  {
    forall i | 0 <= i < |s.conts| ensures s.conts[i].anchor != anchor {
      ContIsChild(s.rows, s.batches, s.conts[i]);
    }
  }

  lemma {:induction false} SafeChild(s: State)
    requires Safe(s) && Enabled(s, Child)
    ensures Safe(Do(s, Child))
  {
    var t, c := Do(s, Child), s.current.check;
    Same(s.rows, s.batches);
    if !c.forced && !HasSpineChild(s.rows, s.current.anchor) {
      NoneYet(s, s.current.anchor);
    }
    ContsCarried(s.(current := Idle), t.(current := Idle));
    forall a | a in t.rows ensures OriginOk(t.rows, t.foreign, t.conts, a) {
      assert OriginOk(s.rows, s.foreign, s.conts, a);
    }
  }

  lemma {:induction false} ContsMore(conts: seq<Cont>, cur: Current, k: Cont)
    requires FirstUnforced(conts, cur) && cur.AtInsert? && k.check == cur.check && k.anchor == cur.anchor
    ensures FirstUnforced(conts + [k], Idle)
  {
  }

  lemma {:induction false} SafeInsert(s: State, a: Action)
    requires Safe(s) && a.Insert? && Enabled(s, a)
    ensures Safe(Do(s, a))
  {
    var t, c := Do(s, a), s.current.check;
    AppendIsKept(s.rows, a.id, ContRow(s.current.anchor, a.index, a.payload));
    RowsKept(s.rows, t.rows, s.batches);
    Same(s.rows, s.batches);
    Carried(s, t);
    var k := Cont(c, s.current.anchor, a.id);
    ContsMore(s.conts, s.current, k);
    forall i | 0 <= i < |t.conts| ensures ContOk(t.rows, t.batches, t.conts[i]) {
      if i < |s.conts| {
        ContKept(s.rows, t.rows, s.batches, t.batches, s.conts[i]);
      }
    }
    forall x | x in t.rows ensures OriginOk(t.rows, t.foreign, t.conts, x) {
      if x in s.rows {
        OriginMore(s, x, k);
      } else {
        assert t.conts[|s.conts|].child == x;
      }
    }
  }

  lemma {:induction false} OriginMore(s: State, x: Id, k: Cont)
    requires x in s.rows && OriginOk(s.rows, s.foreign, s.conts, x)
    ensures OriginOk(s.rows, s.foreign, s.conts + [k], x)
  {
    if x !in s.foreign && StampOf(s.rows[x].payload).None? {
      var i :| 0 <= i < |s.conts| && s.conts[i].child == x;
      assert (s.conts + [k])[i].child == x;
    }
  }

  predicate ByFlow(a: Action) {
    StartsFlow(a) || a.Fetch? || a.Write? || EndsFlow(a)
  }

  predicate ByCheck(a: Action) {
    a.TakeCheck? || a.Gate? || a.Tail? || a.Child? || a.Insert? || a.DropCheck?
  }

  lemma {:induction false} SafeFlow(s: State, a: Action)
    requires Safe(s) && ByFlow(a) && Enabled(s, a)
    ensures Safe(Do(s, a))
  {
    if StartsFlow(a) {
      SafeStart(s, a);
    } else if a.Fetch? {
      SafeFetch(s, a);
    } else if a.Write? {
      SafeWrite(s, a);
    } else {
      SafeEnd(s, a);
    }
  }

  lemma {:induction false} SafeCheck(s: State, a: Action)
    requires Safe(s) && ByCheck(a) && Enabled(s, a)
    ensures Safe(Do(s, a))
  {
    if a.TakeCheck? {
      SafeTakeCheck(s);
    } else if a.Child? {
      SafeChild(s);
    } else if a.Insert? {
      SafeInsert(s, a);
    } else {
      SafeQuery(s, a);
    }
  }

  lemma {:induction false} SafeAbort(s: State, scope: nat)
    requires Safe(s)
    ensures Safe(Do(s, Abort(scope)))
  {
  }

  lemma {:induction false} SafeStep(s: State, a: Action)
    requires Safe(s) && Enabled(s, a)
    ensures Safe(Do(s, a))
  {
    if ByFlow(a) {
      SafeFlow(s, a);
    } else if ByCheck(a) {
      SafeCheck(s, a);
    } else if a.Foreign? {
      SafeForeign(s, a);
    } else if a.MergeOther? {
      SafeMerge(s, a);
    } else if a.Begin? {
      SafeBegin(s, a);
    } else if a.AppendMember? {
      SafeAppendMember(s, a);
    } else if a.Restart? {
      SafeRestart(s);
    } else {
      SafeAbort(s, a.scope);
    }
  }
}
