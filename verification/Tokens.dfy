/** Token and cost totals of a conversation, re-summed from its thoughts. */
module Tokens {
  import opened Options
  import opened Entries
  import opened Forest
  import opened Split

  datatype Totals = Totals(prompt: int, cached: int, completion: int, costUsd: real, partial: bool)

  const ZERO := Totals(0, 0, 0, 0.0, false)

  /** Math.trunc: towards zero. */
  function Trunc(x: real): int {
    if x >= 0.0 then x.Floor else -((-x).Floor)
  }

  function Amount(field: Option<real>): int {
    match field
    case None => 0
    case Some(x) => Trunc(x)
  }

  function Positive(field: Option<real>): bool {
    field.Some? && field.value > 0.0
  }

  /** What one row adds; a billable turn without a cost makes the total partial. */
  function RowTotals(r: Row): Totals {
    if !r.payload.Thought? then ZERO
    else
      var u := r.payload.usage;
      Totals(Amount(u.prompt), Amount(u.cached), Amount(u.completion),
             if u.cost.Some? then u.cost.value else 0.0,
             u.cost.None? && (Positive(u.prompt) || Positive(u.completion)))
  }

  function Add(a: Totals, b: Totals): Totals {
    Totals(a.prompt + b.prompt, a.cached + b.cached, a.completion + b.completion,
           a.costUsd + b.costUsd, a.partial || b.partial)
  }

  lemma {:induction false} AddSwap(a: Totals, b: Totals, c: Totals)
    ensures Add(a, Add(b, c)) == Add(b, Add(a, c))
  {
  }

  lemma {:induction false} AddAssoc(a: Totals, b: Totals, c: Totals)
    ensures Add(a, Add(b, c)) == Add(Add(a, b), c)
  {
  }

  lemma {:induction false} AddZero(a: Totals)
    ensures Add(ZERO, a) == a
  {
  }

  lemma {:induction false} EmptyUnion(a: Bill, b: Bill)
    requires a.Keys == {}
    ensures a + b == b
  {
  }

  type Bill = map<Id, Totals>

  ghost function AnyKey(t: Bill): (k: Id)
    requires t.Keys != {}
    ensures k in t
  {
    var k :| k in t.Keys; k
  }

  /** The sum over all rows, whatever order the table lists them in. */
  ghost function Sum(t: Bill): Totals
    decreases t.Keys
  {
    if t.Keys == {} then ZERO else Add(t[AnyKey(t)], Sum(t - {AnyKey(t)}))
  }

  lemma {:induction false} SumPick(t: Bill, k: Id)
    requires k in t
    ensures Sum(t) == Add(t[k], Sum(t - {k}))
    decreases t.Keys
  {
    var j := AnyKey(t);
    if j != k {
      SumPick(t - {j}, k);
      SumPick(t - {k}, j);
      assert t - {j} - {k} == t - {k} - {j};
      AddSwap(t[j], t[k], Sum(t - {j} - {k}));
    }
  }

  lemma {:induction false} UnionWithout(a: Bill, b: Bill, k: Id)
    requires k in a && k !in b
    ensures (a + b) - {k} == (a - {k}) + b && (a + b)[k] == a[k]
  {
  }

  lemma {:induction false} SumUnionStep(a: Bill, b: Bill, k: Id, rest: Bill)
    requires a.Keys !! b.Keys && k in a && rest == a - {k}
    requires Sum(rest + b) == Add(Sum(rest), Sum(b))
    ensures Sum(a + b) == Add(Sum(a), Sum(b))
  {
    var all := a + b;
    UnionWithout(a, b, k);
    calc {
      Sum(all);
      { SumPick(all, k); }
      Add(a[k], Sum(rest + b));
      { AddAssoc(a[k], Sum(rest), Sum(b)); }
      Add(Add(a[k], Sum(rest)), Sum(b));
      { SumPick(a, k); }
      Add(Sum(a), Sum(b));
    }
  }

  lemma {:induction false} SumUnion(a: Bill, b: Bill)
    requires a.Keys !! b.Keys
    ensures Sum(a + b) == Add(Sum(a), Sum(b))
    decreases a.Keys
  {
    if a.Keys == {} {
      AddZero(Sum(b));
      EmptyUnion(a, b);
    } else {
      var k :| k in a;
      SumUnion(a - {k}, b);
      SumUnionStep(a, b, k, a - {k});
    }
  }

  ghost function BillOf(m: Forest): Bill {
    map a | a in m :: RowTotals(m[a])
  }

  ghost function TotalsOf(m: Forest): Totals {
    Sum(BillOf(m))
  }

  lemma {:induction false} BillAt(m: Forest, n: Forest, a: Id)
    requires a in m && a in n && m[a].payload == n[a].payload
    ensures a in BillOf(m) && a in BillOf(n) && BillOf(m)[a] == BillOf(n)[a]
  {
  }

  lemma {:induction false} BillUnion(t: Bill, a: Bill, b: Bill)
    requires a.Keys !! b.Keys && t.Keys == a.Keys + b.Keys
    requires forall k | k in a :: t[k] == a[k]
    requires forall k | k in b :: t[k] == b[k]
    ensures t == a + b
  {
  }

  lemma {:induction false} SplitBill(m: Forest, root: Id, q: seq<Id>)
    requires WellFormed(m) && root in m && IsIndexOrder(m, Moved(m, root), q)
    ensures var src, tgt := Remaining(m, Moved(m, root)), Renumbered(m, root, q);
            && BillOf(src).Keys !! BillOf(tgt).Keys
            && BillOf(m) == BillOf(src) + BillOf(tgt)
  {
    SplitKeepsForests(m, root, q);
    var src, tgt := Remaining(m, Moved(m, root)), Renumbered(m, root, q);
    var t, a, b := BillOf(m), BillOf(src), BillOf(tgt);
    forall k | k in a ensures t[k] == a[k] { BillAt(m, src, k); }
    forall k | k in b ensures t[k] == b[k] { BillAt(m, tgt, k); }
    BillUnion(t, a, b);
  }

  /** A field that is there, truncated, or nothing. */
  ghost predicate IsAmount(field: Option<real>, n: int) {
    match field
    case None => n == 0
    case Some(x) => if x >= 0.0 then n as real <= x < (n + 1) as real else (n - 1) as real < x <= n as real
  }

  lemma {:induction false} TruncIs(x: real)
    ensures x >= 0.0 ==> Trunc(x) as real <= x < (Trunc(x) + 1) as real
    ensures x <= 0.0 ==> (Trunc(x) - 1) as real < x <= Trunc(x) as real
  {
  }

  lemma {:induction false} AmountIs(field: Option<real>)
    ensures IsAmount(field, Amount(field))
  {
    if field.Some? { TruncIs(field.value); }
  }

  lemma {:induction false} SumAppend(t: Bill, k: Id, v: Totals)
    requires k !in t
    ensures Sum(t[k := v]) == Add(v, Sum(t))
  {
    SumPick(t[k := v], k);
    assert t[k := v] - {k} == t;
  }

  /** What a row adds to the totals s. */
  ghost predicate RowAdds(s: Totals, t: Totals, r: Row) {
    if r.payload.Thought? then
      && IsAmount(r.payload.usage.prompt, t.prompt - s.prompt) && IsAmount(r.payload.usage.cached, t.cached - s.cached)
      && IsAmount(r.payload.usage.completion, t.completion - s.completion)
      && t.costUsd == s.costUsd + (if r.payload.usage.cost.Some? then r.payload.usage.cost.value else 0.0)
      && (t.partial <==> s.partial || Unpriced(r))
    else t == s
  }

  lemma {:induction false} RowTotalsAdd(s: Totals, r: Row)
    ensures RowAdds(s, Add(RowTotals(r), s), r)
  {
    if r.payload.Thought? {
      AmountIs(r.payload.usage.prompt);
      AmountIs(r.payload.usage.cached);
      AmountIs(r.payload.usage.completion);
    }
  }

  /** One more row adds its truncated counts and its cost, if it is a thought, and nothing else. The
      cost becomes partial if the thought is unpriced. */
  lemma {:induction false} TotalsMore(m: Forest, k: Id, r: Row)
    requires k !in m
    ensures RowAdds(TotalsOf(m), TotalsOf(m[k := r]), r)
  {
    assert BillOf(m[k := r]) == BillOf(m)[k := RowTotals(r)];
    SumAppend(BillOf(m), k, RowTotals(r));
    RowTotalsAdd(TotalsOf(m), r);
  }

  lemma {:induction false} NoTotals()
    ensures TotalsOf(map[]) == ZERO
  {
    assert BillOf(map[]) == map[];
  }

  /** A split conserves every total, and the total was partial just when one half is. */
  lemma {:induction false} SplitConservesTokens(m: Forest, root: Id, q: seq<Id>)
    requires WellFormed(m) && root in m && IsIndexOrder(m, Moved(m, root), q)
    ensures TotalsOf(m) == Add(TotalsOf(Remaining(m, Moved(m, root))), TotalsOf(Renumbered(m, root, q)))
  {
    var src, tgt := Remaining(m, Moved(m, root)), Renumbered(m, root, q);
    SplitBill(m, root, q);
    SumUnion(BillOf(src), BillOf(tgt));
  }

  /** A thought that was billable but came without a cost. */
  predicate Unpriced(r: Row) {
    r.payload.Thought? && r.payload.usage.cost.None?
    && (Positive(r.payload.usage.prompt) || Positive(r.payload.usage.completion))
  }

  lemma {:induction false} SumPartial(t: Bill)
    ensures Sum(t).partial <==> exists k :: k in t && t[k].partial
    decreases |t|
  {
    if t != map[] {
      var k := AnyKey(t);
      SumPartial(t - {k});
      assert k in t;
      if x :| x in t && t[x].partial {
        assert x != k ==> x in t - {k} && (t - {k})[x].partial;
      }
      if x :| x in t - {k} && (t - {k})[x].partial {
        assert x in t && t[x].partial;
      }
    }
  }

  /** The cost of a conversation is partial exactly if one of its thoughts is unpriced. */
  lemma {:induction false} PartialExactly(m: Forest)
    ensures TotalsOf(m).partial <==> exists a :: a in m && Unpriced(m[a])
  {
    SumPartial(BillOf(m));
    if a :| a in m && Unpriced(m[a]) {
      assert a in BillOf(m) && BillOf(m)[a].partial;
    }
    if a :| a in BillOf(m) && BillOf(m)[a].partial {
      assert a in m && Unpriced(m[a]);
    }
  }
}
