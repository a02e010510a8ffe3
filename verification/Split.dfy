/**
 "Split from here": the subtree of one entry leaves its conversation and becomes a conversation
 of its own. The specification of the move, and what it keeps.
 */
module Split {
  import opened Options
  import opened Entries
  import opened Forest

  /** The entries that move: those whose lineage runs through the split root. */
  ghost function Moved(m: Forest, root: Id): set<Id>
    requires Ordered(m)
  {
    set a | a in m && root in Lineage(m, a)
  }

  /** The source conversation after the move. */
  ghost function Remaining(m: Forest, moved: set<Id>): Forest {
    map a | a in m && a !in moved :: m[a]
  }

  function Renumber(r: Row, index: int, isRoot: bool): Row {
    r.(index := index, parent := if isRoot then None else r.parent)
  }

  /** The target conversation after the move, for the moved entries listed in order. */
  ghost function Renumbered(m: Forest, root: Id, q: seq<Id>): Forest
    requires forall x | x in q :: x in m
  {
    if q == [] then map[]
    else
      var z := q[|q| - 1];
      Renumbered(m, root, q[..|q| - 1])[z := Renumber(m[z], |q| - 1, z == root)]
  }

  lemma {:induction false} RenumberedAt(m: Forest, root: Id, q: seq<Id>)
    requires Sorted(m, q)
    ensures Renumbered(m, root, q).Keys == Elements(q)
    ensures forall i | 0 <= i < |q| :: Renumbered(m, root, q)[q[i]] == Renumber(m[q[i]], i, q[i] == root)
    decreases |q|
  {
    if q != [] {
      var f := q[..|q| - 1];
      assert q == f + [q[|q| - 1]];
      RenumberedAt(m, root, f);
      forall i | 0 <= i < |q|
        ensures q[i] in Renumbered(m, root, q)
        ensures Renumbered(m, root, q)[q[i]] == Renumber(m[q[i]], i, q[i] == root)
      {
        if i < |f| {
          assert f[i] == q[i] && m[q[i]].index < m[q[|q| - 1]].index;
        }
      }
    }
  }

  // ---------------------------------------------------------------- the cut

  lemma {:induction false} MovedClosed(m: Forest, root: Id, a: Id)
    requires Ordered(m) && root in m && a in m
    ensures a == root ==> a in Moved(m, root)
    ensures HasParent(m, a) && a != root ==> (a in Moved(m, root) <==> m[a].parent.value in Moved(m, root))
    ensures HasParent(m, a) && a == root ==> m[a].parent.value !in Moved(m, root)
    ensures !HasParent(m, a) && a != root ==> a !in Moved(m, root)
  {
    Up(m, a);
    if HasParent(m, a) {
      var p := m[a].parent.value;
      assert Lineage(m, a) == Lineage(m, p) + [a];
      if root in Lineage(m, p) { LineageBelow(m, p, root); }
    }
  }

  lemma {:induction false} RemainingKeeps(m: Forest, root: Id)
    requires WellFormed(m) && root in m
    ensures WellFormed(Remaining(m, Moved(m, root)))
    ensures forall a | a in m && a !in Moved(m, root) :: Lineage(Remaining(m, Moved(m, root)), a) == Lineage(m, a)
  {
    var n := Remaining(m, Moved(m, root));
    forall a | a in n ensures RowOk(n, a) {
      assert RowOk(m, a);
    }
    StoredRows(n);
    forall a | a in n ensures HasParent(m, a) ==> HasParent(n, a) {
      MovedClosed(m, root, a);
    }
    forall a | a in m && a !in Moved(m, root) ensures Lineage(n, a) == Lineage(m, a) {
      LineageStable(n, m, a);
    }
  }

  /** The target lists exactly the moved entries, and orders them as the source did. */
  lemma {:induction false} RenumberedOrder(m: Forest, root: Id, q: seq<Id>, a: Id, b: Id)
    requires Sorted(m, q) && a in q && b in q
    ensures var n := Renumbered(m, root, q);
            a in n && b in n && 0 <= n[a].index < |q|
            && (n[a].index < n[b].index <==> m[a].index < m[b].index)
            && (a != b ==> n[a].index != n[b].index)
  {
    RenumberedAt(m, root, q);
    var i :| 0 <= i < |q| && q[i] == a;
    var j :| 0 <= j < |q| && q[j] == b;
  }

  lemma {:induction false} RenumberedRow(m: Forest, root: Id, q: seq<Id>, a: Id)
    requires Sorted(m, q) && a in q
    ensures a in m && a in Renumbered(m, root, q)
    ensures var r := Renumbered(m, root, q)[a]; r == Renumber(m[a], r.index, a == root)
  {
    RenumberedAt(m, root, q);
    var i :| 0 <= i < |q| && q[i] == a;
  }

  lemma {:induction false} RenumberedKeeps(m: Forest, root: Id, q: seq<Id>)
    requires WellFormed(m) && root in m && IsIndexOrder(m, Moved(m, root), q)
    ensures WellFormed(Renumbered(m, root, q))
  {
    var n := Renumbered(m, root, q);
    RenumberedAt(m, root, q);
    forall a, b | a in n && b in n && a != b ensures n[a].index != n[b].index {
      RenumberedOrder(m, root, q, a, b);
    }
    forall a | a in n ensures RowOk(n, a) {
      assert RowOk(m, a);
      RenumberedRow(m, root, q, a);
      RenumberedOrder(m, root, q, a, a);
      if HasParent(n, a) {
        var p := n[a].parent.value;
        assert p in q;
        RenumberedOrder(m, root, q, p, a);
      }
    }
    StoredRows(n);
  }

  lemma {:induction false} RenumberedParent(m: Forest, root: Id, q: seq<Id>, a: Id)
    requires WellFormed(m) && root in m && IsIndexOrder(m, Moved(m, root), q) && a in Moved(m, root)
    ensures a in Renumbered(m, root, q)
    ensures a == root ==> Renumbered(m, root, q)[a].parent == None
    ensures a != root ==> HasParent(m, a) && HasParent(Renumbered(m, root, q), a)
                          && Renumbered(m, root, q)[a].parent == m[a].parent && m[a].parent.value in Moved(m, root)
  {
    assert a in q;
    RenumberedRow(m, root, q, a);
    MovedClosed(m, root, a);
    if a != root {
      assert m[a].parent.value in q;
      RenumberedRow(m, root, q, m[a].parent.value);
    }
  }

  /** Every moved lineage becomes its own suffix from the split root. */
  lemma {:induction false} RenumberedLineage(m: Forest, root: Id, q: seq<Id>, a: Id)
    requires WellFormed(m) && root in m && IsIndexOrder(m, Moved(m, root), q) && a in Moved(m, root)
    ensures WellFormed(Renumbered(m, root, q)) && a in Renumbered(m, root, q)
    ensures |Lineage(m, root)| <= |Lineage(m, a)|
    ensures Lineage(Renumbered(m, root, q), a) == Lineage(m, a)[|Lineage(m, root)| - 1..]
    decreases Rank(m, a)
  {
    RenumberedKeeps(m, root, q);
    RenumberedParent(m, root, q, a);
    Up(m, a);
    if a != root {
      RenumberedLineage(m, root, q, m[a].parent.value);
    }
  }

  /** A moved row, field by field: only its place in the numbering changes, and the root loses its
      parent. */
  ghost predicate MovedRow(m: Forest, n: Forest, root: Id, a: Id) {
    && a in m && a in n && n[a].isSide == m[a].isSide && n[a].payload == m[a].payload
    && n[a].parent == (if a == root then None else m[a].parent)
  }

  /** Rows of s are in the same order in both. */
  ghost predicate SameOrder(m: Forest, n: Forest, s: set<Id>) {
    forall a, b | a in s && b in s :: a in m && b in m && a in n && b in n && (n[a].index < n[b].index <==> m[a].index < m[b].index)
  }

  lemma {:induction false} RenumberedRows(m: Forest, root: Id, q: seq<Id>)
    requires Sorted(m, q)
    ensures forall a | a in q :: MovedRow(m, Renumbered(m, root, q), root, a)
    ensures SameOrder(m, Renumbered(m, root, q), Elements(q))
  {
    forall a | a in q ensures MovedRow(m, Renumbered(m, root, q), root, a) {
      RenumberedRow(m, root, q, a);
    }
    var n := Renumbered(m, root, q);
    forall a, b | a in Elements(q) && b in Elements(q)
      ensures a in m && b in m && a in n && b in n && (n[a].index < n[b].index <==> m[a].index < m[b].index)
    {
      RenumberedOrder(m, root, q, a, b);
    }
  }

  /** The whole move: no entry is lost or duplicated, both halves are well-formed, the rows that stay
      keep everything, the rows that move keep all but their index (and the root its parent) and their
      order, and the target indices are 0..n-1. */
  lemma {:induction false} SplitKeepsForests(m: Forest, root: Id, q: seq<Id>)
    requires WellFormed(m) && root in m && IsIndexOrder(m, Moved(m, root), q)
    ensures var src, tgt := Remaining(m, Moved(m, root)), Renumbered(m, root, q);
            && WellFormed(src) && WellFormed(tgt)
            && src.Keys !! tgt.Keys && src.Keys + tgt.Keys == m.Keys
            && (forall a | a in src :: src[a] == m[a])
            && (forall a | a in tgt :: MovedRow(m, tgt, root, a)) && SameOrder(m, tgt, tgt.Keys)
            && (forall i | 0 <= i < |q| :: q[i] in tgt && tgt[q[i]].index == i)
            && root in tgt
  {
    RemainingKeeps(m, root);
    RenumberedKeeps(m, root, q);
    RenumberedAt(m, root, q);
    RenumberedRows(m, root, q);
    MovedClosed(m, root, root);
    assert root in q;
    assert forall a | a in Renumbered(m, root, q) :: a in q;
  }

  // ---------------------------------------------------------------- branches

  /** The children of a moved entry move with it. */
  lemma {:induction false} MovedKids(m: Forest, root: Id, q: seq<Id>, a: Id)
    requires WellFormed(m) && root in m && IsIndexOrder(m, Moved(m, root), q) && a in Moved(m, root)
    ensures SpineChildren(Renumbered(m, root, q), Some(a)) == SpineChildren(m, Some(a))
    ensures SideChildren(Renumbered(m, root, q), a) == SideChildren(m, a)
    ensures SpineChildren(m, Some(a)) <= Moved(m, root)
  {
    var n := Renumbered(m, root, q);
    RenumberedAt(m, root, q);
    RenumberedRows(m, root, q);
    forall c | c in m && m[c].parent == Some(a) ensures c in Moved(m, root) && c != root {
      MovedClosed(m, root, c);
    }
    forall c | c in n ensures c in q && c in m && (n[c].parent == Some(a) <==> m[c].parent == Some(a)) {
      assert MovedRow(m, n, root, c);
      MovedClosed(m, root, root);
    }
    assert forall c | c in Moved(m, root) :: c in Elements(q) && c in q;
    forall c ensures c in SpineChildren(n, Some(a)) <==> c in SpineChildren(m, Some(a)) {
      if c in q { assert MovedRow(m, n, root, c); }
    }
    forall c ensures c in SideChildren(n, a) <==> c in SideChildren(m, a) {
      if c in q { assert MovedRow(m, n, root, c); }
    }
  }

  lemma {:induction false} NewestMoves(m: Forest, n: Forest, s: set<Id>, kids: set<Id>)
    requires SameOrder(m, n, s) && kids <= s && kids <= m.Keys && kids != {}
    ensures IsNewest(n, kids, Newest(m, kids))
  {
    var c := Newest(m, kids);
    forall d | d in kids ensures d in n && n[d].index <= n[c].index {
      assert d in s && c in s && m[d].index <= m[c].index;
    }
  }

  /** An entry has the same spine children in both, all of them in s. */
  ghost predicate SameKids(m: Forest, n: Forest, s: set<Id>, x: Id) {
    SpineChildren(n, Some(x)) == SpineChildren(m, Some(x)) && SpineChildren(m, Some(x)) <= s
  }

  /** Forests that agree on the children and the order of s have the same newest lines from there. */
  lemma {:induction false} SameLine(m: Forest, n: Forest, s: set<Id>, a: Id)
    requires Ordered(m) && Ordered(n) && s <= m.Keys && s <= n.Keys && a in s
    requires SameOrder(m, n, s) && forall x | x in s :: SameKids(m, n, s, x)
    ensures NewestLine(n, a) == NewestLine(m, a)
    decreases |Above(m, a)|
  {
    assert SameKids(m, n, s, a);
    var kids := SpineChildren(m, Some(a));
    if kids != {} {
      var c := Newest(m, kids);
      AboveShrinks(m, a, c);
      NewestMoves(m, n, s, kids);
      SameLine(m, n, s, c);
      NewestLineStep(m, a, c);
      NewestLineStep(n, a, c);
    }
  }

  /** A branch is the same in its new conversation: from every moved entry the newest line is the one
      that it was in the old one. */
  lemma {:induction false} MovedLine(m: Forest, root: Id, q: seq<Id>, a: Id)
    requires WellFormed(m) && root in m && IsIndexOrder(m, Moved(m, root), q) && a in Moved(m, root)
    ensures WellFormed(Renumbered(m, root, q)) && a in Renumbered(m, root, q)
    ensures NewestLine(Renumbered(m, root, q), a) == NewestLine(m, a)
    ensures NewestLeaf(Renumbered(m, root, q), a) == NewestLeaf(m, a)
  {
    var n := Renumbered(m, root, q);
    RenumberedKeeps(m, root, q);
    RenumberedAt(m, root, q);
    RenumberedRows(m, root, q);
    forall x | x in Moved(m, root) ensures SameKids(m, n, Moved(m, root), x) {
      MovedKids(m, root, q, x);
    }
    SameLine(m, n, Moved(m, root), a);
  }

  /** In the conversation that stays, a newest line that did not run into the split is unchanged. */
  lemma {:induction false} RemainingLine(m: Forest, root: Id, a: Id)
    requires WellFormed(m) && root in m && a in m && a !in Moved(m, root) && root !in NewestLine(m, a)
    ensures WellFormed(Remaining(m, Moved(m, root))) && a in Remaining(m, Moved(m, root))
    ensures NewestLine(Remaining(m, Moved(m, root)), a) == NewestLine(m, a)
    decreases |Above(m, a)|
  {
    var n := Remaining(m, Moved(m, root));
    RemainingKeeps(m, root);
    var kids, left := SpineChildren(m, Some(a)), SpineChildren(n, Some(a));
    assert left <= kids;
    if kids != {} {
      var c := Newest(m, kids);
      AboveShrinks(m, a, c);
      NewestLineStep(m, a, c);
      assert c in NewestLine(m, c) && c in NewestLine(m, a);
      MovedClosed(m, root, c);
      assert c in left;
      RemainingLine(m, root, c);
      forall d | d in left ensures d in n && n[d].index <= n[c].index { assert d in kids; }
      NewestLineStep(n, a, c);
    }
  }

  // ---------------------------------------------------------------- plan and write batch

  /** Everything but the payloads. */
  ghost predicate SameShape(m: Forest, n: Forest) {
    m.Keys == n.Keys && forall a | a in m ::
      n[a].index == m[a].index && n[a].parent == m[a].parent && n[a].isSide == m[a].isSide
  }

  /** Payload merges do not take the append lock, so they may land between the reads of a split
      and its write batch; the plan stays right. */
  lemma {:induction false} PlanSurvivesMerges(m: Forest, n: Forest, root: Id, q: seq<Id>)
    requires WellFormed(m) && SameShape(m, n) && root in m && IsIndexOrder(m, Moved(m, root), q)
    ensures WellFormed(n) && Moved(n, root) == Moved(m, root) && IsIndexOrder(n, Moved(n, root), q)
  {
    forall a | a in n ensures RowOk(n, a) {
      assert RowOk(m, a);
    }
    StoredRows(n);
    forall a | a in m ensures Lineage(n, a) == Lineage(m, a) {
      LineageStable(m, n, a);
    }
  }

  lemma {:induction false} HalvesKeys(m: Forest, root: Id, q: seq<Id>)
    requires WellFormed(m) && root in m && IsIndexOrder(m, Moved(m, root), q)
    ensures WellFormed(Remaining(m, Elements(q))) && WellFormed(Renumbered(m, root, q))
    ensures Remaining(m, Elements(q)).Keys == m.Keys - Elements(q) && Elements(q) <= m.Keys
    ensures Renumbered(m, root, q).Keys == Elements(q)
    ensures root in Elements(q) && (HasParent(m, root) ==> m[root].parent.value in Remaining(m, Elements(q)))
  {
    RemainingKeeps(m, root);
    RenumberedKeeps(m, root, q);
    RenumberedAt(m, root, q);
    MovedClosed(m, root, root);
  }

  /** The write batch of a planned split, run on the rows as they are by then. */
  lemma {:induction false} PlannedSplit(m: Forest, n: Forest, root: Id, q: seq<Id>)
    requires WellFormed(m) && SameShape(m, n) && root in m && IsIndexOrder(m, Moved(m, root), q)
    ensures WellFormed(n) && IsIndexOrder(n, Moved(n, root), q) && Elements(q) == Moved(n, root)
    ensures WellFormed(Remaining(n, Elements(q))) && WellFormed(Renumbered(n, root, q))
    ensures Remaining(n, Elements(q)).Keys == n.Keys - Elements(q) && Elements(q) <= n.Keys
    ensures Renumbered(n, root, q).Keys == Elements(q)
    ensures root in Elements(q) && (HasParent(m, root) ==> m[root].parent.value in Remaining(n, Elements(q)))
  {
    PlanSurvivesMerges(m, n, root, q);
    HalvesKeys(n, root, q);
  }

  /** A set of entries closed under children that holds the root holds the whole subtree. */
  lemma {:induction false} ClosedHoldsSubtree(m: Forest, root: Id, s: set<Id>, a: Id)
    requires Ordered(m) && root in s && a in Moved(m, root)
    requires forall c | HasParent(m, c) && m[c].parent.value in s :: c in s
    ensures a in s
    decreases Rank(m, a)
  {
    Up(m, a);
    if a != root {
      ClosedHoldsSubtree(m, root, s, m[a].parent.value);
    }
  }
}
