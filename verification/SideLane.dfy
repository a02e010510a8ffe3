/**
 The side lane: how the side entries of each spine entry are interleaved with the active path
 for display, and why no entry is shown twice.
 */
module SideLane {
  import opened Options
  import opened Entries
  import opened Forest
  import opened View

  /** The ids of s in index order. */
  ghost function InOrder(m: Forest, s: set<Id>): seq<Id>
    requires s <= m.Keys
    decreases s
  {
    if s == {} then [] else InOrder(m, s - {Newest(m, s)}) + [Newest(m, s)]
  }

  lemma {:induction false} InOrderIs(m: Forest, s: set<Id>)
    requires UniqueIndices(m) && s <= m.Keys
    ensures IsIndexOrder(m, s, InOrder(m, s))
    decreases s
  {
    if s != {} {
      var z := Newest(m, s);
      InOrderIs(m, s - {z});
      var f := InOrder(m, s - {z});
      if f != [] { assert f[|f| - 1] in Elements(f); }
      SortedMore(m, f, z);
      assert Elements(f + [z]) == Elements(f) + {z};
    }
  }

  /** The side children of an entry, in index order. */
  ghost function SideKids(m: Forest, a: Id): seq<Id> {
    InOrder(m, SideChildren(m, a))
  }

  lemma {:induction false} SideKid(m: Forest, a: Id, x: Id)
    requires Ordered(m)
    ensures x in SideKids(m, a) <==> x in SideChildren(m, a)
    ensures x in SideKids(m, a) ==> x in m && m[x].parent == Some(a) && m[x].isSide
  {
    InOrderIs(m, SideChildren(m, a));
    assert x in SideKids(m, a) <==> x in Elements(SideKids(m, a));
  }

  /** Below a side entry: all its side children, then below the last of them. */
  ghost function SideTail(m: Forest, a: Id): seq<Id>
    requires Ordered(m) && a in m
    decreases |Above(m, a)|
  {
    var kids := SideKids(m, a);
    if kids == [] then []
    else
      var last := kids[|kids| - 1];
      SideKid(m, a, last);
      AboveShrinks(m, a, last);
      kids + SideTail(m, last)
  }

  ghost function SideBlock(m: Forest, roots: seq<Id>): seq<Id>
    requires Ordered(m) && forall x | x in roots :: x in m
  {
    if roots == [] then []
    else SideBlock(m, roots[..|roots| - 1]) + [roots[|roots| - 1]] + SideTail(m, roots[|roots| - 1])
  }

  lemma {:induction false} KidsPresent(m: Forest, z: Id)
    requires Ordered(m) && z in m
    ensures forall y | y in SideKids(m, z) :: y in m && m[y].isSide && m[y].parent == Some(z)
  {
    forall y | y in SideKids(m, z) ensures y in m && m[y].isSide && m[y].parent == Some(z) { SideKid(m, z, y); }
  }

  /** A spine entry and its side segments. */
  ghost function Lane(m: Forest, z: Id): seq<Id>
    requires Ordered(m) && z in m
  {
    KidsPresent(m, z);
    [z] + SideBlock(m, SideKids(m, z))
  }

  ghost predicate Present(m: Forest, q: seq<Id>) {
    forall x | x in q :: x in m
  }

  lemma {:induction false} PresentFront(m: Forest, q: seq<Id>)
    requires Present(m, q) && q != []
    ensures Present(m, q[..|q| - 1]) && q[|q| - 1] in m
  {
    assert forall x | x in q[..|q| - 1] :: x in q;
    assert q[|q| - 1] in q;
  }

  /** The path as displayed: each spine entry followed by its side segments. */
  ghost function Interleaved(m: Forest, spine: seq<Id>): seq<Id>
    requires Ordered(m) && Present(m, spine)
  {
    if spine == [] then []
    else
      PresentFront(m, spine);
      Interleaved(m, spine[..|spine| - 1]) + Lane(m, spine[|spine| - 1])
  }

  ghost predicate NoDup(q: seq<Id>) {
    forall i, j | 0 <= i < j < |q| :: q[i] != q[j]
  }

  lemma {:induction false} NoDupJoin(q: seq<Id>, r: seq<Id>)
    requires NoDup(q) && NoDup(r) && forall x | x in q :: x !in r
    ensures NoDup(q + r)
  {
    var s := q + r;
    forall i, j | 0 <= i < j < |s| ensures s[i] != s[j] {
      assert s[i] == if i < |q| then q[i] else r[i - |q|];
      assert s[j] == if j < |q| then q[j] else r[j - |q|];
      if i < |q| && j >= |q| { assert q[i] in q; assert r[j - |q|] in r; }
    }
  }

  lemma {:induction false} SortedNoDup(m: Forest, q: seq<Id>)
    requires Sorted(m, q)
    ensures NoDup(q)
  {
  }

  // ---------------------------------------------------------------- what a block holds

  /** Everything below a is a proper side descendant of a. */
  lemma {:induction false} TailBelow(m: Forest, a: Id, x: Id)
    requires Ordered(m) && a in m && x in SideTail(m, a)
    ensures x in m && m[x].isSide && a in Lineage(m, x) && x != a
    decreases |Above(m, a)|
  {
    var kids := SideKids(m, a);
    var last := kids[|kids| - 1];
    SideKid(m, a, last);
    AboveShrinks(m, a, last);
    if x in kids {
      SideKid(m, a, x);
      Parented(m, x);
    } else {
      TailBelow(m, last, x);
      Parented(m, last);
      assert a in Lineage(m, last);
      LineagePrefix(m, x, last);
      InPrefix(Lineage(m, last), Lineage(m, x), a);
      LineageBelow(m, x, last);
    }
  }

  lemma {:induction false} Parented(m: Forest, x: Id)
    requires Ordered(m) && HasParent(m, x)
    ensures m[x].parent.value in Lineage(m, x) && x in Lineage(m, x)
  {
    var p := m[x].parent.value;
    assert Lineage(m, p)[|Lineage(m, p)| - 1] == p;
    assert Lineage(m, x) == Lineage(m, p) + [x];
    assert p in Lineage(m, p);
  }

  lemma {:induction false} InPrefix(q: seq<Id>, r: seq<Id>, x: Id)
    requires q <= r && x in q
    ensures x in r
  {
    var i :| 0 <= i < |q| && q[i] == x;
    assert r[i] == x;
  }

  lemma {:induction false} TailNoDup(m: Forest, a: Id)
    requires Ordered(m) && a in m
    ensures NoDup(SideTail(m, a))
    decreases |Above(m, a)|
  {
    var kids := SideKids(m, a);
    InOrderIs(m, SideChildren(m, a));
    if kids != [] {
      var last := kids[|kids| - 1];
      SideKid(m, a, last);
      AboveShrinks(m, a, last);
      TailNoDup(m, last);
      SortedNoDup(m, kids);
      forall x | x in kids ensures x !in SideTail(m, last) {
        SideKid(m, a, x);
        if x in SideTail(m, last) {
          TailBelow(m, last, x);
          Parented(m, x);
          LineageOneSibling(m, x, x, last);
        }
      }
      NoDupJoin(kids, SideTail(m, last));
    }
  }

  /** A block holds side entries below its roots. */
  lemma {:induction false} BlockBelow(m: Forest, roots: seq<Id>, x: Id) returns (r: Id)
    requires Ordered(m) && (forall y | y in roots :: y in m && m[y].isSide) && x in SideBlock(m, roots)
    ensures r in roots && x in m && m[x].isSide && r in Lineage(m, x)
    decreases |roots|
  {
    var f, z := roots[..|roots| - 1], roots[|roots| - 1];
    assert forall y | y in f :: y in roots;
    if x in SideBlock(m, f) {
      r := BlockBelow(m, f, x);
    } else {
      r := z;
      if x in SideTail(m, z) {
        TailBelow(m, z, x);
      } else {
        assert x == z;
        assert Lineage(m, z)[|Lineage(m, z)| - 1] == z;
      }
    }
  }

  lemma {:induction false} NoDupFront(q: seq<Id>)
    requires NoDup(q) && q != []
    ensures NoDup(q[..|q| - 1]) && q[|q| - 1] !in q[..|q| - 1] && q[|q| - 1] in q
    ensures forall y | y in q[..|q| - 1] :: y in q
  {
  }

  lemma {:induction false} BlockNoDup(m: Forest, a: Id, roots: seq<Id>)
    requires Ordered(m) && NoDup(roots)
    requires forall y | y in roots :: y in m && m[y].isSide && m[y].parent == Some(a)
    ensures NoDup(SideBlock(m, roots))
    decreases |roots|
  {
    if roots != [] {
      var f, z := roots[..|roots| - 1], roots[|roots| - 1];
      NoDupFront(roots);
      BlockNoDup(m, a, f);
      TailNoDup(m, z);
      NotInTail(m, z);
      NoDupJoin([z], SideTail(m, z));
      forall x | x in SideBlock(m, f) ensures x !in [z] + SideTail(m, z) {
        OtherBlock(m, a, f, z, x);
      }
      NoDupJoin(SideBlock(m, f), [z] + SideTail(m, z));
      Regroup(SideBlock(m, f), [z], SideTail(m, z));
    }
  }

  lemma {:induction false} NotInTail(m: Forest, z: Id)
    requires Ordered(m) && z in m
    ensures z !in SideTail(m, z)
  {
    if z in SideTail(m, z) { TailBelow(m, z, z); }
  }

  /** Blocks of different roots below a are disjoint. */
  lemma {:induction false} OtherBlock(m: Forest, a: Id, roots: seq<Id>, z: Id, x: Id)
    requires Ordered(m) && z in m && m[z].isSide && m[z].parent == Some(a) && z !in roots
    requires (forall y | y in roots :: y in m && m[y].isSide && m[y].parent == Some(a)) && x in SideBlock(m, roots)
    ensures x !in [z] + SideTail(m, z)
  {
    var r := BlockBelow(m, roots, x);
    if x in [z] + SideTail(m, z) {
      if x in SideTail(m, z) { TailBelow(m, z, x); } else { assert Lineage(m, z)[|Lineage(m, z)| - 1] == z; }
      LineageOneSibling(m, x, r, z);
    }
  }

  // ---------------------------------------------------------------- the displayed path

  /** A displayed side entry hangs, through side entries, off one entry of the spine. */
  lemma {:induction false} ShownBelow(m: Forest, spine: seq<Id>, x: Id) returns (a: Id, r: Id)
    requires Ordered(m) && Chain(m, spine) && Present(m, spine)
    requires x in Interleaved(m, spine)
    ensures a in spine && x in m && (!m[x].isSide ==> x == a)
    ensures m[x].isSide ==> r in m && m[r].isSide && m[r].parent == Some(a) && r in Lineage(m, x)
    decreases |spine|
  {
    var f, z := spine[..|spine| - 1], spine[|spine| - 1];
    SpineFront(m, spine);
    r := z;
    if x in Interleaved(m, f) {
      a, r := ShownBelow(m, f, x);
      assert a in spine;
    } else {
      a := z;
      if x != z {
        KidsPresent(m, z);
        r := BlockBelow(m, SideKids(m, z), x);
      }
    }
  }

  /** Two lanes of one path are disjoint: a spine entry and a side entry cannot both follow a. */
  lemma {:induction false} LanesApart(m: Forest, spine: seq<Id>, x: Id, a: Id, r: Id, s: Id)
    requires Ordered(m) && Chain(m, spine) && |spine| > 0
    requires a in spine[..|spine| - 1] && x in m && r in m && s in m
    requires m[r].isSide && m[r].parent == Some(a) && r in Lineage(m, x)
    requires m[s].isSide && m[s].parent == Some(spine[|spine| - 1])
    ensures s !in Lineage(m, x)
  {
    var n := |spine| - 1;
    var i :| 0 <= i < n && spine[i] == a;
    assert Link(m, spine, i + 1) && Link(m, spine, n);
    if s in Lineage(m, x) {
      OnLineage(m, spine, i + 1, n);
      Parented(m, s);
      LineagePrefix(m, x, s);
      LineagePrefix(m, s, spine[n]);
      InPrefix(Lineage(m, spine[n]), Lineage(m, s), spine[i + 1]);
      InPrefix(Lineage(m, s), Lineage(m, x), spine[i + 1]);
      LineageOneSibling(m, x, r, spine[i + 1]);
      assert false;
    }
  }

  lemma {:induction false} OnLineage(m: Forest, spine: seq<Id>, i: nat, n: nat)
    requires Ordered(m) && Chain(m, spine) && i <= n < |spine|
    ensures spine[n] in m && spine[i] in Lineage(m, spine[n])
    decreases n
  {
    assert Link(m, spine, n);
    if i < n {
      OnLineage(m, spine, i, n - 1);
    } else {
      assert Lineage(m, spine[n])[|Lineage(m, spine[n])| - 1] == spine[n];
    }
  }

  lemma {:induction false} SpineFront(m: Forest, spine: seq<Id>)
    requires Chain(m, spine) && Present(m, spine) && spine != []
    ensures Chain(m, spine[..|spine| - 1]) && Present(m, spine[..|spine| - 1])
    ensures spine[|spine| - 1] in m && !m[spine[|spine| - 1]].isSide
  {
    var f := spine[..|spine| - 1];
    forall i | 0 <= i < |f| ensures Link(m, f, i) { assert Link(m, spine, i); }
    PresentFront(m, spine);
    assert Link(m, spine, |spine| - 1);
  }

  /** No entry is displayed twice. */
  lemma {:induction false} InterleavedNoDup(m: Forest, spine: seq<Id>)
    requires Ordered(m) && Chain(m, spine) && Present(m, spine)
    ensures NoDup(Interleaved(m, spine))
    decreases |spine|
  {
    if spine != [] {
      var f, z := spine[..|spine| - 1], spine[|spine| - 1];
      SpineFront(m, spine);
      InterleavedNoDup(m, f);
      LaneNoDup(m, z);
      forall x | x in Interleaved(m, f) ensures x !in Lane(m, z) {
        NotAgain(m, spine, x);
      }
      NoDupJoin(Interleaved(m, f), Lane(m, z));
    }
  }

  lemma {:induction false} LaneNoDup(m: Forest, z: Id)
    requires Ordered(m) && z in m && !m[z].isSide
    ensures NoDup(Lane(m, z))
  {
    KidsPresent(m, z);
    InOrderIs(m, SideChildren(m, z));
    SortedNoDup(m, SideKids(m, z));
    BlockNoDup(m, z, SideKids(m, z));
    BlockIsSide(m, z);
    NoDupJoin([z], SideBlock(m, SideKids(m, z)));
  }

  lemma {:induction false} BlockIsSide(m: Forest, z: Id)
    requires Ordered(m) && z in m
    ensures forall y | y in SideKids(m, z) :: y in m
    ensures forall x | x in SideBlock(m, SideKids(m, z)) :: x in m && m[x].isSide
  {
    KidsPresent(m, z);
    forall x | x in SideBlock(m, SideKids(m, z)) ensures x in m && m[x].isSide {
      var r := BlockBelow(m, SideKids(m, z), x);
    }
  }

  lemma {:induction false} NotAgain(m: Forest, spine: seq<Id>, x: Id)
    requires Ordered(m) && Chain(m, spine) && Present(m, spine) && spine != []
    requires Present(m, spine[..|spine| - 1])
    requires x in Interleaved(m, spine[..|spine| - 1])
    ensures spine[|spine| - 1] in m && x !in Lane(m, spine[|spine| - 1])
  {
    var f, z := spine[..|spine| - 1], spine[|spine| - 1];
    SpineFront(m, spine);
    var a, r := ShownBelow(m, f, x);
    LastIsNew(m, spine);
    KidsPresent(m, z);
    if x in SideBlock(m, SideKids(m, z)) {
      var s := BlockBelow(m, SideKids(m, z), x);
      LanesApart(m, spine, x, a, r, s);
    }
  }

  lemma {:induction false} LastIsNew(m: Forest, spine: seq<Id>)
    requires Ordered(m) && Chain(m, spine) && spine != []
    ensures spine[|spine| - 1] !in spine[..|spine| - 1]
  {
    ChainDescends(m, spine);
  }

  /** The spine entries of q, in the order of q. */
  ghost function SpinePart(m: Forest, q: seq<Id>): seq<Id> {
    if q == [] then []
    else SpinePart(m, q[..|q| - 1]) + (if q[|q| - 1] in m && !m[q[|q| - 1]].isSide then [q[|q| - 1]] else [])
  }

  /** Dropping the side entries of the displayed path gives back its spine. */
  lemma {:induction false} InterleavedSpine(m: Forest, spine: seq<Id>)
    requires Ordered(m) && Chain(m, spine) && Present(m, spine)
    ensures SpinePart(m, Interleaved(m, spine)) == spine
    decreases |spine|
  {
    if spine != [] {
      var f, z := spine[..|spine| - 1], spine[|spine| - 1];
      SpineFront(m, spine);
      InterleavedSpine(m, f);
      LaneSpine(m, Interleaved(m, f), z);
      SplitLast(spine);
    }
  }

  lemma {:induction false} LaneSpine(m: Forest, q: seq<Id>, z: Id)
    requires Ordered(m) && z in m && !m[z].isSide
    ensures SpinePart(m, q + Lane(m, z)) == SpinePart(m, q) + [z]
  {
    BlockIsSide(m, z);
    var block := SideBlock(m, SideKids(m, z));
    SpinePartJoin(m, q + [z], block);
    SpinePartLast(m, q, z);
    Regroup(q, [z], block);
  }

  lemma {:induction false} SpinePartLast(m: Forest, q: seq<Id>, z: Id)
    requires z in m && !m[z].isSide
    ensures SpinePart(m, q + [z]) == SpinePart(m, q) + [z]
  {
    assert (q + [z])[..|q|] == q;
  }

  lemma {:induction false} SplitLast(q: seq<Id>)
    requires q != []
    ensures q[..|q| - 1] + [q[|q| - 1]] == q
  {
  }

  lemma {:induction false} SpinePartJoin(m: Forest, q: seq<Id>, r: seq<Id>)
    requires forall x | x in r :: x in m && m[x].isSide
    ensures SpinePart(m, q + r) == SpinePart(m, q)
    decreases |r|
  {
    if r == [] {
      assert q + r == q;
    } else {
      var s := q + r;
      assert s[..|s| - 1] == q + r[..|r| - 1] && s[|s| - 1] == r[|r| - 1];
      SpinePartJoin(m, q, r[..|r| - 1]);
    }
  }
}
