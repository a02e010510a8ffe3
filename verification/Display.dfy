/** Which entries the displayed path holds, and in which order. */
module Display {
  import opened Options
  import opened Entries
  import opened Forest
  import opened View
  import opened SideLane

  // ---------------------------------------------------------------- which entries

  /** c is a side entry that comes after all its siblings. */
  ghost predicate LastSideChild(m: Forest, c: Id) {
    HasParent(m, c) && m[c].isSide && IsNewest(m, SideChildren(m, m[c].parent.value), c)
  }

  /** The walk from r comes to c, going each time to the last side child. */
  ghost predicate WalkMeets(m: Forest, r: Id, c: Id)
    requires Ordered(m)
    decreases Rank(m, c)
  {
    Up(m, c);
    c == r || (LastSideChild(m, c) && WalkMeets(m, r, m[c].parent.value))
  }

  /** The side entries that the walk from r lists: all side children of the entries that it meets. */
  ghost predicate WalkLists(m: Forest, r: Id, x: Id)
    requires Ordered(m)
  {
    HasParent(m, x) && m[x].isSide && WalkMeets(m, r, m[x].parent.value)
  }

  lemma {:induction false} LastOfKids(m: Forest, a: Id, c: Id)
    requires Ordered(m) && a in m && SideKids(m, a) != []
    ensures c == SideKids(m, a)[|SideKids(m, a)| - 1] <==> LastSideChild(m, c) && m[c].parent == Some(a)
  {
    var kids := SideKids(m, a);
    InOrderIs(m, SideChildren(m, a));
    IndexOrderFront(m, SideChildren(m, a), kids);
    if LastSideChild(m, c) && m[c].parent == Some(a) {
      NewestUnique(m, SideChildren(m, a), c, kids[|kids| - 1]);
    }
  }

  lemma {:induction false} KidsAre(m: Forest, a: Id, x: Id)
    requires Ordered(m)
    ensures x in SideKids(m, a) <==> x in m && m[x].isSide && m[x].parent == Some(a)
  {
    SideKid(m, a, x);
  }

  /** From an entry without side children the walk goes nowhere. */
  lemma {:induction false} MeetsOnly(m: Forest, a: Id, c: Id)
    requires Ordered(m) && a in m && SideKids(m, a) == []
    ensures WalkMeets(m, a, c) <==> c == a
    decreases Rank(m, c)
  {
    Up(m, c);
    if c != a && LastSideChild(m, c) {
      MeetsOnly(m, a, m[c].parent.value);
      KidsAre(m, a, c);
    }
  }

  /** From an entry with side children the walk goes on from the last of them. */
  lemma {:induction false} MeetsNext(m: Forest, a: Id, last: Id, c: Id)
    requires Ordered(m) && a in m && SideKids(m, a) != [] && last == SideKids(m, a)[|SideKids(m, a)| - 1]
    ensures WalkMeets(m, a, c) <==> c == a || WalkMeets(m, last, c)
    decreases Rank(m, c)
  {
    Up(m, c);
    LastOfKids(m, a, c);
    if c != a && LastSideChild(m, c) {
      MeetsNext(m, a, last, m[c].parent.value);
    }
    if c == last { assert m[c].parent == Some(a); }
  }

  lemma {:induction false} TailLists(m: Forest, a: Id, x: Id)
    requires Ordered(m) && a in m
    ensures x in SideTail(m, a) <==> WalkLists(m, a, x)
    decreases |Above(m, a)|
  {
    var kids := SideKids(m, a);
    KidsAre(m, a, x);
    if kids == [] {
      if HasParent(m, x) { MeetsOnly(m, a, m[x].parent.value); }
    } else {
      var last := kids[|kids| - 1];
      LastOfKids(m, a, last);
      AboveShrinks(m, a, last);
      TailLists(m, last, x);
      if HasParent(m, x) { MeetsNext(m, a, last, m[x].parent.value); }
    }
  }

  /** x is the side root r, or is listed by the walk from it. */
  ghost predicate ShownUnder(m: Forest, r: Id, x: Id)
    requires Ordered(m)
  {
    x == r || WalkLists(m, r, x)
  }

  lemma {:induction false} BlockLists(m: Forest, roots: seq<Id>, x: Id)
    requires Ordered(m) && forall y | y in roots :: y in m
    ensures x in SideBlock(m, roots) <==> exists r :: r in roots && ShownUnder(m, r, x)
    decreases |roots|
  {
    if roots != [] {
      var f, z := roots[..|roots| - 1], roots[|roots| - 1];
      assert z in roots && forall y | y in f :: y in roots;
      BlockLists(m, f, x);
      TailLists(m, z, x);
      if r :| r in roots && ShownUnder(m, r, x) { assert r == z || r in f; }
      if x in SideBlock(m, f) {
        var r :| r in f && ShownUnder(m, r, x);
        assert r in roots;
      }
      if x == z || x in SideTail(m, z) { assert ShownUnder(m, z, x); }
    }
  }

  /** x is displayed with the spine entry a: it is a itself, or is shown under a side child of a. */
  ghost predicate ShownWith(m: Forest, a: Id, x: Id)
    requires Ordered(m)
  {
    x == a || exists r :: r in SideChildren(m, a) && ShownUnder(m, r, x)
  }

  lemma {:induction false} LaneLists(m: Forest, a: Id, x: Id)
    requires Ordered(m) && a in m
    ensures x in Lane(m, a) <==> ShownWith(m, a, x)
  {
    KidsPresent(m, a);
    BlockLists(m, SideKids(m, a), x);
    assert x in Lane(m, a) <==> x == a || x in SideBlock(m, SideKids(m, a));
    if r :| r in SideKids(m, a) && ShownUnder(m, r, x) { SideKid(m, a, r); }
    if r :| r in SideChildren(m, a) && ShownUnder(m, r, x) { SideKid(m, a, r); }
  }

  /** x is displayed with some entry of the spine. */
  ghost predicate Shown(m: Forest, spine: seq<Id>, x: Id)
    requires Ordered(m)
  {
    exists a :: a in spine && ShownWith(m, a, x)
  }

  lemma {:induction false} ShownMore(m: Forest, f: seq<Id>, z: Id, x: Id)
    requires Ordered(m)
    ensures Shown(m, f + [z], x) <==> Shown(m, f, x) || ShownWith(m, z, x)
  {
    if a :| a in f + [z] && ShownWith(m, a, x) { assert a == z || a in f; }
    if a :| a in f && ShownWith(m, a, x) { assert a in f + [z]; }
    assert z in f + [z];
  }

  /** The displayed entries are exactly those shown with an entry of the spine. */
  lemma {:induction false} DisplayedExactly(m: Forest, spine: seq<Id>, x: Id)
    requires Ordered(m) && Present(m, spine)
    ensures x in Interleaved(m, spine) <==> Shown(m, spine, x)
    decreases |spine|
  {
    if spine != [] {
      var f, z := spine[..|spine| - 1], spine[|spine| - 1];
      PresentFront(m, spine);
      DisplayedExactly(m, f, x);
      LaneLists(m, z, x);
      ShownMore(m, f, z, x);
      assert f + [z] == spine;
    }
  }

  // ---------------------------------------------------------------- in which order

  /** x stands before y in q. */
  ghost predicate Before(q: seq<Id>, x: Id, y: Id) {
    exists i, j :: 0 <= i < j < |q| && q[i] == x && q[j] == y
  }

  lemma {:induction false} BeforeLeft(q: seq<Id>, r: seq<Id>, x: Id, y: Id)
    requires Before(q, x, y)
    ensures Before(q + r, x, y)
  {
    var i, j :| 0 <= i < j < |q| && q[i] == x && q[j] == y;
    assert (q + r)[i] == x && (q + r)[j] == y;
  }

  lemma {:induction false} BeforeRight(q: seq<Id>, r: seq<Id>, x: Id, y: Id)
    requires Before(r, x, y)
    ensures Before(q + r, x, y)
  {
    var i, j :| 0 <= i < j < |r| && r[i] == x && r[j] == y;
    assert (q + r)[|q| + i] == x && (q + r)[|q| + j] == y;
  }

  lemma {:induction false} BeforeAcross(q: seq<Id>, r: seq<Id>, x: Id, y: Id)
    requires x in q && y in r
    ensures Before(q + r, x, y)
  {
    var i :| 0 <= i < |q| && q[i] == x;
    var j :| 0 <= j < |r| && r[j] == y;
    assert (q + r)[i] == x && (q + r)[|q| + j] == y;
  }

  /** What has to stand before y: its elder siblings and its parent. */
  ghost predicate Precedes(m: Forest, x: Id, y: Id) {
    x in m && y in m && (m[y].parent == Some(x) || (m[x].parent == m[y].parent && m[x].index < m[y].index))
  }

  lemma {:induction false} KidsOrder(m: Forest, a: Id, x: Id, y: Id)
    requires Ordered(m) && a in m && x in SideKids(m, a) && y in SideKids(m, a) && Precedes(m, x, y)
    ensures Before(SideKids(m, a), x, y)
  {
    KidsAre(m, a, x);
    KidsAre(m, a, y);
    Up(m, x);
    InOrderIs(m, SideChildren(m, a));
    var q := SideKids(m, a);
    var i :| 0 <= i < |q| && q[i] == x;
    var j :| 0 <= j < |q| && q[j] == y;
    assert i < j;
  }

  lemma {:induction false} TailOrder(m: Forest, a: Id, x: Id, y: Id)
    requires Ordered(m) && a in m && x in SideTail(m, a) && y in SideTail(m, a) && Precedes(m, x, y)
    ensures Before(SideTail(m, a), x, y)
    decreases |Above(m, a)|
  {
    var kids := SideKids(m, a);
    var last := kids[|kids| - 1];
    LastOfKids(m, a, last);
    AboveShrinks(m, a, last);
    var tail := SideTail(m, last);
    if y in kids {
      KidFirst(m, a, x, y);
      KidsOrder(m, a, x, y);
      BeforeLeft(kids, tail, x, y);
    } else if x in kids {
      BeforeAcross(kids, tail, x, y);
    } else {
      TailOrder(m, last, x, y);
      BeforeRight(kids, tail, x, y);
    }
  }

  /** What precedes a child of a below a is a child of a. */
  lemma {:induction false} KidFirst(m: Forest, a: Id, x: Id, y: Id)
    requires Ordered(m) && a in m && x in SideTail(m, a) && y in SideKids(m, a) && Precedes(m, x, y)
    ensures x in SideKids(m, a)
  {
    TailBelow(m, a, x);
    KidsAre(m, a, y);
    KidsAre(m, a, x);
  }

  /** Blocks of elder side roots stand before younger ones, each root before what is shown under it. */
  lemma {:induction false} BlockOrder(m: Forest, roots: seq<Id>, i: nat, j: nat, x: Id, y: Id)
    requires Ordered(m) && (forall z | z in roots :: z in m) && i <= j < |roots|
    requires if i < j then ShownUnder(m, roots[i], x) && ShownUnder(m, roots[j], y)
             else (x == roots[i] && WalkLists(m, x, y)) || (WalkLists(m, roots[i], x) && WalkLists(m, roots[i], y) && Precedes(m, x, y))
    ensures Before(SideBlock(m, roots), x, y)
    decreases |roots|
  {
    var f, z := roots[..|roots| - 1], roots[|roots| - 1];
    assert z in roots && forall w | w in f :: w in roots;
    var block, own := SideBlock(m, f), [z] + SideTail(m, z);
    Regroup(block, [z], SideTail(m, z));
    TailLists(m, z, x);
    TailLists(m, z, y);
    if j < |f| {
      BlockOrder(m, f, i, j, x, y);
      BeforeLeft(block, own, x, y);
    } else if i < j {
      assert roots[i] == f[i];
      BlockLists(m, f, x);
      BeforeAcross(block, own, x, y);
    } else {
      if x == z { BeforeAcross([z], SideTail(m, z), x, y); }
      else { TailOrder(m, z, x, y); BeforeRight([z], SideTail(m, z), x, y); }
      BeforeRight(block, own, x, y);
    }
  }

  lemma {:induction false} LaneAt(m: Forest, spine: seq<Id>, i: nat, x: Id, y: Id)
    requires Ordered(m) && Present(m, spine) && i < |spine| && spine[i] in m && Before(Lane(m, spine[i]), x, y)
    ensures Before(Interleaved(m, spine), x, y)
    decreases |spine|
  {
    var f, z := spine[..|spine| - 1], spine[|spine| - 1];
    PresentFront(m, spine);
    if i < |f| {
      assert f[i] == spine[i];
      LaneAt(m, f, i, x, y);
      BeforeLeft(Interleaved(m, f), Lane(m, z), x, y);
    } else {
      BeforeRight(Interleaved(m, f), Lane(m, z), x, y);
    }
  }

  /** Everything shown with a spine entry stands before whatever is shown with a later one. */
  lemma {:induction false} LanesInOrder(m: Forest, spine: seq<Id>, i: nat, j: nat, x: Id, y: Id)
    requires Ordered(m) && Present(m, spine) && i < j < |spine|
    requires ShownWith(m, spine[i], x) && ShownWith(m, spine[j], y)
    ensures Before(Interleaved(m, spine), x, y)
    decreases |spine|
  {
    var f, z := spine[..|spine| - 1], spine[|spine| - 1];
    PresentFront(m, spine);
    assert f[i] == spine[i] && f[i] in f;
    if j < |f| {
      assert f[j] == spine[j];
      LanesInOrder(m, f, i, j, x, y);
      BeforeLeft(Interleaved(m, f), Lane(m, z), x, y);
    } else {
      assert Shown(m, f, x);
      DisplayedExactly(m, f, x);
      LaneLists(m, z, y);
      BeforeAcross(Interleaved(m, f), Lane(m, z), x, y);
    }
  }

  /** A spine entry stands before whatever is shown with it. */
  lemma {:induction false} SpineFirst(m: Forest, spine: seq<Id>, i: nat, r: Id, x: Id)
    requires Ordered(m) && Present(m, spine) && i < |spine| && r in SideChildren(m, spine[i]) && ShownUnder(m, r, x)
    ensures Before(Interleaved(m, spine), spine[i], x)
  {
    var a := spine[i];
    assert a in spine && a in m;
    KidsPresent(m, a);
    SideKid(m, a, r);
    BlockLists(m, SideKids(m, a), x);
    BeforeAcross([a], SideBlock(m, SideKids(m, a)), a, x);
    LaneAt(m, spine, i, a, x);
  }

  /** What is shown under an elder side child of a spine entry stands before what is shown under a
      younger one; and under one side child parents stand before their children, and elder siblings
      before younger ones. */
  lemma {:induction false} LaneOrder(m: Forest, spine: seq<Id>, i: nat, r: Id, s: Id, x: Id, y: Id)
    requires Ordered(m) && Present(m, spine) && i < |spine|
    requires r in SideChildren(m, spine[i]) && s in SideChildren(m, spine[i]) && ShownUnder(m, r, x) && ShownUnder(m, s, y)
    requires m[r].index < m[s].index || (r == s && Precedes(m, x, y))
    ensures Before(Interleaved(m, spine), x, y)
  {
    var a := spine[i];
    assert a in spine && a in m;
    KidsPresent(m, a);
    var roots := SideKids(m, a);
    SideKid(m, a, r);
    SideKid(m, a, s);
    InOrderIs(m, SideChildren(m, a));
    var k :| 0 <= k < |roots| && roots[k] == r;
    var l :| 0 <= l < |roots| && roots[l] == s;
    if m[r].index < m[s].index {
      assert k < l;
    } else {
      RootFirst(m, r, x, y);
      l := k;
    }
    BlockOrder(m, roots, k, l, x, y);
    BeforeRight([a], SideBlock(m, roots), x, y);
    LaneAt(m, spine, i, x, y);
  }

  /** Under one root, what precedes another entry is the root or listed by its walk, and the other is listed. */
  lemma {:induction false} RootFirst(m: Forest, r: Id, x: Id, y: Id)
    requires Ordered(m) && r in m && ShownUnder(m, r, x) && ShownUnder(m, r, y) && Precedes(m, x, y)
    ensures WalkLists(m, r, y) && (x == r || WalkLists(m, r, x))
  {
    if y == r {
      NothingAbove(m, r, x);
    }
  }

  lemma {:induction false} NothingAbove(m: Forest, r: Id, x: Id)
    requires Ordered(m) && r in m && ShownUnder(m, r, x)
    ensures !Precedes(m, x, r)
  {
    TailLists(m, r, x);
    Up(m, r);
    if x != r {
      TailBelow(m, r, x);
      LineageBelow(m, x, r);
      Up(m, x);
      if m[x].parent == m[r].parent {
        NotBelowSibling(m, x, r);
      }
    }
  }

  // ---------------------------------------------------------------- the displayed path

  /** out displays the spine: all and only the entries shown with one of its entries; each of these in
      its place between its spine entry and the next; elder side children with all that is shown under
      them before younger ones; and under one side child parents before children, elder siblings
      before younger ones. */
  ghost predicate Displays(m: Forest, spine: seq<Id>, out: seq<Id>)
    requires Ordered(m)
  {
    && (forall x :: x in out <==> Shown(m, spine, x))
    && (forall i, j, x, y | 0 <= i < j < |spine| && ShownWith(m, spine[i], x) && ShownWith(m, spine[j], y) :: Before(out, x, y))
    && (forall i, r, x | 0 <= i < |spine| && r in SideChildren(m, spine[i]) && ShownUnder(m, r, x) :: Before(out, spine[i], x))
    && (forall i, r, s, x, y | 0 <= i < |spine| && r in SideChildren(m, spine[i]) && s in SideChildren(m, spine[i])
          && ShownUnder(m, r, x) && ShownUnder(m, s, y) && (m[r].index < m[s].index || (r == s && Precedes(m, x, y))) ::
          Before(out, x, y))
  }

  lemma {:induction false} InterleavedDisplays(m: Forest, spine: seq<Id>)
    requires Ordered(m) && Present(m, spine)
    ensures Displays(m, spine, Interleaved(m, spine))
  {
    var out := Interleaved(m, spine);
    forall x ensures x in out <==> Shown(m, spine, x) { DisplayedExactly(m, spine, x); }
    forall i, j, x, y | 0 <= i < j < |spine| && ShownWith(m, spine[i], x) && ShownWith(m, spine[j], y) ensures Before(out, x, y) {
      LanesInOrder(m, spine, i, j, x, y);
    }
    forall i, r, x | 0 <= i < |spine| && r in SideChildren(m, spine[i]) && ShownUnder(m, r, x) ensures Before(out, spine[i], x) {
      SpineFirst(m, spine, i, r, x);
    }
    forall i, r, s, x, y | 0 <= i < |spine| && r in SideChildren(m, spine[i]) && s in SideChildren(m, spine[i])
      && ShownUnder(m, r, x) && ShownUnder(m, s, y) && (m[r].index < m[s].index || (r == s && Precedes(m, x, y)))
      ensures Before(out, x, y)
    {
      LaneOrder(m, spine, i, r, s, x, y);
    }
  }

  /** In particular every side child of a spine entry is displayed, behind that entry, in order with
      the others, and before the next spine entry. */
  lemma {:induction false} SideChildrenShown(m: Forest, spine: seq<Id>, i: nat, x: Id)
    requires Ordered(m) && Present(m, spine) && i < |spine| && x in SideChildren(m, spine[i])
    ensures x in Interleaved(m, spine) && Before(Interleaved(m, spine), spine[i], x)
    ensures i + 1 < |spine| ==> Before(Interleaved(m, spine), x, spine[i + 1])
    ensures forall y | y in SideChildren(m, spine[i]) && m[x].index < m[y].index :: Before(Interleaved(m, spine), x, y)
  {
    InterleavedDisplays(m, spine);
    assert ShownUnder(m, x, x);
    assert ShownWith(m, spine[i], x);
    assert spine[i] in spine;
    if i + 1 < |spine| { assert ShownWith(m, spine[i + 1], spine[i + 1]); }
    forall y | y in SideChildren(m, spine[i]) && m[x].index < m[y].index ensures Before(Interleaved(m, spine), x, y) {
      assert ShownUnder(m, y, y);
    }
  }
}
