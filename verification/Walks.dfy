/**
 The walks of the client over its rows: child lists, the newest line, the active path and the
 side lane. Each reads a lookup: the forest of rows and the ids that carry the chosen flag.
 */
module Walks {
  import opened Options
  import opened Entries
  import opened Forest
  import opened View
  import opened SideLane
  import opened Display
  import opened Repo

  /** Spine children of a parent, in index order. */
  method ChildEntries(m: Forest, parent: Option<Id>) returns (kids: seq<Id>)
    requires Ordered(m)
    ensures IsIndexOrder(m, SpineChildren(m, parent), kids)
  {
    var s := set k | k in m && m[k].parent == parent && !m[k].isSide;
    assert s == SpineChildren(m, parent);
    kids := OrderByIndex(m, s);
  }

  /** Side children of an entry, in index order. */
  method SideChildrenOf(m: Forest, id: Id) returns (kids: seq<Id>)
    requires Ordered(m)
    ensures kids == SideKids(m, id)
  {
    var s := set k | k in m && m[k].parent == Some(id) && m[k].isSide;
    assert s == SideChildren(m, id);
    kids := OrderByIndex(m, s);
    InOrderIs(m, s);
    IndexOrderUnique(m, s, kids, SideKids(m, id));
  }

  /** The newest spine child, if there is one. */
  method LastChild(m: Forest, parent: Option<Id>) returns (last: Option<Id>)
    requires Ordered(m)
    ensures last.None? <==> SpineChildren(m, parent) == {}
    ensures last.Some? ==> IsNewest(m, SpineChildren(m, parent), last.value)
  {
    var kids := ChildEntries(m, parent);
    if |kids| == 0 {
      EmptyOrder(m, SpineChildren(m, parent), kids);
      return None;
    }
    LastIsNewest(m, SpineChildren(m, parent), kids);
    return Some(kids[|kids| - 1]);
  }

  /** The ids from a leaf up to its root. None: a parent on the way is unknown. */
  method WalkUp(m: Forest, leaf: Id) returns (pathIds: Option<seq<Id>>)
    requires Ordered(m)
    ensures pathIds.Some? <==> Rooted(m, leaf)
    ensures pathIds.Some? ==> Elements(pathIds.value) == Elements(Lineage(m, leaf))
  {
    var ids: seq<Id> := [];
    var cursor, seen: set<Id> := Some(leaf), {};
    while cursor.Some? && cursor.value !in seen
      invariant Walked(m, leaf, ids, cursor)
      invariant cursor.Some? && cursor.value in m ==> forall x | x in seen :: Rank(m, cursor.value) < Rank(m, x)
      invariant forall x | x in seen :: x in m
      decreases if cursor.Some? && cursor.value in m then Rank(m, cursor.value) + 1 else 0
    {
      if cursor.value !in m { return None; }
      Up(m, cursor.value);
      WalkedMore(m, leaf, ids, cursor.value);
      seen := seen + {cursor.value};
      ids := ids + [cursor.value];
      cursor := m[cursor.value].parent;
    }
    return Some(ids);
  }

  /** A walk up from leaf has listed ids and goes on at the cursor. */
  ghost predicate Walked(m: Forest, leaf: Id, ids: seq<Id>, cursor: Option<Id>)
    requires Ordered(m)
  {
    && (cursor.None? ==> Rooted(m, leaf) && Elements(ids) == Elements(Lineage(m, leaf)))
    && (cursor.Some? && cursor.value !in m ==> !Rooted(m, leaf))
    && (cursor.Some? && cursor.value in m ==>
          && leaf in m && Lineage(m, leaf)[0] == Lineage(m, cursor.value)[0]
          && Elements(ids) + Elements(Lineage(m, cursor.value)) == Elements(Lineage(m, leaf)))
  }

  lemma {:induction false} WalkedMore(m: Forest, leaf: Id, ids: seq<Id>, a: Id)
    requires Ordered(m) && a in m && Walked(m, leaf, ids, Some(a))
    ensures Walked(m, leaf, ids + [a], m[a].parent)
  {
    assert Elements(ids + [a]) == Elements(ids) + {a};
    if HasParent(m, a) {
      assert Elements(Lineage(m, a)) == Elements(Lineage(m, m[a].parent.value)) + {a};
    } else {
      assert Elements([a]) == {a};
    }
  }

  /** Down the newest spine children to a leaf. */
  method WalkToLatestLeaf(m: Forest, start: Id) returns (leaf: Id)
    requires Ordered(m) && start in m
    ensures leaf == NewestLeaf(m, start)
  {
    leaf := start;
    var visited: set<Id> := {};
    while leaf !in visited
      invariant leaf in m && NewestLeaf(m, leaf) == NewestLeaf(m, start)
      invariant forall v | v in visited :: v in m && Rank(m, v) < Rank(m, leaf)
      decreases |Above(m, leaf)|
    {
      visited := visited + {leaf};
      var next := LastChild(m, Some(leaf));
      if next.None? { return; }
      Up(m, next.value);
      NewestLineStep(m, leaf, next.value);
      AboveShrinks(m, leaf, next.value);
      leaf := next.value;
    }
    assert false;
  }

  method ResolveViewTipFromAnchor(m: Forest, anchor: Option<Id>) returns (tip: Option<Id>)
    requires Ordered(m)
    ensures tip == ViewTip(m, anchor)
  {
    var start := anchor;
    if !(anchor.Some? && anchor.value in m) {
      start := LastChild(m, None);
      if start.None? { return None; }
      NewestUnique(m, SpineChildren(m, None), start.value, Newest(m, SpineChildren(m, None)));
    }
    var z := WalkToLatestLeaf(m, start.value);
    return Some(z);
  }

  // ---------------------------------------------------------------- the active path

  /** find: the first chosen entry of a list of siblings. */
  method FindChosen(m: Forest, chosen: set<Id>, kids: seq<Id>, ghost parent: Option<Id>) returns (c: Option<Id>)
    requires Ordered(m) && IsIndexOrder(m, SpineChildren(m, parent), kids)
    ensures c == FirstChosen(m, chosen, parent)
  {
    for i := 0 to |kids|
      invariant forall j | 0 <= j < i :: kids[j] !in chosen
    {
      if kids[i] in chosen {
        FirstIsOldest(m, SpineChildren(m, parent), chosen, kids, i);
        return Some(kids[i]);
      }
    }
    assert forall x | x in SpineChildren(m, parent) :: x in Elements(kids);
    assert SpineChildren(m, parent) * chosen == {};
    return None;
  }

  method SpineFromChosen(m: Forest, chosen: set<Id>) returns (spine: seq<Id>)
    requires Ordered(m)
    ensures spine == PathSpine(m, chosen)
  {
    var roots := ChildEntries(m, None);
    if |roots| == 0 { EmptyOrder(m, SpineChildren(m, None), roots); return []; }
    assert roots[0] in Elements(roots);
    var start := FindChosen(m, chosen, roots, None);
    LastIsNewest(m, SpineChildren(m, None), roots);
    NewestUnique(m, SpineChildren(m, None), roots[|roots| - 1], Newest(m, SpineChildren(m, None)));
    var cursor := if start.Some? then start.value else roots[|roots| - 1];
    assert PathSpine(m, chosen) == Follow(m, chosen, cursor);
    spine := FollowChosen(m, chosen, cursor);
  }

  method FollowChosen(m: Forest, chosen: set<Id>, start: Id) returns (spine: seq<Id>)
    requires Ordered(m) && start in m
    ensures spine == Follow(m, chosen, start)
  {
    var cursor := start;
    spine := [cursor];
    while true
      invariant cursor in m && spine != [] && spine[|spine| - 1] == cursor
      invariant spine[..|spine| - 1] + Follow(m, chosen, cursor) == Follow(m, chosen, start)
      decreases |Above(m, cursor)|
    {
      var kids := ChildEntries(m, Some(cursor));
      var next := FindChosen(m, chosen, kids, Some(cursor));
      if next.None? {
        assert spine == spine[..|spine| - 1] + [cursor];
        return;
      }
      AboveShrinks(m, cursor, next.value);
      FollowStep(m, chosen, cursor, next.value, spine);
      spine := spine + [next.value];
      cursor := next.value;
    }
  }

  method InterleaveSideLane(m: Forest, spine: seq<Id>) returns (out: seq<Id>)
    requires Ordered(m) && Present(m, spine)
    ensures out == Interleaved(m, spine) && Displays(m, spine, out)
  {
    out := [];
    for i := 0 to |spine|
      invariant Present(m, spine[..i]) && out == Interleaved(m, spine[..i])
    {
      ghost var more := spine[..i + 1];
      assert more[..|more| - 1] == spine[..i] && more[|more| - 1] == spine[i];
      assert Present(m, more);
      var lane := SideSegments(m, spine[i]);
      Regroup(out, [spine[i]], lane);
      out := out + [spine[i]] + lane;
    }
    assert spine[..|spine|] == spine;
    InterleavedDisplays(m, spine);
  }

  /** The side segments of one spine entry: each side root, then the walk below it. */
  method SideSegments(m: Forest, a: Id) returns (out: seq<Id>)
    requires Ordered(m) && a in m
    ensures forall x | x in SideKids(m, a) :: x in m
    ensures out == SideBlock(m, SideKids(m, a))
  {
    var roots := SideChildrenOf(m, a);
    forall x | x in roots ensures x in m { SideKid(m, a, x); }
    out := SideSegmentsOf(m, roots);
  }

  method SideSegmentsOf(m: Forest, roots: seq<Id>) returns (out: seq<Id>)
    requires Ordered(m) && forall x | x in roots :: x in m
    ensures out == SideBlock(m, roots)
  {
    out := [];
    for i := 0 to |roots|
      invariant forall x | x in roots[..i] :: x in m
      invariant out == SideBlock(m, roots[..i])
    {
      ghost var more := roots[..i + 1];
      assert more[..|more| - 1] == roots[..i] && more[|more| - 1] == roots[i];
      assert forall x | x in more :: x in roots;
      var tail := SideWalk(m, roots[i]);
      out := out + [roots[i]] + tail;
    }
    assert roots[..|roots|] == roots;
  }

  method SideWalk(m: Forest, a: Id) returns (out: seq<Id>)
    requires Ordered(m) && a in m
    ensures out == SideTail(m, a)
  {
    out := [];
    var cursor := a;
    while true
      invariant cursor in m && out + SideTail(m, cursor) == SideTail(m, a)
      decreases |Above(m, cursor)|
    {
      var kids := SideChildrenOf(m, cursor);
      if |kids| == 0 {
        assert out + [] == out;
        return;
      }
      var last := kids[|kids| - 1];
      SideKid(m, cursor, last);
      AboveShrinks(m, cursor, last);
      Regroup(out, kids, SideTail(m, last));
      out := out + kids;
      cursor := last;
    }
  }

  lemma {:induction false} SpinePartStep(m: Forest, q: seq<Id>, i: nat)
    requires 0 < i <= |q|
    ensures SpinePart(m, q[..i])
              == SpinePart(m, q[..i - 1]) + (if q[i - 1] in m && !m[q[i - 1]].isSide then [q[i - 1]] else [])
  {
    assert q[..i][..i - 1] == q[..i - 1] && q[..i][i - 1] == q[i - 1];
  }

  /** The whole active path as displayed. */
  method PathFromChosen(m: Forest, chosen: set<Id>) returns (path: seq<Id>)
    requires Ordered(m)
    ensures Present(m, PathSpine(m, chosen))
    ensures path == Interleaved(m, PathSpine(m, chosen)) && Displays(m, PathSpine(m, chosen), path)
    ensures NoDup(path) && SpinePart(m, path) == PathSpine(m, chosen)
  {
    var spine := SpineFromChosen(m, chosen);
    PathIsChain(m, chosen);
    forall x | x in spine ensures x in m {
      var i :| 0 <= i < |spine| && spine[i] == x;
      assert Link(m, spine, i);
    }
    path := InterleaveSideLane(m, spine);
    InterleavedNoDup(m, spine);
    InterleavedSpine(m, spine);
  }

  /** The last spine entry of the displayed path. */
  method ActivePathTipId(m: Forest, chosen: set<Id>) returns (tip: Option<Id>)
    requires Ordered(m)
    ensures tip == if PathSpine(m, chosen) == [] then None else Some(PathSpine(m, chosen)[|PathSpine(m, chosen)| - 1])
  {
    var path := PathFromChosen(m, chosen);
    tip := LastSpineEntry(m, path);
  }

  method LastSpineEntry(m: Forest, path: seq<Id>) returns (tip: Option<Id>)
    ensures tip == if SpinePart(m, path) == [] then None else Some(SpinePart(m, path)[|SpinePart(m, path)| - 1])
  {
    var i := |path|;
    assert path[..i] == path;
    while i > 0
      invariant 0 <= i <= |path| && SpinePart(m, path[..i]) == SpinePart(m, path)
    {
      SpinePartStep(m, path, i);
      if path[i - 1] in m && !m[path[i - 1]].isSide { return Some(path[i - 1]); }
      i := i - 1;
    }
    return None;
  }

  // ---------------------------------------------------------------- lists and orders

  lemma {:induction false} EmptyOrder(m: Forest, s: set<Id>, q: seq<Id>)
    requires IsIndexOrder(m, s, q) && |q| == 0
    ensures s == {}
  {
    assert Elements(q) == {};
  }

  lemma {:induction false} LastIsNewest(m: Forest, s: set<Id>, q: seq<Id>)
    requires IsIndexOrder(m, s, q) && |q| > 0
    ensures IsNewest(m, s, q[|q| - 1])
  {
    IndexOrderFront(m, s, q);
  }

  lemma {:induction false} FirstIsOldest(m: Forest, s: set<Id>, chosen: set<Id>, q: seq<Id>, i: nat)
    requires Ordered(m) && IsIndexOrder(m, s, q) && i < |q| && q[i] in chosen
    requires forall j | 0 <= j < i :: q[j] !in chosen
    ensures s <= m.Keys && s * chosen != {} && Oldest(m, s * chosen) == q[i]
  {
    assert q[i] in Elements(q);
    forall x | x in s ensures x in m && (x in chosen ==> m[q[i]].index <= m[x].index) {
      assert x in Elements(q);
      var j :| 0 <= j < |q| && q[j] == x;
    }
    assert q[i] in s * chosen;
  }

  lemma {:induction false} PrefixOnePerFork(m: Forest, q: seq<Id>, line: seq<Id>, i: nat)
    requires OnePerFork(m, line) && Elements(q) == Elements(line) && i <= |q|
    ensures OnePerFork(m, q[..i])
  {
    forall x | x in q[..i] ensures x in line {
      assert x in Elements(q);
      assert x in Elements(line);
    }
  }

  lemma {:induction false} SamePath(m: Forest, chosen: set<Id>, q: seq<Id>, r: seq<Id>)
    requires Elements(q) == Elements(r) && (forall x | x in q :: x in m) && forall x | x in r :: x in m
    ensures ChoosePath(m, chosen, q) == ChoosePath(m, chosen, r)
  {
    assert forall x :: x in q <==> x in Elements(q);
    assert forall x :: x in r <==> x in Elements(r);
    assert Rivals(m, q) == Rivals(m, r);
  }

  lemma {:induction false} FollowStep(m: Forest, chosen: set<Id>, a: Id, c: Id, spine: seq<Id>)
    requires Ordered(m) && a in m && FirstChosen(m, chosen, Some(a)) == Some(c)
    requires spine != [] && spine[|spine| - 1] == a
    ensures spine[..|spine| - 1] + Follow(m, chosen, a) == spine + Follow(m, chosen, c)
  {
    assert Follow(m, chosen, a) == [a] + Follow(m, chosen, c);
  }
}
