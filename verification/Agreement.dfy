/**
 The client and the server derive the same branch from the same stored rows and the same anchor.
 The client may hold optimistic rows besides, which the server does not know.
 */
module Agreement {
  import opened Options
  import opened Entries
  import opened Forest
  import opened View
  import opened SideLane
  import opened Repo

  /** The rows of the client that the server has: all but the optimistic ones. */
  ghost function StoredPart(m: Forest): Forest {
    map a | a in m && m[a].index >= 0 :: m[a]
  }

  /** What the client can hold: stored rows as the server has them, and optimistic rows. */
  ghost predicate ClientRows(m: Forest) {
    Ordered(m) && WellFormed(StoredPart(m))
  }

  ghost predicate OnSpine(m: Forest, q: seq<Id>) {
    forall x | x in q :: x in m && !m[x].isSide
  }

  /** What the client's newest line adds to that of the server. */
  ghost function Tail(m: Forest, a: Id): seq<Id>
    requires ClientRows(m) && a in StoredPart(m)
  {
    NewestLineFacts(StoredPart(m), a);
    NewestLine(m, NewestLeaf(StoredPart(m), a))[1..]
  }

  /** The lineage of the leaf that the server resolves from a, and after it the optimistic rows of
      the client below that leaf. */
  ghost function ServerLine(m: Forest, a: Id): seq<Id>
    requires ClientRows(m) && a in StoredPart(m)
  {
    NewestLineFacts(StoredPart(m), a);
    Lineage(StoredPart(m), NewestLeaf(StoredPart(m), a)) + Tail(m, a)
  }

  /** The stored lineage of a starts at a root and never leaves the spine. */
  ghost predicate Followable(m: Forest, a: Id)
    requires ClientRows(m)
  {
    var s := StoredPart(m);
    Rooted(s, a) && OnSpine(s, Lineage(s, a))
  }

  // ---------------------------------------------------------------- optimistic rows come last

  lemma {:induction false} StoredNewest(m: Forest, p: Option<Id>)
    requires ClientRows(m) && SpineChildren(StoredPart(m), p) != {}
    ensures SpineChildren(m, p) != {}
    ensures Newest(m, SpineChildren(m, p)) == Newest(StoredPart(m), SpineChildren(StoredPart(m), p))
  {
    var s := StoredPart(m);
    var d :| d in SpineChildren(s, p);
    assert d in SpineChildren(m, p);
    var c := Newest(m, SpineChildren(m, p));
    assert m[d].index <= m[c].index;
    forall x | x in SpineChildren(s, p) ensures s[x].index <= s[c].index {
      assert x in SpineChildren(m, p);
    }
    NewestUnique(s, SpineChildren(s, p), c, Newest(s, SpineChildren(s, p)));
  }

  lemma {:induction false} TailStep(m: Forest, a: Id, c: Id)
    requires ClientRows(m) && a in StoredPart(m) && IsNewest(StoredPart(m), SpineChildren(StoredPart(m), Some(a)), c)
    ensures Tail(m, c) == Tail(m, a) && NewestLine(m, a) == [a] + NewestLine(m, c)
    ensures NewestLine(StoredPart(m), a) == [a] + NewestLine(StoredPart(m), c)
  {
    var s := StoredPart(m);
    StoredNewest(m, Some(a));
    NewestUnique(s, SpineChildren(s, Some(a)), c, Newest(s, SpineChildren(s, Some(a))));
    NewestLineStep(s, a, c);
    NewestLineStep(m, a, c);
    assert NewestLeaf(s, a) == NewestLeaf(s, c);
  }

  /** The newest line of the client is that of the server, and then goes on through optimistic rows. */
  lemma {:induction false} StoredLine(m: Forest, a: Id)
    requires ClientRows(m) && a in StoredPart(m)
    ensures NewestLine(m, a) == NewestLine(StoredPart(m), a) + Tail(m, a)
    decreases |Above(m, a)|
  {
    var s := StoredPart(m);
    var kids := SpineChildren(s, Some(a));
    if kids == {} {
      assert NewestLine(s, a) == [a];
      assert NewestLine(m, a) == [a] + NewestLine(m, a)[1..];
    } else {
      var c := Newest(s, kids);
      AboveShrinks(m, a, c);
      StoredLine(m, c);
      TailStep(m, a, c);
      Regroup([a], NewestLine(s, c), Tail(m, c));
    }
  }

  /** A stored lineage that reaches a root is the lineage at the client, too. */
  lemma {:induction false} StoredLineage(m: Forest, a: Id)
    requires ClientRows(m) && Rooted(StoredPart(m), a)
    ensures a in m && Lineage(m, a) == Lineage(StoredPart(m), a)
    decreases Rank(StoredPart(m), a)
  {
    var s := StoredPart(m);
    Up(s, a);
    if HasParent(s, a) {
      StoredLineage(m, s[a].parent.value);
    }
  }

  lemma {:induction false} ServerLineIs(m: Forest, a: Id)
    requires ClientRows(m) && Rooted(StoredPart(m), a)
    ensures NewestLeaf(m, a) in m && Lineage(m, NewestLeaf(m, a)) == ServerLine(m, a)
    ensures ServerLine(m, a) == Lineage(StoredPart(m), a) + NewestLine(m, a)[1..]
  {
    var s := StoredPart(m);
    StoredLineage(m, a);
    StoredLine(m, a);
    NewestLineFacts(m, a);
    NewestLineFacts(s, a);
    DropFirst(NewestLine(s, a), Tail(m, a));
    Regroup(Lineage(s, a), NewestLine(s, a)[1..], Tail(m, a));
  }

  lemma {:induction false} LeadAll(m: Forest, q: seq<Id>)
    requires OnSpine(m, q)
    ensures Lead(m, q) == |q|
  {
    var k := Lead(m, q);
    if k < |q| { assert q[k] in q; }
  }

  lemma {:induction false} ServerLineOnSpine(m: Forest, a: Id)
    requires ClientRows(m) && Followable(m, a)
    ensures OnSpine(m, ServerLine(m, a))
  {
    var s := StoredPart(m);
    ServerLineIs(m, a);
    forall x | x in ServerLine(m, a) ensures x in m && !m[x].isSide {
      if x in Lineage(s, a) {
        assert x in s;
      } else {
        assert x in NewestLine(m, a);
        LineBelow(m, a, x);
        assert x != a by { assert a == Lineage(s, a)[|Lineage(s, a)| - 1]; }
      }
    }
  }

  // ---------------------------------------------------------------- agreement

  /** With an anchor that both sides know, the spine of the client's active path, whatever was
      chosen before, is the line of the server, continued by optimistic rows, exactly if that line
      starts at a root and never leaves the spine. */
  lemma {:induction false} ClientFollowsServer(m: Forest, c: Conversation, chosen: set<Id>, a: Id)
    requires ClientRows(m) && c.rows == StoredPart(m) && c.anchor == Some(a) && a in c.rows
    ensures DefaultViewLeaf(c).Some? && DefaultViewLeaf(c).value in c.rows
    ensures ServerLine(m, a)
              == Lineage(c.rows, DefaultViewLeaf(c).value) + NewestLine(m, DefaultViewLeaf(c).value)[1..]
    ensures PathSpine(m, Synced(m, chosen, c.anchor)) == ServerLine(m, a) <==> Followable(m, a)
  {
    NewestLineFacts(c.rows, a);
    if Followable(m, a) {
      FollowsServer(m, chosen, a);
    }
    if PathSpine(m, Synced(m, chosen, c.anchor)) == ServerLine(m, a) {
      OnlyFollowable(m, Synced(m, chosen, c.anchor), a);
    }
  }

  lemma {:induction false} FollowsServer(m: Forest, chosen: set<Id>, a: Id)
    requires ClientRows(m) && Followable(m, a)
    ensures PathSpine(m, Synced(m, chosen, Some(a))) == ServerLine(m, a)
  {
    var z := NewestLeaf(m, a);
    ServerLineIs(m, a);
    ServerLineOnSpine(m, a);
    LeadAll(m, Lineage(m, z));
    TipPresent(m, Some(a));
    assert Rooted(m, z);
    ChosenLineageIsPath(m, chosen, z);
  }

  lemma {:induction false} OnlyFollowable(m: Forest, flags: set<Id>, a: Id)
    requires ClientRows(m) && a in StoredPart(m) && PathSpine(m, flags) == ServerLine(m, a)
    ensures Followable(m, a)
  {
    var s, path := StoredPart(m), PathSpine(m, flags);
    NewestLineFacts(s, a);
    PathIsChain(m, flags);
    var l := Lineage(s, a);
    forall i | 0 <= i < |l| ensures l[i] in s && !s[l[i]].isSide {
      LineageSteps(s, a, i);
      assert path[i] == l[i] && Link(m, path, i);
    }
    assert path[0] == l[0];
  }

  /** A line that leaves the spine is shown as far as its first side entry. */
  lemma {:induction false} ShownUpToSide(m: Forest, chosen: set<Id>, a: Id)
    requires ClientRows(m) && Rooted(StoredPart(m), a) && Lead(m, ServerLine(m, a)) > 0
    ensures PathSpine(m, Synced(m, chosen, Some(a))) == ServerLine(m, a)[..Lead(m, ServerLine(m, a))]
  {
    var z := NewestLeaf(m, a);
    ServerLineIs(m, a);
    TipPresent(m, Some(a));
    assert Rooted(m, z);
    ChosenLineageIsPath(m, chosen, z);
  }

  // ---------------------------------------------------------------- optimistic rows

  /** An optimistic row that the client may add. */
  ghost predicate NewOptimistic(m: Forest, id: Id, r: Row) {
    && Fresh(m, id) && r.parent != Some(id) && r.index < 0 && !r.isSide
    && forall a | a in m :: m[a].index != r.index
  }

  /** Below the server's leaf the client's line goes on into an optimistic row, or not at all. */
  lemma {:induction false} TailIsOptimistic(m: Forest, a: Id)
    requires ClientRows(m) && a in StoredPart(m)
    ensures Tail(m, a) != [] ==> Tail(m, a)[0] in m && m[Tail(m, a)[0]].index < 0
  {
    var s := StoredPart(m);
    NewestLineFacts(s, a);
    var leaf := NewestLeaf(s, a);
    if Tail(m, a) != [] {
      var c := Newest(m, SpineChildren(m, Some(leaf)));
      NewestLineStep(m, leaf, c);
      assert c in SpineChildren(m, Some(leaf));
      assert m[c].index >= 0 ==> c in SpineChildren(s, Some(leaf));
    }
  }

  lemma {:induction false} OptimisticRows(m: Forest, id: Id, r: Row)
    requires ClientRows(m) && NewOptimistic(m, id, r)
    ensures ClientRows(m[id := r]) && StoredPart(m[id := r]) == StoredPart(m)
  {
    OrderedAppend(m, id, r);
    assert StoredPart(m[id := r]) == StoredPart(m);
  }

  lemma {:induction false} SameKids(m: Forest, n: Forest, id: Id, r: Row, a: Id)
    requires Ordered(m) && Ordered(n) && n == m[id := r] && id !in m && r.parent != Some(a)
    requires SpineChildren(m, Some(a)) != {}
    ensures SpineChildren(n, Some(a)) == SpineChildren(m, Some(a))
    ensures Newest(n, SpineChildren(n, Some(a))) == Newest(m, SpineChildren(m, Some(a)))
  {
    var kids := SpineChildren(m, Some(a));
    assert SpineChildren(n, Some(a)) == kids;
    NewestUnique(n, kids, Newest(m, kids), Newest(n, kids));
  }

  /** A new row under the last entry of a newest line is its new end; one whose parent is not on
      the line leaves the line alone. */
  lemma {:induction false} LineGrows(m: Forest, id: Id, r: Row, a: Id)
    requires ClientRows(m) && NewOptimistic(m, id, r) && a in m && r.parent.Some?
    requires r.parent.value in NewestLine(m, a) ==> r.parent.value == NewestLeaf(m, a)
    ensures ClientRows(m[id := r])
    ensures NewestLine(m[id := r], a) == NewestLine(m, a) + (if r.parent.value == NewestLeaf(m, a) then [id] else [])
    decreases |Above(m, a)|
  {
    var n := m[id := r];
    OptimisticRows(m, id, r);
    var kids := SpineChildren(m, Some(a));
    if kids != {} {
      var c := Newest(m, kids);
      AboveShrinks(m, a, c);
      NewestLineStep(m, a, c);
      NotYet(m, r, a, c);
      SameKids(m, n, id, r, a);
      LineGrows(m, id, r, c);
      Regroup([a], NewestLine(m, c), if r.parent.value == NewestLeaf(m, a) then [id] else []);
    } else {
      assert NewestLine(m, a) == [a] && NewestLeaf(m, a) == a;
      EndOfLine(m, id, r, a);
    }
  }

  lemma {:induction false} NotYet(m: Forest, r: Row, a: Id, c: Id)
    requires Ordered(m) && a in m && IsNewest(m, SpineChildren(m, Some(a)), c) && r.parent.Some?
    requires r.parent.value in NewestLine(m, a) ==> r.parent.value == NewestLeaf(m, a)
    ensures r.parent != Some(a) && NewestLeaf(m, a) == NewestLeaf(m, c)
    ensures r.parent.value in NewestLine(m, c) ==> r.parent.value == NewestLeaf(m, c)
  {
    NewestLineStep(m, a, c);
    NewestLineFacts(m, a);
    assert a in NewestLine(m, a);
  }

  lemma {:induction false} EndOfLine(m: Forest, id: Id, r: Row, a: Id)
    requires Ordered(m) && Ordered(m[id := r]) && NewOptimistic(m, id, r) && a in m && SpineChildren(m, Some(a)) == {}
    ensures NewestLine(m[id := r], a) == [a] + (if r.parent == Some(a) then [id] else [])
  {
    var n := m[id := r];
    if r.parent == Some(a) {
      assert SpineChildren(n, Some(a)) == {id};
      assert SpineChildren(n, Some(id)) == {};
      assert IsNewest(n, {id}, id);
      NewestLineStep(n, a, id);
      assert NewestLine(n, id) == [id];
    } else {
      assert SpineChildren(n, Some(a)) == {};
    }
  }

  /** While a sent message is on its way: an optimistic row under the last entry of the line is shown
      at its end, and one whose parent is not on the line, like a side entry, is not shown at all. */
  lemma {:induction false} OptimisticShown(m: Forest, chosen: set<Id>, a: Id, id: Id, r: Row)
    requires ClientRows(m) && Followable(m, a) && NewOptimistic(m, id, r) && r.parent.Some?
    requires r.parent.value in NewestLine(m, a) ==> r.parent.value == NewestLeaf(m, a)
    ensures ClientRows(m[id := r]) && Followable(m[id := r], a)
    ensures PathSpine(m[id := r], Synced(m[id := r], chosen, Some(a)))
              == ServerLine(m, a) + (if r.parent.value == NewestLeaf(m, a) then [id] else [])
  {
    var n := m[id := r];
    OptimisticRows(m, id, r);
    FollowsServer(n, chosen, a);
    ServerLineIs(n, a);
    ServerLineIs(m, a);
    LineGrows(m, id, r, a);
    var more := if r.parent.value == NewestLeaf(m, a) then [id] else [];
    DropFirst(NewestLine(m, a), more);
    Regroup(Lineage(StoredPart(m), a), NewestLine(m, a)[1..], more);
  }

  lemma {:induction false} LastShown(m: Forest, spine: seq<Id>)
    requires Ordered(m) && Chain(m, spine) && Present(m, spine) && spine != []
    ensures Interleaved(m, spine) != []
    ensures var q := Interleaved(m, spine); q[|q| - 1] in m && !m[q[|q| - 1]].isSide ==> q[|q| - 1] == spine[|spine| - 1]
  {
    InterleavedSpine(m, spine);
    var q := Interleaved(m, spine);
    assert SpinePart(m, q) == spine;
  }

  /** The composer sends a message under the last row it displays, of either lane. While the message
      is on its way it is shown exactly if that row is a spine entry. */
  lemma {:induction false} SentFromPath(m: Forest, flags: set<Id>, a: Id, id: Id, r: Row)
    requires ClientRows(m) && Followable(m, a) && PathSpine(m, flags) == ServerLine(m, a) && NewOptimistic(m, id, r)
    requires Present(m, ServerLine(m, a)) && Chain(m, ServerLine(m, a))
    requires var q := Interleaved(m, ServerLine(m, a)); q != [] && q[|q| - 1] in m && r.parent == Some(q[|q| - 1])
    ensures ClientRows(m[id := r])
    ensures PathSpine(m[id := r], Synced(m[id := r], flags, Some(a)))
              == ServerLine(m, a) + (if m[r.parent.value].isSide then [] else [id])
  {
    ServerLineIs(m, a);
    NewestLineFacts(m, a);
    LastShown(m, ServerLine(m, a));
    ServerLineOnSpine(m, a);
    forall x | x in NewestLine(m, a) ensures x in m && !m[x].isSide {
      LineBelow(m, a, x);
      assert x == a ==> a == Lineage(StoredPart(m), a)[|Lineage(StoredPart(m), a)| - 1];
    }
    assert NewestLeaf(m, a) in NewestLine(m, a);
    OptimisticShown(m, flags, a, id, r);
  }

  /** The stored message takes the place of its optimistic row, at the next index. */
  lemma {:induction false} RekeyKeeps(m: Forest, oldId: Id, id: Id, r: Row)
    requires ClientRows(m) && oldId in m && m[oldId].index < 0 && MayAppend(StoredPart(m), id, r)
    requires forall a | a in m && a != oldId :: a != id && m[a].parent != Some(id)
    ensures ClientRows((m - {oldId})[id := r])
    ensures StoredPart((m - {oldId})[id := r]) == StoredPart(m)[id := r]
  {
    var n := (m - {oldId})[id := r];
    OrderedLess(m, oldId);
    forall a | a in m - {oldId} ensures m[a].index != r.index {
      if m[a].index >= 0 { assert a in StoredPart(m); }
    }
    OrderedAppend(m - {oldId}, id, r);
    AppendKeeps(StoredPart(m), id, r);
    assert StoredPart(n) == StoredPart(m)[id := r];
  }

  // ---------------------------------------------------------------- where lines leave the spine

  /** No spine entry of q hangs under a side entry. */
  ghost predicate NoneUnderSide(m: Forest, q: seq<Id>) {
    forall x | x in q && HasParent(m, x) && m[m[x].parent.value].isSide :: m[x].isSide
  }

  /** The lineage of a spine entry stays on the spine exactly if no spine entry of it hangs under
      a side entry. */
  lemma {:induction false} OnSpineExactly(m: Forest, a: Id)
    requires Ordered(m) && a in m && !m[a].isSide
    ensures OnSpine(m, Lineage(m, a)) <==> NoneUnderSide(m, Lineage(m, a))
    decreases Rank(m, a)
  {
    Up(m, a);
    LineagePresent(m, a);
    if HasParent(m, a) {
      var p := m[a].parent.value;
      var l, q := Lineage(m, a), Lineage(m, p);
      assert l == q + [a];
      assert p == q[|q| - 1] && p in q && a in l;
      assert forall x | x in q :: x in l;
      if m[p].isSide {
        assert !OnSpine(m, l) && !NoneUnderSide(m, l);
      } else {
        OnSpineExactly(m, p);
        assert OnSpine(m, l) <==> OnSpine(m, q);
        assert NoneUnderSide(m, l) <==> NoneUnderSide(m, q);
      }
    } else {
      assert Lineage(m, a) == [a];
    }
  }

  /** So for a rooted spine leaf the two sides agree exactly if no spine entry on the leaf's lineage
      has a side parent. */
  lemma {:induction false} AgreementAtLeaf(m: Forest, chosen: set<Id>, a: Id)
    requires ClientRows(m) && Rooted(StoredPart(m), a)
    ensures var s := StoredPart(m); var leaf := NewestLeaf(s, a);
            leaf in s && (!s[leaf].isSide ==>
              (PathSpine(m, Synced(m, chosen, Some(a))) == ServerLine(m, a) <==> NoneUnderSide(s, Lineage(s, leaf))))
  {
    var s := StoredPart(m);
    var leaf := NewestLeaf(s, a);
    NewestLineFacts(s, a);
    if !s[leaf].isSide {
      ClientFollowsServer(m, EMPTY.(rows := s, anchor := Some(a)), chosen, a);
      OnSpineExactly(s, leaf);
      SpineBelow(s, a);
    }
  }

  lemma {:induction false} SpineBelow(m: Forest, a: Id)
    requires Ordered(m) && a in m
    ensures NewestLeaf(m, a) in m
    ensures !m[NewestLeaf(m, a)].isSide ==> (OnSpine(m, Lineage(m, NewestLeaf(m, a))) <==> OnSpine(m, Lineage(m, a)))
  {
    NewestLineFacts(m, a);
    var l, line := Lineage(m, a), NewestLine(m, a);
    assert forall x | x in l :: x in l + line[1..];
    forall x | x in line[1..] ensures x in m && (x != a ==> !m[x].isSide) {
      assert x in line;
      LineBelow(m, a, x);
    }
    assert l[|l| - 1] == a && a in l;
  }

  /** When a message is appended and becomes the anchor, as the message route does, its line is
      followable exactly if it has no parent or one whose own lineage is. */
  lemma {:induction false} MessageFollowable(m: Forest, id: Id, r: Row)
    requires WellFormed(m) && MayAppend(m, id, r) && !r.isSide
    ensures ClientRows(m) && ClientRows(m[id := r])
    ensures Followable(m[id := r], id) <==> r.parent == None || Followable(m, r.parent.value)
  {
    var n := m[id := r];
    AppendKeeps(m, id, r);
    AllStored(m);
    AllStored(n);
    assert r.parent.Some? && r.parent.value in m ==> Lineage(n, id) == Lineage(m, r.parent.value) + [id];
    if r.parent.None? || r.parent.value !in m {
      assert Lineage(n, id) == [id];
    } else {
      var q := Lineage(m, r.parent.value);
      LineagePresent(m, r.parent.value);
      assert OnSpine(n, q + [id]) <==> OnSpine(m, q);
    }
  }

  lemma {:induction false} AllStored(m: Forest)
    requires WellFormed(m)
    ensures StoredPart(m) == m && ClientRows(m)
  {
    forall a | a in m ensures m[a].index >= 0 { assert RowOk(m, a); }
  }

  const SPINE_UNDER_SIDE: Forest :=
    map[0 := Row(0, None, false, UserMessage("")), 1 := Row(1, Some(0), true, OtherEntry("")), 2 := Row(2, Some(1), false, UserMessage(""))]

  lemma {:induction false} SideRows()
    ensures ClientRows(SPINE_UNDER_SIDE) && StoredPart(SPINE_UNDER_SIDE) == SPINE_UNDER_SIDE
    ensures Lineage(SPINE_UNDER_SIDE, 2) == [0, 1, 2]
  {
    var m := SPINE_UNDER_SIDE;
    forall a | a in m ensures RowOk(m, a) {}
    StoredRows(m);
    AllStored(m);
    assert Lineage(m, 0) == [0];
    assert Lineage(m, 1) == [0, 1];
  }

  lemma {:induction false} SideLine()
    ensures ClientRows(SPINE_UNDER_SIDE) && StoredPart(SPINE_UNDER_SIDE) == SPINE_UNDER_SIDE
    ensures ServerLine(SPINE_UNDER_SIDE, 2) == [0, 1, 2] && Lead(SPINE_UNDER_SIDE, [0, 1, 2]) == 1
  {
    var m := SPINE_UNDER_SIDE;
    SideRows();
    assert SpineChildren(m, Some(2)) == {};
    assert NewestLine(m, 2) == [2];
    assert ServerLine(m, 2) == [0, 1, 2] + [];
    assert Lead(m, [1, 2]) == 0;
    assert [0, 1, 2][1..] == [1, 2];
  }

  /** A message sent from below a side entry: the server's line is all three entries, and the client
      shows only the first. */
  lemma {:induction false} SideParentDiverges(chosen: set<Id>)
    ensures ClientRows(SPINE_UNDER_SIDE) && 2 in StoredPart(SPINE_UNDER_SIDE)
    ensures ServerLine(SPINE_UNDER_SIDE, 2) == [0, 1, 2]
    ensures PathSpine(SPINE_UNDER_SIDE, Synced(SPINE_UNDER_SIDE, chosen, Some(2))) == [0]
  {
    SideRows();
    SideLine();
    ShownUpToSide(SPINE_UNDER_SIDE, chosen, 2);
  }

  // ---------------------------------------------------------------- no anchor

  lemma {:induction false} RootFollowable(m: Forest, r: Id)
    requires ClientRows(m) && r in SpineChildren(StoredPart(m), None)
    ensures Followable(m, r) && ServerLine(m, r) == NewestLine(m, r)
  {
    var s := StoredPart(m);
    assert Lineage(s, r) == [r];
    ServerLineIs(m, r);
    assert [r] + NewestLine(m, r)[1..] == NewestLine(m, r);
  }

  /** With an anchor that it does not know, because there is none or because the anchor's row has
      yet to arrive, the client shows the newest line of the newest root. */
  lemma {:induction false} UnknownAnchor(m: Forest, chosen: set<Id>, anchor: Option<Id>)
    requires ClientRows(m) && SpineChildren(StoredPart(m), None) != {}
    requires anchor.Some? ==> anchor.value !in m
    ensures var last := Newest(StoredPart(m), SpineChildren(StoredPart(m), None));
            PathSpine(m, Synced(m, chosen, anchor)) == ServerLine(m, last) == NewestLine(m, last)
  {
    var last := Newest(StoredPart(m), SpineChildren(StoredPart(m), None));
    StoredNewest(m, None);
    RootFollowable(m, last);
    FollowsServer(m, chosen, last);
    assert ViewTip(m, anchor) == ViewTip(m, Some(last));
  }

  /** Without an anchor the server starts from the oldest root and the client from the newest,
      so the two agree exactly when there are no two stored spine roots. */
  lemma {:induction false} WithoutAnchor(m: Forest, c: Conversation, chosen: set<Id>)
    requires ClientRows(m) && c.rows == StoredPart(m) && c.anchor == None && SpineChildren(c.rows, None) != {}
    ensures DefaultViewLeaf(c).Some? && DefaultViewLeaf(c).value in c.rows
    ensures PathSpine(m, Synced(m, chosen, None))
              == Lineage(c.rows, DefaultViewLeaf(c).value) + NewestLine(m, DefaultViewLeaf(c).value)[1..]
            <==> forall r, s | r in SpineChildren(c.rows, None) && s in SpineChildren(c.rows, None) :: r == s
  {
    var roots := SpineChildren(c.rows, None);
    var first, last := Oldest(c.rows, roots), Newest(c.rows, roots);
    NewestLineFacts(c.rows, first);
    UnknownAnchor(m, chosen, None);
    RootFollowable(m, first);
    assert NewestLine(m, first)[0] == first && NewestLine(m, last)[0] == last;
    if first == last {
      forall r, s | r in roots && s in roots ensures r == s {
        assert c.rows[r].index == c.rows[first].index && c.rows[s].index == c.rows[first].index;
      }
    }
  }
}
