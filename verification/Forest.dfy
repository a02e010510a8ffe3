/**
 The entry forest of one conversation: which rows may coexist, the root-to-leaf lineage of an
 entry, the newest line below it, and the subtree it heads. Everything here is a specification:
 the classes in Repo and Store compute these values step by step.
 */
module Forest {
  import opened Options
  import opened Entries

  type Forest = map<Id, Row>

  /** The parent of a is a row of the same forest. A parent id may also name no row at all: the
      message route stores whatever parent it is sent. */
  predicate HasParent(m: Forest, a: Id) {
    a in m && m[a].parent.Some? && m[a].parent.value in m
  }

  ghost predicate UniqueIndices(m: Forest) {
    forall a, b | a in m && b in m && a != b :: m[a].index != m[b].index
  }

  ghost predicate RankedUp(m: Forest, rank: map<Id, nat>, a: Id)
    requires HasParent(m, a)
  {
    a in rank && m[a].parent.value in rank && rank[m[a].parent.value] < rank[a]
  }

  ghost predicate Ranks(m: Forest, rank: map<Id, nat>) {
    forall a | HasParent(m, a) :: RankedUp(m, rank, a)
  }

  ghost predicate Acyclic(m: Forest) {
    exists rank: map<Id, nat> :: Ranks(m, rank)
  }

  /** Indices are unique and no chain of parents comes back to its start. That is all the client
      can rely on: its optimistic rows have negative indices and hang under stored rows. */
  ghost predicate Ordered(m: Forest) {
    UniqueIndices(m) && Acyclic(m)
  }

  ghost predicate RowOk(m: Forest, a: Id)
    requires a in m
  {
    m[a].index >= 0 && (HasParent(m, a) ==> m[m[a].parent.value].index < m[a].index)
  }

  /** The rows of a conversation as they are stored: a parent has a smaller index. */
  ghost predicate WellFormed(m: Forest) {
    Ordered(m) && forall a | a in m :: RowOk(m, a)
  }

  /** Rows whose parents come first have no cycle. */
  lemma {:induction false} StoredRows(m: Forest)
    requires UniqueIndices(m) && forall a | a in m :: RowOk(m, a)
    ensures WellFormed(m)
  {
    var rank: map<Id, nat> := map a | a in m :: if m[a].index >= 0 then m[a].index else 0;
    forall a | HasParent(m, a) ensures RankedUp(m, rank, a) {
      assert RowOk(m, a) && RowOk(m, m[a].parent.value);
    }
    assert Ranks(m, rank);
  }

  // ---------------------------------------------------------------- depth

  ghost function RankMap(m: Forest): (rank: map<Id, nat>)
    requires Ordered(m)
    ensures Ranks(m, rank)
  {
    var rank: map<Id, nat> :| Ranks(m, rank);
    rank
  }

  /** A number that grows from parent to child. */
  ghost function Rank(m: Forest, a: Id): nat
    requires Ordered(m)
  {
    if a in RankMap(m) then RankMap(m)[a] else 0
  }

  lemma {:induction false} Up(m: Forest, a: Id)
    requires Ordered(m)
    ensures HasParent(m, a) ==> Rank(m, m[a].parent.value) < Rank(m, a)
  {
    if HasParent(m, a) { assert RankedUp(m, RankMap(m), a); }
  }

  // ---------------------------------------------------------------- index order

  ghost predicate Sorted(m: Forest, q: seq<Id>) {
    && (forall i | 0 <= i < |q| :: q[i] in m)
    && (forall i, j | 0 <= i < j < |q| :: m[q[i]].index < m[q[j]].index)
  }

  function Elements(q: seq<Id>): set<Id> {
    set x | x in q
  }

  /** What ORDER BY conversation_index ASC returns for the rows of s. */
  ghost predicate IsIndexOrder(m: Forest, s: set<Id>, q: seq<Id>) {
    Sorted(m, q) && Elements(q) == s
  }

  lemma {:induction false} Regroup(a: seq<Id>, b: seq<Id>, c: seq<Id>)
    ensures a + (b + c) == (a + b) + c
  {
  }

  lemma {:induction false} DropFirst(q: seq<Id>, r: seq<Id>)
    requires q != []
    ensures (q + r)[1..] == q[1..] + r
  {
  }

  lemma {:induction false} SomeElement(q: seq<Id>)
    requires q != []
    ensures Elements(q) != {} && q[|q| - 1] in Elements(q)
  {
    assert q[0] in Elements(q);
  }

  lemma {:induction false} SortedLast(m: Forest, q: seq<Id>, x: Id)
    requires Sorted(m, q) && q != [] && x in q && x != q[|q| - 1]
    ensures x in q[..|q| - 1] && m[x].index < m[q[|q| - 1]].index
  {
    var i :| 0 <= i < |q| && q[i] == x;
    assert q[..|q| - 1][i] == x;
  }

  lemma {:induction false} SortedFront(m: Forest, q: seq<Id>)
    requires Sorted(m, q) && q != []
    ensures Sorted(m, q[..|q| - 1]) && Elements(q[..|q| - 1]) == Elements(q) - {q[|q| - 1]}
  {
    var z, f := q[|q| - 1], q[..|q| - 1];
    forall x ensures x in Elements(f) <==> x in Elements(q) - {z} {
      if x in f {
        var i :| 0 <= i < |f| && f[i] == x;
        assert q[i] == x;
      } else if x in q && x != z {
        SortedLast(m, q, x);
      }
    }
  }

  lemma {:induction false} SortedMore(m: Forest, f: seq<Id>, z: Id)
    requires Sorted(m, f) && z in m && (f != [] ==> m[f[|f| - 1]].index < m[z].index)
    ensures Sorted(m, f + [z])
  {
  }

  lemma {:induction false} IndexOrderFront(m: Forest, s: set<Id>, q: seq<Id>)
    requires IsIndexOrder(m, s, q) && q != []
    ensures q[|q| - 1] in s && forall x | x in s && x != q[|q| - 1] :: x in m && m[x].index < m[q[|q| - 1]].index
    ensures IsIndexOrder(m, s - {q[|q| - 1]}, q[..|q| - 1])
  {
    SomeElement(q);
    SortedFront(m, q);
    forall x | x in s && x != q[|q| - 1] ensures x in m && m[x].index < m[q[|q| - 1]].index {
      assert x in Elements(q);
      SortedLast(m, q, x);
    }
  }

  /** ORDER BY determines its result. */
  lemma {:induction false} IndexOrderUnique(m: Forest, s: set<Id>, q: seq<Id>, r: seq<Id>)
    requires IsIndexOrder(m, s, q) && IsIndexOrder(m, s, r)
    ensures q == r
    decreases |q|
  {
    if q == [] {
      if r != [] { SomeElement(r); }
    } else {
      SomeElement(q);
      IndexOrderFront(m, s, q);
      assert r != [];
      IndexOrderFront(m, s, r);
      assert q[|q| - 1] == r[|r| - 1];
      IndexOrderUnique(m, s - {q[|q| - 1]}, q[..|q| - 1], r[..|r| - 1]);
      assert q == q[..|q| - 1] + [q[|q| - 1]] && r == r[..|r| - 1] + [r[|r| - 1]];
    }
  }

  // ---------------------------------------------------------------- lineage

  /** The simple parent walk, in root-to-leaf order. */
  ghost function Lineage(m: Forest, a: Id): (q: seq<Id>)
    requires Ordered(m) && a in m
    ensures q != [] && q[|q| - 1] == a
    decreases Rank(m, a)
  {
    Up(m, a);
    if HasParent(m, a) then Lineage(m, m[a].parent.value) + [a] else [a]
  }

  /** The walk up from a ends at a root, not at a parent that is no row. */
  ghost predicate Rooted(m: Forest, a: Id)
    requires Ordered(m)
  {
    a in m && Lineage(m, a)[0] in m && m[Lineage(m, a)[0]].parent == None
  }

  /** Stored lineages are in index order. */
  lemma {:induction false} LineageSorted(m: Forest, a: Id)
    requires WellFormed(m) && a in m
    ensures Sorted(m, Lineage(m, a))
    decreases Rank(m, a)
  {
    Up(m, a);
    assert RowOk(m, a);
    if HasParent(m, a) {
      LineageSorted(m, m[a].parent.value);
    }
  }

  /** Each entry of a lineage is the parent of the next; the first has no parent among the rows. */
  lemma {:induction false} LineageSteps(m: Forest, a: Id, i: nat)
    requires Ordered(m) && a in m && i < |Lineage(m, a)|
    ensures var q := Lineage(m, a);
            q[i] in m && (if i == 0 then !HasParent(m, q[0]) else m[q[i]].parent == Some(q[i - 1]))
    decreases Rank(m, a)
  {
    Up(m, a);
    if HasParent(m, a) && i < |Lineage(m, a)| - 1 {
      LineageSteps(m, m[a].parent.value, i);
    }
  }

  lemma {:induction false} LineageBelow(m: Forest, a: Id, b: Id)
    requires Ordered(m) && a in m && b in Lineage(m, a)
    ensures b in m && Rank(m, b) <= Rank(m, a) && (b != a ==> Rank(m, b) < Rank(m, a))
    decreases Rank(m, a)
  {
    Up(m, a);
    if b != a {
      LineageBelow(m, m[a].parent.value, b);
    }
  }

  lemma {:induction false} LineagePresent(m: Forest, a: Id)
    requires Ordered(m) && a in m
    ensures forall x | x in Lineage(m, a) :: x in m
  {
    forall x | x in Lineage(m, a) ensures x in m {
      LineageBelow(m, a, x);
    }
  }

  /** The lineage of any entry on a lineage is a prefix of it. */
  lemma {:induction false} LineagePrefix(m: Forest, a: Id, b: Id)
    requires Ordered(m) && a in m && b in Lineage(m, a)
    ensures b in m && Lineage(m, b) <= Lineage(m, a)
    decreases Rank(m, a)
  {
    Up(m, a);
    if b != a {
      LineagePrefix(m, m[a].parent.value, b);
    }
  }

  /** A lineage runs through at most one of two entries that share a parent. */
  lemma {:induction false} LineageOneSibling(m: Forest, a: Id, x: Id, y: Id)
    requires Ordered(m) && a in m && x in Lineage(m, a) && y in Lineage(m, a)
    requires x in m && y in m && m[x].parent == m[y].parent
    ensures x == y
    decreases Rank(m, a)
  {
    Up(m, a);
    if x != a && y != a {
      LineageOneSibling(m, m[a].parent.value, x, y);
    } else if x != y {
      NotBelowSibling(m, a, if x == a then y else x);
    }
  }

  lemma {:induction false} NotBelowSibling(m: Forest, a: Id, y: Id)
    requires Ordered(m) && a in m && y in m && y in Lineage(m, a) && m[y].parent == m[a].parent
    ensures y == a
  {
    Up(m, a);
    Up(m, y);
    if y != a {
      LineageBelow(m, m[a].parent.value, y);
      assert false;
    }
  }

  /** n has the rows of m under the same parents, and no row of m finds a missing parent in n. */
  ghost predicate SameParents(m: Forest, n: Forest) {
    forall a | a in m :: a in n && n[a].parent == m[a].parent && (HasParent(n, a) ==> HasParent(m, a))
  }

  /** Appends and payload merges leave the lineage of every existing entry unchanged. */
  lemma {:induction false} LineageStable(m: Forest, n: Forest, a: Id)
    requires Ordered(m) && Ordered(n) && SameParents(m, n) && a in m
    ensures a in n && Lineage(n, a) == Lineage(m, a)
    decreases Rank(m, a)
  {
    Up(m, a);
    if HasParent(m, a) {
      LineageStable(m, n, m[a].parent.value);
    }
  }

  // ---------------------------------------------------------------- newest line

  ghost function SpineChildren(m: Forest, p: Option<Id>): set<Id> {
    set c | c in m && m[c].parent == p && !m[c].isSide
  }

  ghost function SideChildren(m: Forest, p: Id): set<Id> {
    set c | c in m && m[c].parent == Some(p) && m[c].isSide
  }

  ghost predicate IsNewest(m: Forest, s: set<Id>, c: Id) {
    c in s && c in m && forall d | d in s :: d in m && m[d].index <= m[c].index
  }

  ghost predicate IsOldest(m: Forest, s: set<Id>, c: Id) {
    c in s && c in m && forall d | d in s :: d in m && m[c].index <= m[d].index
  }

  lemma {:induction false} NewestExists(m: Forest, s: set<Id>)
    requires s != {} && s <= m.Keys
    ensures exists c :: IsNewest(m, s, c)
    decreases |s|
  {
    var x :| x in s;
    if s == {x} {
      assert IsNewest(m, s, x);
    } else {
      var y :| y in s && y != x;
      assert y in s - {x};
      NewestExists(m, s - {x});
      var c :| IsNewest(m, s - {x}, c);
      assert IsNewest(m, s, c) || IsNewest(m, s, x);
    }
  }

  lemma {:induction false} OldestExists(m: Forest, s: set<Id>)
    requires s != {} && s <= m.Keys
    ensures exists c :: IsOldest(m, s, c)
    decreases |s|
  {
    var x :| x in s;
    if s == {x} {
      assert IsOldest(m, s, x);
    } else {
      var y :| y in s && y != x;
      assert y in s - {x};
      OldestExists(m, s - {x});
      var c :| IsOldest(m, s - {x}, c);
      assert IsOldest(m, s, c) || IsOldest(m, s, x);
    }
  }

  /** The row of s with the highest index. */
  ghost function Newest(m: Forest, s: set<Id>): (c: Id)
    requires s != {} && s <= m.Keys
    ensures IsNewest(m, s, c)
  {
    NewestExists(m, s);
    var c :| IsNewest(m, s, c);
    c
  }

  ghost function Oldest(m: Forest, s: set<Id>): (c: Id)
    requires s != {} && s <= m.Keys
    ensures IsOldest(m, s, c)
  {
    OldestExists(m, s);
    var c :| IsOldest(m, s, c);
    c
  }

  lemma {:induction false} NewestUnique(m: Forest, s: set<Id>, c: Id, d: Id)
    requires UniqueIndices(m) && IsNewest(m, s, c) && IsNewest(m, s, d)
    ensures c == d
  {
  }

  /** The rows further down than a. */
  ghost function Above(m: Forest, a: Id): set<Id>
    requires Ordered(m)
  {
    set b | b in m && Rank(m, b) > Rank(m, a)
  }

  lemma {:induction false} AboveShrinks(m: Forest, a: Id, b: Id)
    requires Ordered(m) && a in m && b in m && m[b].parent == Some(a)
    ensures |Above(m, b)| < |Above(m, a)|
  {
    Up(m, b);
    var small, large := Above(m, b), Above(m, a);
    assert b in large && b !in small && small <= large;
    SubsetSmaller(small, large, b);
  }

  lemma {:induction false} SubsetSmaller<T>(small: set<T>, large: set<T>, x: T)
    requires small <= large && x in large && x !in small
    ensures |small| < |large|
  {
    var rest := large - {x};
    assert small <= rest;
    SubsetCard(small, rest);
  }

  lemma {:induction false} SubsetCard<T>(small: set<T>, large: set<T>)
    requires small <= large
    ensures |small| <= |large|
    ensures |small| == |large| ==> small == large
    decreases small
  {
    if small != {} {
      var x :| x in small;
      SubsetCard(small - {x}, large - {x});
    }
  }

  /** From a: at each fork the newest spine child, down to a leaf. */
  ghost function NewestLine(m: Forest, a: Id): (q: seq<Id>)
    requires Ordered(m) && a in m
    ensures q != [] && q[0] == a
    decreases |Above(m, a)|
  {
    var kids := SpineChildren(m, Some(a));
    if kids == {} then [a]
    else
      var c := Newest(m, kids);
      AboveShrinks(m, a, c);
      [a] + NewestLine(m, c)
  }

  /** Where the walk down the newest line ends. An id that is no row may still be named as a parent. */
  ghost function NewestLeaf(m: Forest, a: Id): Id
    requires Ordered(m)
  {
    if a in m then var q := NewestLine(m, a); q[|q| - 1]
    else
      var kids := SpineChildren(m, Some(a));
      if kids == {} then a else var q := NewestLine(m, Newest(m, kids)); q[|q| - 1]
  }

  lemma {:induction false} NewestLineStep(m: Forest, a: Id, c: Id)
    requires Ordered(m) && a in m && IsNewest(m, SpineChildren(m, Some(a)), c)
    ensures NewestLine(m, a) == [a] + NewestLine(m, c)
    ensures Lineage(m, a) + NewestLine(m, a)[1..] == Lineage(m, c) + NewestLine(m, c)[1..]
  {
    NewestUnique(m, SpineChildren(m, Some(a)), c, Newest(m, SpineChildren(m, Some(a))));
    Up(m, c);
    var q := NewestLine(m, c);
    assert Lineage(m, c) == Lineage(m, a) + [c];
    assert q == [c] + q[1..];
  }

  lemma {:induction false} NewestLineFacts(m: Forest, a: Id)
    requires Ordered(m) && a in m
    ensures NewestLeaf(m, a) in m && SpineChildren(m, Some(NewestLeaf(m, a))) == {}
    ensures NewestLine(m, a)[|NewestLine(m, a)| - 1] == NewestLeaf(m, a)
    ensures m[NewestLeaf(m, a)].isSide ==> NewestLeaf(m, a) == a
    ensures Lineage(m, NewestLeaf(m, a)) == Lineage(m, a) + NewestLine(m, a)[1..]
    decreases |Above(m, a)|
  {
    var kids := SpineChildren(m, Some(a));
    if kids != {} {
      var c := Newest(m, kids);
      AboveShrinks(m, a, c);
      NewestLineFacts(m, c);
      NewestLineStep(m, a, c);
    }
  }

  // ---------------------------------------------------------------- appending

  ghost predicate IsNextIndex(m: Forest, i: int) {
    && i >= 0
    && (forall a | a in m :: m[a].index < i)
    && (i > 0 ==> exists a :: a in m && m[a].index == i - 1)
  }

  /** An id that no row has or names as its parent, as a new random id is. */
  ghost predicate Fresh(m: Forest, id: Id) {
    id !in m && forall a | a in m :: m[a].parent != Some(id)
  }

  /** All that an append needs: a new id. Any parent will do, of either lane or missing. */
  ghost predicate MayAppend(m: Forest, id: Id, r: Row) {
    Fresh(m, id) && r.parent != Some(id) && IsNextIndex(m, r.index)
  }

  lemma {:induction false} AppendKeeps(m: Forest, id: Id, r: Row)
    requires WellFormed(m) && MayAppend(m, id, r)
    ensures WellFormed(m[id := r])
    ensures forall a | a in m :: Lineage(m[id := r], a) == Lineage(m, a)
    ensures Lineage(m[id := r], id)
              == (if r.parent.Some? && r.parent.value in m then Lineage(m, r.parent.value) else []) + [id]
  {
    var n := m[id := r];
    forall a | a in n ensures RowOk(n, a) {
      assert a in m ==> RowOk(m, a);
    }
    StoredRows(n);
    forall a | a in m ensures Lineage(n, a) == Lineage(m, a) {
      LineageStable(m, n, a);
    }
  }

  /** A new row under any parent, wherever its index puts it, closes no cycle. */
  lemma {:induction false} OrderedAppend(m: Forest, id: Id, r: Row)
    requires Ordered(m) && Fresh(m, id) && r.parent != Some(id) && forall a | a in m :: m[a].index != r.index
    ensures Ordered(m[id := r])
  {
    var n := m[id := r];
    var rank: map<Id, nat> := RankMap(m);
    rank := rank[id := if r.parent.Some? && r.parent.value in rank then rank[r.parent.value] + 1 else 1];
    if r.parent.Some? && r.parent.value !in rank { rank := rank[r.parent.value := 0]; }
    forall a | HasParent(n, a) ensures RankedUp(n, rank, a) {
      if a != id { assert HasParent(m, a) && RankedUp(m, RankMap(m), a); }
    }
    assert Ranks(n, rank);
  }

  lemma {:induction false} OrderedLess(m: Forest, id: Id)
    requires Ordered(m)
    ensures Ordered(m - {id})
  {
    forall a | HasParent(m - {id}, a) ensures RankedUp(m - {id}, RankMap(m), a) {
      assert HasParent(m, a) && RankedUp(m, RankMap(m), a);
    }
    assert Ranks(m - {id}, RankMap(m));
  }

  lemma {:induction false} MergeKeeps(m: Forest, id: Id, p: Payload)
    requires WellFormed(m) && id in m
    ensures WellFormed(m[id := m[id].(payload := p)])
    ensures forall a | a in m :: Lineage(m[id := m[id].(payload := p)], a) == Lineage(m, a)
  {
    var n := m[id := m[id].(payload := p)];
    forall a | a in n ensures RowOk(n, a) {
      assert RowOk(m, a);
    }
    StoredRows(n);
    forall a | a in m ensures Lineage(n, a) == Lineage(m, a) {
      LineageStable(m, n, a);
    }
  }

  /** One append or one payload merge. */
  ghost predicate Edited(m: Forest, n: Forest) {
    || (exists id: Id, r: Row :: MayAppend(m, id, r) && n == m[id := r])
    || (exists id: Id, p: Payload :: id in m && n == m[id := m[id].(payload := p)])
  }

  /** Over any run of appends and merges the rows stay well formed and no lineage ever changes. */
  lemma {:induction false} RunKeepsLineage(ms: seq<Forest>, n: nat, a: Id)
    requires n < |ms| && WellFormed(ms[0]) && a in ms[0]
    requires forall k | 0 <= k < |ms| - 1 :: Edited(ms[k], ms[k + 1])
    ensures WellFormed(ms[n]) && a in ms[n] && Lineage(ms[n], a) == Lineage(ms[0], a)
    decreases n
  {
    if n > 0 {
      RunKeepsLineage(ms, n - 1, a);
      assert Edited(ms[n - 1], ms[n - 1 + 1]);
      EditKeeps(ms[n - 1], ms[n], a);
    }
  }

  lemma {:induction false} EditKeeps(m: Forest, n: Forest, a: Id)
    requires WellFormed(m) && a in m && Edited(m, n)
    ensures WellFormed(n) && a in n && Lineage(n, a) == Lineage(m, a)
  {
    if id: Id, r: Row :| MayAppend(m, id, r) && n == m[id := r] {
      AppendKeeps(m, id, r);
    } else {
      var id: Id, p: Payload :| id in m && n == m[id := m[id].(payload := p)];
      MergeKeeps(m, id, p);
    }
  }
}
