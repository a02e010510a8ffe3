/**
 The branch view of the client: which entries carry the chosen flag, the active path that the
 flags select, and the side lane interleaved with it. A state of the view is the forest of rows
 together with the set of chosen ids.
 */
module View {
  import opened Options
  import opened Entries
  import opened Forest

  // ---------------------------------------------------------------- choosing

  /** Spine entries at the forks of q. */
  ghost function Rivals(m: Forest, q: seq<Id>): set<Id>
    requires forall x | x in q :: x in m
  {
    set c | c in m && !m[c].isSide && exists x :: x in q && m[x].parent == m[c].parent
  }

  /** The flags after one entry is chosen: its spine siblings lose theirs. */
  ghost function Choose(m: Forest, chosen: set<Id>, e: Id): set<Id>
    requires e in m
  {
    chosen - SpineChildren(m, m[e].parent) + {e}
  }

  /** The flags after every entry of q is chosen. */
  ghost function ChoosePath(m: Forest, chosen: set<Id>, q: seq<Id>): set<Id>
    requires forall x | x in q :: x in m
  {
    chosen - Rivals(m, q) + Elements(q)
  }

  /** No two entries of q share a parent. */
  ghost predicate OnePerFork(m: Forest, q: seq<Id>) {
    && (forall x | x in q :: x in m)
    && (forall x, y | x in q && y in q && m[x].parent == m[y].parent :: x == y)
  }

  /** Choosing entry by entry, in any order that visits each fork once, is choosing the path. */
  lemma {:induction false} ChooseOneMore(m: Forest, chosen: set<Id>, q: seq<Id>, e: Id)
    requires OnePerFork(m, q + [e])
    ensures forall x | x in q :: x in m
    ensures e in m && Choose(m, ChoosePath(m, chosen, q), e) == ChoosePath(m, chosen, q + [e])
  {
    var r := q + [e];
    assert e in r && forall x | x in q :: x in r;
    assert Elements(r) == Elements(q) + {e};
    assert Rivals(m, r) == Rivals(m, q) + SpineChildren(m, m[e].parent) by {
      forall c ensures c in Rivals(m, r) <==> c in Rivals(m, q) + SpineChildren(m, m[e].parent) {
        if c in Rivals(m, r) {
          var x :| x in r && m[x].parent == m[c].parent;
          assert x in q || x == e;
        }
      }
    }
  }

  /** At most one spine sibling is chosen at each fork. */
  ghost predicate OneChosen(m: Forest, chosen: set<Id>) {
    forall c, d | c in chosen && d in chosen && c in m && d in m
      && !m[c].isSide && !m[d].isSide && m[c].parent == m[d].parent :: c == d
  }

  lemma {:induction false} ChooseKeepsOne(m: Forest, chosen: set<Id>, e: Id)
    requires OneChosen(m, chosen) && e in m
    ensures OneChosen(m, Choose(m, chosen, e))
  {
  }

  lemma {:induction false} ChoosePathKeepsOne(m: Forest, chosen: set<Id>, q: seq<Id>)
    requires OneChosen(m, chosen) && OnePerFork(m, q)
    ensures OneChosen(m, ChoosePath(m, chosen, q))
  {
    var after := ChoosePath(m, chosen, q);
    forall c, d | c in after && d in after && c in m && d in m
      && !m[c].isSide && !m[d].isSide && m[c].parent == m[d].parent ensures c == d
    {
      assert c in q ==> d in Rivals(m, q);
      assert d in q ==> c in Rivals(m, q);
    }
  }

  lemma {:induction false} LineageOnePerFork(m: Forest, a: Id)
    requires Ordered(m) && a in m
    ensures OnePerFork(m, Lineage(m, a))
  {
    var q := Lineage(m, a);
    LineagePresent(m, a);
    forall x, y | x in q && y in q && m[x].parent == m[y].parent ensures x == y {
      LineageOneSibling(m, a, x, y);
    }
  }

  /** The newest line from a is the end of the lineage of its leaf. */
  lemma {:induction false} NewestLineOnePerFork(m: Forest, a: Id)
    requires Ordered(m) && a in m
    ensures OnePerFork(m, NewestLine(m, a))
  {
    NewestLineFacts(m, a);
    var q := NewestLine(m, a);
    var z := q[|q| - 1];
    var l := Lineage(m, z);
    LineageOnePerFork(m, z);
    assert l == Lineage(m, a) + q[1..];
    forall x | x in q ensures x in l {
      if x != a { assert x in q[1..]; } else { assert Lineage(m, a)[|Lineage(m, a)| - 1] == a; }
    }
  }

  // ---------------------------------------------------------------- the active path

  ghost function FirstChosen(m: Forest, chosen: set<Id>, p: Option<Id>): (c: Option<Id>)
    ensures c.Some? ==> c.value in m && m[c.value].parent == p && !m[c.value].isSide && c.value in chosen
  {
    var s := SpineChildren(m, p) * chosen;
    if s == {} then None else Some(Oldest(m, s))
  }

  ghost function Follow(m: Forest, chosen: set<Id>, a: Id): (q: seq<Id>)
    requires Ordered(m) && a in m
    ensures q != [] && q[0] == a
    decreases |Above(m, a)|
  {
    match FirstChosen(m, chosen, Some(a))
    case None => [a]
    case Some(c) =>
      AboveShrinks(m, a, c);
      [a] + Follow(m, chosen, c)
  }

  /** The spine of the active path: from the chosen root, else the newest one. */
  ghost function PathSpine(m: Forest, chosen: set<Id>): seq<Id>
    requires Ordered(m)
  {
    var roots := SpineChildren(m, None);
    if roots == {} then []
    else match FirstChosen(m, chosen, None)
      case Some(r) => Follow(m, chosen, r)
      case None => Follow(m, chosen, Newest(m, roots))
  }

  /** The i-th entry of q is a spine child of the one before it, or the first of all. */
  ghost predicate Link(m: Forest, q: seq<Id>, i: nat)
    requires i < |q|
  {
    q[i] in m && !m[q[i]].isSide && (i > 0 ==> m[q[i]].parent == Some(q[i - 1]))
  }

  /** q runs from parent to spine child. */
  ghost predicate Chain(m: Forest, q: seq<Id>) {
    forall i | 0 <= i < |q| :: Link(m, q, i)
  }

  /** What the flags select after the i-th entry of q. */
  ghost predicate Next(m: Forest, chosen: set<Id>, q: seq<Id>, i: nat)
    requires i < |q|
  {
    FirstChosen(m, chosen, Some(q[i])) == if i + 1 < |q| then Some(q[i + 1]) else None
  }

  /** The flags lead along q from its first entry to its last and no further. */
  ghost predicate Leads(m: Forest, chosen: set<Id>, q: seq<Id>) {
    q != [] && Chain(m, q) && forall i | 0 <= i < |q| :: Next(m, chosen, q, i)
  }

  lemma {:induction false} FollowsLead(m: Forest, chosen: set<Id>, q: seq<Id>, i: nat)
    requires Ordered(m) && Leads(m, chosen, q) && i < |q|
    ensures q[i] in m && Follow(m, chosen, q[i]) == q[i..]
    decreases |q| - i
  {
    assert Link(m, q, i) && Next(m, chosen, q, i);
    if i + 1 < |q| {
      assert Link(m, q, i + 1);
      AboveShrinks(m, q[i], q[i + 1]);
      FollowsLead(m, chosen, q, i + 1);
    }
  }

  lemma {:induction false} NoneChosen(m: Forest, chosen: set<Id>, p: Option<Id>)
    requires SpineChildren(m, p) == {}
    ensures FirstChosen(m, chosen, p) == None
  {
  }

  lemma {:induction false} LeadsOne(m: Forest, chosen: set<Id>, a: Id)
    requires a in m && !m[a].isSide && FirstChosen(m, chosen, Some(a)) == None
    ensures Leads(m, chosen, [a])
  {
    assert Link(m, [a], 0) && Next(m, chosen, [a], 0);
  }

  lemma {:induction false} LeadsMore(m: Forest, chosen: set<Id>, a: Id, q: seq<Id>)
    requires a in m && !m[a].isSide && Leads(m, chosen, q) && FirstChosen(m, chosen, Some(a)) == Some(q[0])
    ensures Leads(m, chosen, [a] + q)
  {
    var r := [a] + q;
    forall i | 0 <= i < |r| ensures Link(m, r, i) {
      if i > 0 { assert Link(m, q, i - 1); }
    }
    forall i | 0 <= i < |r| ensures Next(m, chosen, r, i) {
      if i > 0 { assert Next(m, chosen, q, i - 1); }
    }
  }

  lemma {:induction false} FollowLeads(m: Forest, chosen: set<Id>, a: Id)
    requires Ordered(m) && a in m && !m[a].isSide
    ensures Leads(m, chosen, Follow(m, chosen, a))
    decreases |Above(m, a)|
  {
    match FirstChosen(m, chosen, Some(a))
    case None =>
      LeadsOne(m, chosen, a);
    case Some(c) =>
      AboveShrinks(m, a, c);
      FollowLeads(m, chosen, c);
      LeadsMore(m, chosen, a, Follow(m, chosen, c));
  }

  /** An active path runs from a root, down the spine, without repetition. */
  lemma {:induction false} PathIsChain(m: Forest, chosen: set<Id>)
    requires Ordered(m)
    ensures Chain(m, PathSpine(m, chosen)) && Descends(m, PathSpine(m, chosen))
    ensures PathSpine(m, chosen) != [] ==> Leads(m, chosen, PathSpine(m, chosen))
    ensures PathSpine(m, chosen) != [] ==> PathSpine(m, chosen)[0] in m && m[PathSpine(m, chosen)[0]].parent == None
  {
    var q := PathSpine(m, chosen);
    if q != [] {
      FollowLeads(m, chosen, q[0]);
      ChainDescends(m, q);
    }
  }

  /** Each entry of q is further down than those before it. */
  ghost predicate Descends(m: Forest, q: seq<Id>)
    requires Ordered(m)
  {
    forall i, j | 0 <= i < j < |q| :: Rank(m, q[i]) < Rank(m, q[j])
  }

  lemma {:induction false} ChainDescends(m: Forest, q: seq<Id>)
    requires Ordered(m) && Chain(m, q)
    ensures Descends(m, q)
    decreases |q|
  {
    if |q| > 1 {
      var f, z := q[..|q| - 1], q[|q| - 1];
      forall i | 0 <= i < |f| ensures Link(m, f, i) { assert Link(m, q, i); }
      ChainDescends(m, f);
      assert Link(m, q, |q| - 1) && Link(m, q, |q| - 2);
      Up(m, z);
      assert q == f + [z];
    }
  }

  /** The path whose entries are all that is chosen at their forks is the active path. */
  lemma {:induction false} LeadsFromRoot(m: Forest, chosen: set<Id>, q: seq<Id>)
    requires Ordered(m) && Leads(m, chosen, q) && q[0] in m && m[q[0]].parent == None
    requires FirstChosen(m, chosen, None) == Some(q[0])
    ensures PathSpine(m, chosen) == q
  {
    assert Link(m, q, 0);
    assert q[0] in SpineChildren(m, None);
    FollowsLead(m, chosen, q, 0);
  }

  ghost predicate IsRoot(m: Forest, r: Id) {
    r in m && !m[r].isSide && m[r].parent == None
  }

  /** A path starts at the chosen root, or if none is chosen at the one with the highest index. */
  ghost predicate StartsAt(m: Forest, chosen: set<Id>, r: Id) {
    IsRoot(m, r) && (r in chosen || forall x | IsRoot(m, x) :: x !in chosen && m[x].index <= m[r].index)
  }

  /** It goes on with a chosen spine child, and ends where none is. */
  ghost predicate GoesOn(m: Forest, chosen: set<Id>, q: seq<Id>, i: nat)
    requires i < |q|
  {
    if i + 1 < |q| then q[i + 1] in chosen
    else forall c | c in m && !m[c].isSide && m[c].parent == Some(q[i]) :: c !in chosen
  }

  ghost predicate Selected(m: Forest, chosen: set<Id>, q: seq<Id>) {
    if q == [] then forall x | x in m :: !IsRoot(m, x)
    else StartsAt(m, chosen, q[0]) && Chain(m, q) && forall i | 0 <= i < |q| :: GoesOn(m, chosen, q, i)
  }

  lemma {:induction false} PathIsSelected(m: Forest, chosen: set<Id>)
    requires Ordered(m)
    ensures Selected(m, chosen, PathSpine(m, chosen))
  {
    var q := PathSpine(m, chosen);
    PathIsChain(m, chosen);
    if q == [] {
      assert forall x | IsRoot(m, x) :: x in SpineChildren(m, None);
    } else {
      assert Link(m, q, 0);
      forall x | IsRoot(m, x) && q[0] !in chosen ensures x !in chosen && m[x].index <= m[q[0]].index {
        assert x in SpineChildren(m, None) && x !in SpineChildren(m, None) * chosen;
      }
      forall i | 0 <= i < |q| ensures GoesOn(m, chosen, q, i) {
        assert Next(m, chosen, q, i);
        forall c | c in m && !m[c].isSide && m[c].parent == Some(q[i]) && i + 1 == |q| ensures c !in chosen {
          assert c !in SpineChildren(m, Some(q[i])) * chosen;
        }
      }
    }
  }

  lemma {:induction false} OnlyChosen(m: Forest, chosen: set<Id>, c: Id)
    requires OneChosen(m, chosen) && c in m && c in chosen && !m[c].isSide
    ensures FirstChosen(m, chosen, m[c].parent) == Some(c)
  {
    assert c in SpineChildren(m, m[c].parent) * chosen;
  }

  lemma {:induction false} SelectedIsPath(m: Forest, chosen: set<Id>, q: seq<Id>)
    requires Ordered(m) && OneChosen(m, chosen) && Selected(m, chosen, q)
    ensures q == PathSpine(m, chosen)
  {
    var roots := SpineChildren(m, None);
    if q == [] {
      assert forall r | r in roots :: IsRoot(m, r);
    } else {
      forall i | 0 <= i < |q| ensures Next(m, chosen, q, i) {
        assert GoesOn(m, chosen, q, i);
        if i + 1 < |q| {
          assert Link(m, q, i + 1);
          OnlyChosen(m, chosen, q[i + 1]);
        }
      }
      assert IsRoot(m, q[0]) && q[0] in roots;
      if q[0] in chosen {
        OnlyChosen(m, chosen, q[0]);
        LeadsFromRoot(m, chosen, q);
      } else {
        assert forall x | x in roots :: IsRoot(m, x);
        NewestUnique(m, roots, q[0], Newest(m, roots));
        FollowsLead(m, chosen, q, 0);
      }
    }
  }

  /** With one chosen sibling at most at each fork, one path fits the flags, and that is the active one. */
  lemma {:induction false} PathExactly(m: Forest, chosen: set<Id>, q: seq<Id>)
    requires Ordered(m) && OneChosen(m, chosen)
    ensures q == PathSpine(m, chosen) <==> Selected(m, chosen, q)
  {
    PathIsSelected(m, chosen);
    if Selected(m, chosen, q) { SelectedIsPath(m, chosen, q); }
  }

  /** After a path is chosen, its spine entries are what the flags select at their forks. */
  lemma {:induction false} ChosenOnPath(m: Forest, chosen: set<Id>, q: seq<Id>, x: Id)
    requires Ordered(m) && OnePerFork(m, q) && x in q
    ensures FirstChosen(m, ChoosePath(m, chosen, q), m[x].parent) == if m[x].isSide then None else Some(x)
  {
    var after := ChoosePath(m, chosen, q);
    var kids := SpineChildren(m, m[x].parent);
    forall c | c in kids * after ensures c == x {
      assert c in Rivals(m, q);
    }
    if !m[x].isSide {
      assert kids * after == {x};
    } else {
      assert kids * after == {};
    }
  }

  lemma {:induction false} ForkUntouched(m: Forest, chosen: set<Id>, q: seq<Id>, p: Option<Id>)
    requires Ordered(m) && OnePerFork(m, q) && forall x | x in q :: m[x].parent != p
    ensures FirstChosen(m, ChoosePath(m, chosen, q), p) == FirstChosen(m, chosen, p)
  {
    var after := ChoosePath(m, chosen, q);
    assert SpineChildren(m, p) * after == SpineChildren(m, p) * chosen;
  }

  // ---------------------------------------------------------------- agreement with the server

  /** How many spine entries q starts with. */
  ghost function Lead(m: Forest, q: seq<Id>): (k: nat)
    ensures k <= |q| && (forall i | 0 <= i < k :: q[i] in m && !m[q[i]].isSide)
    ensures k < |q| && q[k] in m ==> m[q[k]].isSide
  {
    if q == [] || q[0] !in m || m[q[0]].isSide then 0 else 1 + Lead(m, q[1..])
  }

  /** After a lineage is chosen, each of its forks selects its spine entry, or nothing where the
      lineage has left the spine. */
  lemma {:induction false} ChosenAfter(m: Forest, chosen: set<Id>, z: Id, q: seq<Id>, after: set<Id>, i: nat)
    requires Ordered(m) && z in m && q == Lineage(m, z) && i + 1 < |q| && OnePerFork(m, q)
    requires after == ChoosePath(m, chosen, q)
    ensures q[i + 1] in m && FirstChosen(m, after, Some(q[i])) == if m[q[i + 1]].isSide then None else Some(q[i + 1])
  {
    LineageSteps(m, z, i + 1);
    assert q[i + 1] in q;
    ChosenOnPath(m, chosen, q, q[i + 1]);
  }

  lemma {:induction false} NextBy(m: Forest, chosen: set<Id>, q: seq<Id>, k: nat, i: nat)
    requires i < k <= |q|
    requires FirstChosen(m, chosen, Some(q[i])) == if i + 1 < k then Some(q[i + 1]) else None
    ensures Next(m, chosen, q[..k], i)
  {
  }

  lemma {:induction false} NextOnLineage(m: Forest, chosen: set<Id>, z: Id, q: seq<Id>, after: set<Id>, k: nat, i: nat)
    requires Ordered(m) && z in m && SpineChildren(m, Some(z)) == {} && q == Lineage(m, z) && OnePerFork(m, q)
    requires after == ChoosePath(m, chosen, q) && i < k <= |q|
    requires k < |q| ==> q[k] in m && m[q[k]].isSide
    requires i + 1 < k ==> q[i + 1] in m && !m[q[i + 1]].isSide
    ensures Next(m, after, q[..k], i)
  {
    if i + 1 < |q| {
      ChosenAfter(m, chosen, z, q, after, i);
      assert FirstChosen(m, after, Some(q[i])) == if i + 1 < k then Some(q[i + 1]) else None;
    } else {
      assert q[i] == z;
      NoneChosen(m, after, Some(z));
    }
    NextBy(m, after, q, k, i);
  }

  lemma {:induction false} ChosenSpineLeads(m: Forest, chosen: set<Id>, z: Id, k: nat)
    requires Ordered(m) && z in m && SpineChildren(m, Some(z)) == {} && k == Lead(m, Lineage(m, z)) > 0
    ensures OnePerFork(m, Lineage(m, z))
    ensures Leads(m, ChoosePath(m, chosen, Lineage(m, z)), Lineage(m, z)[..k])
  {
    LineageOnePerFork(m, z);
    var s := Lineage(m, z)[..k];
    forall i | 0 <= i < |s| ensures Link(m, s, i) {
      LineageSteps(m, z, i);
    }
    forall i | 0 <= i < |s| ensures Next(m, ChoosePath(m, chosen, Lineage(m, z)), s, i) {
      if k < |Lineage(m, z)| { LineageSteps(m, z, k); }
      NextOnLineage(m, chosen, z, Lineage(m, z), ChoosePath(m, chosen, Lineage(m, z)), k, i);
    }
  }

  /** Choosing the lineage of a leaf makes it the active path as far as it stays on the spine. */
  lemma {:induction false} ChosenLineageIsPath(m: Forest, chosen: set<Id>, z: Id)
    requires Ordered(m) && SpineChildren(m, Some(z)) == {} && Rooted(m, z)
    requires Lead(m, Lineage(m, z)) > 0
    ensures forall x | x in Lineage(m, z) :: x in m
    ensures PathSpine(m, ChoosePath(m, chosen, Lineage(m, z))) == Lineage(m, z)[..Lead(m, Lineage(m, z))]
  {
    var q := Lineage(m, z);
    LineageOnePerFork(m, z);
    var after := ChoosePath(m, chosen, q);
    var k := Lead(m, q);
    ChosenSpineLeads(m, chosen, z, k);
    assert q[0] in q;
    ChosenOnPath(m, chosen, q, q[0]);
    LeadsFromRoot(m, after, q[..k]);
  }

  /** The tip the client derives from its anchor: below the anchor if it is known, else below
      the newest root. */
  ghost function ViewTip(m: Forest, anchor: Option<Id>): Option<Id>
    requires Ordered(m)
  {
    if anchor.Some? && anchor.value in m then Some(NewestLeaf(m, anchor.value))
    else
      var roots := SpineChildren(m, None);
      if roots == {} then None else Some(NewestLeaf(m, Newest(m, roots)))
  }

  lemma {:induction false} TipPresent(m: Forest, anchor: Option<Id>)
    requires Ordered(m) && ViewTip(m, anchor).Some?
    ensures ViewTip(m, anchor).value in m && SpineChildren(m, ViewTip(m, anchor)) == {}
  {
    NewestLineFacts(m, if anchor.Some? && anchor.value in m then anchor.value else Newest(m, SpineChildren(m, None)));
  }

  /** The flags after the view follows its anchor. A tip whose parents do not lead to a root leaves
      them as they were. */
  ghost function Synced(m: Forest, chosen: set<Id>, anchor: Option<Id>): set<Id>
    requires Ordered(m)
  {
    match ViewTip(m, anchor)
    case None => chosen
    case Some(z) =>
      if Rooted(m, z) then
        LineagePresent(m, z);
        ChoosePath(m, chosen, Lineage(m, z))
      else chosen
  }

  lemma {:induction false} SyncKeepsOne(m: Forest, chosen: set<Id>, anchor: Option<Id>)
    requires Ordered(m) && OneChosen(m, chosen)
    ensures OneChosen(m, Synced(m, chosen, anchor))
  {
    if ViewTip(m, anchor).Some? && Rooted(m, ViewTip(m, anchor).value) {
      LineageOnePerFork(m, ViewTip(m, anchor).value);
      ChoosePathKeepsOne(m, chosen, Lineage(m, ViewTip(m, anchor).value));
    }
  }

  // ---------------------------------------------------------------- switching branches

  /** Switching to a root: its newest line becomes the active path. */
  lemma {:induction false} SwitchRoot(m: Forest, chosen: set<Id>, start: Id)
    requires Ordered(m) && start in m && !m[start].isSide && m[start].parent == None
    ensures OnePerFork(m, NewestLine(m, start))
    ensures PathSpine(m, ChoosePath(m, chosen, NewestLine(m, start))) == NewestLine(m, start)
  {
    LineLeads(m, chosen, start);
    assert start in NewestLine(m, start);
    ChosenOnPath(m, chosen, NewestLine(m, start), start);
    LeadsFromRoot(m, ChoosePath(m, chosen, NewestLine(m, start)), NewestLine(m, start));
  }

  /** Switching below an entry of the active path: the path keeps its prefix down to that entry
      and then takes the newest line from the start; its leaf is the new tip. */
  lemma {:induction false} SwitchBranch(m: Forest, chosen: set<Id>, start: Id, k: nat)
    requires Ordered(m) && start in m && !m[start].isSide
    requires k < |PathSpine(m, chosen)| && m[start].parent == Some(PathSpine(m, chosen)[k])
    ensures OnePerFork(m, NewestLine(m, start))
    ensures PathSpine(m, ChoosePath(m, chosen, NewestLine(m, start)))
              == PathSpine(m, chosen)[..k + 1] + NewestLine(m, start)
  {
    var line, path := NewestLine(m, start), PathSpine(m, chosen);
    NewestLineOnePerFork(m, start);
    var after := ChoosePath(m, chosen, line);
    SwitchLeads(m, chosen, start, k);
    forall x | x in line ensures m[x].parent != None { LineBelow(m, start, x); }
    ForkUntouched(m, chosen, line, None);
    LeadsFromSameRoot(m, chosen, after, path[..k + 1] + line);
  }

  lemma {:induction false} LeadsFromSameRoot(m: Forest, chosen: set<Id>, after: set<Id>, q: seq<Id>)
    requires Ordered(m) && Leads(m, after, q) && PathSpine(m, chosen) != [] && q[0] == PathSpine(m, chosen)[0]
    requires FirstChosen(m, after, None) == FirstChosen(m, chosen, None)
    ensures PathSpine(m, after) == q
  {
    FollowsLead(m, after, q, 0);
  }

  /** Every later entry of a newest line has its parent on the line. */
  lemma {:induction false} LineBelow(m: Forest, a: Id, x: Id)
    requires Ordered(m) && a in m && x in NewestLine(m, a)
    ensures x in m && Rank(m, a) <= Rank(m, x)
    ensures x != a ==> !m[x].isSide && m[x].parent.Some? && m[x].parent.value in NewestLine(m, a)
    decreases |Above(m, a)|
  {
    var kids := SpineChildren(m, Some(a));
    if kids != {} {
      var c := Newest(m, kids);
      AboveShrinks(m, a, c);
      Up(m, c);
      if x != a {
        LineBelow(m, c, x);
        assert NewestLine(m, a)[0] == a;
        if x != c { assert m[x].parent.value in NewestLine(m, c); }
      }
    }
  }

  lemma {:induction false} ChainMore(m: Forest, a: Id, q: seq<Id>)
    requires Chain(m, q) && q != [] && a in m && !m[a].isSide && q[0] in m && m[q[0]].parent == Some(a)
    ensures Chain(m, [a] + q)
  {
    var r := [a] + q;
    forall i | 0 <= i < |r| ensures Link(m, r, i) {
      if i > 0 { assert Link(m, q, i - 1); }
    }
  }

  lemma {:induction false} LineChain(m: Forest, a: Id)
    requires Ordered(m) && a in m && !m[a].isSide
    ensures Chain(m, NewestLine(m, a))
    decreases |Above(m, a)|
  {
    var kids := SpineChildren(m, Some(a));
    if kids != {} {
      var c := Newest(m, kids);
      AboveShrinks(m, a, c);
      LineChain(m, c);
      ChainMore(m, a, NewestLine(m, c));
    } else {
      assert Link(m, [a], 0);
    }
  }

  lemma {:induction false} NextOnLine(m: Forest, chosen: set<Id>, start: Id, i: nat)
    requires Ordered(m) && start in m && !m[start].isSide && i < |NewestLine(m, start)|
    ensures OnePerFork(m, NewestLine(m, start))
    ensures Next(m, ChoosePath(m, chosen, NewestLine(m, start)), NewestLine(m, start), i)
  {
    var line := NewestLine(m, start);
    NewestLineOnePerFork(m, start);
    if i + 1 < |line| {
      LineChain(m, start);
      assert Link(m, line, i + 1) && line[i + 1] in line;
      ChosenOnPath(m, chosen, line, line[i + 1]);
    } else {
      NewestLineFacts(m, start);
      NoneChosen(m, ChoosePath(m, chosen, line), Some(line[i]));
    }
  }

  lemma {:induction false} LineLeads(m: Forest, chosen: set<Id>, start: Id)
    requires Ordered(m) && start in m && !m[start].isSide
    ensures OnePerFork(m, NewestLine(m, start))
    ensures Leads(m, ChoosePath(m, chosen, NewestLine(m, start)), NewestLine(m, start))
  {
    NewestLineOnePerFork(m, start);
    LineChain(m, start);
    forall i | 0 <= i < |NewestLine(m, start)|
      ensures Next(m, ChoosePath(m, chosen, NewestLine(m, start)), NewestLine(m, start), i)
    {
      NextOnLine(m, chosen, start, i);
    }
  }

  /** The flags lead along the path as far as its k-th entry and there turn to start. */
  ghost predicate TurnsAt(m: Forest, chosen: set<Id>, path: seq<Id>, k: nat, start: Id, i: nat)
    requires i <= k < |path|
  {
    FirstChosen(m, chosen, Some(path[i])) == Some(if i < k then path[i + 1] else start)
  }

  lemma {:induction false} NextOnPrefix(m: Forest, chosen: set<Id>, start: Id, k: nat, i: nat)
    requires Ordered(m) && start in m && !m[start].isSide
    requires i <= k < |PathSpine(m, chosen)| && m[start].parent == Some(PathSpine(m, chosen)[k])
    ensures OnePerFork(m, NewestLine(m, start))
    ensures TurnsAt(m, ChoosePath(m, chosen, NewestLine(m, start)), PathSpine(m, chosen), k, start, i)
  {
    var line, path := NewestLine(m, start), PathSpine(m, chosen);
    NewestLineOnePerFork(m, start);
    if i < k {
      PathIsChain(m, chosen);
      assert Next(m, chosen, path, i);
      forall x | x in line ensures m[x].parent != Some(path[i]) {
        SwitchBelow(m, chosen, start, k, i, x);
      }
      ForkUntouched(m, chosen, line, Some(path[i]));
    } else {
      assert start in line;
      ChosenOnPath(m, chosen, line, start);
    }
  }

  lemma {:induction false} JoinLeads(m: Forest, chosen: set<Id>, path: seq<Id>, k: nat, line: seq<Id>)
    requires Chain(m, path) && k < |path| && Leads(m, chosen, line)
    requires line[0] in m && m[line[0]].parent == Some(path[k])
    requires forall i | 0 <= i <= k :: TurnsAt(m, chosen, path, k, line[0], i)
    ensures Leads(m, chosen, path[..k + 1] + line)
  {
    var q := path[..k + 1] + line;
    forall i | 0 <= i < |q| ensures Link(m, q, i) {
      if i <= k { assert Link(m, path, i); } else { assert Link(m, line, i - k - 1); }
    }
    forall i | 0 <= i < |q| ensures Next(m, chosen, q, i) {
      if i > k {
        assert Next(m, chosen, line, i - k - 1);
        assert q[i] == line[i - k - 1] && (i + 1 < |q| ==> q[i + 1] == line[i - k]);
      } else {
        assert TurnsAt(m, chosen, path, k, line[0], i);
        assert q[i] == path[i] && q[i + 1] == if i < k then path[i + 1] else line[0];
      }
    }
  }

  lemma {:induction false} SwitchLeads(m: Forest, chosen: set<Id>, start: Id, k: nat)
    requires Ordered(m) && start in m && !m[start].isSide
    requires k < |PathSpine(m, chosen)| && m[start].parent == Some(PathSpine(m, chosen)[k])
    ensures OnePerFork(m, NewestLine(m, start))
    ensures Leads(m, ChoosePath(m, chosen, NewestLine(m, start)), PathSpine(m, chosen)[..k + 1] + NewestLine(m, start))
  {
    var line, path := NewestLine(m, start), PathSpine(m, chosen);
    NewestLineOnePerFork(m, start);
    var after := ChoosePath(m, chosen, line);
    LineLeads(m, chosen, start);
    PathIsChain(m, chosen);
    forall i | 0 <= i <= k ensures TurnsAt(m, after, path, k, line[0], i) {
      NextOnPrefix(m, chosen, start, k, i);
    }
    JoinLeads(m, after, path, k, line);
  }

  lemma {:induction false} SwitchBelow(m: Forest, chosen: set<Id>, start: Id, k: nat, i: nat, x: Id)
    requires Ordered(m) && start in m
    requires i < k < |PathSpine(m, chosen)| && m[start].parent == Some(PathSpine(m, chosen)[k])
    requires x in NewestLine(m, start)
    ensures x in m && m[x].parent != Some(PathSpine(m, chosen)[i])
  {
    PathIsChain(m, chosen);
    LineBelow(m, start, x);
    Up(m, start);
    assert Link(m, PathSpine(m, chosen), k);
    assert Rank(m, PathSpine(m, chosen)[i]) < Rank(m, PathSpine(m, chosen)[k]);
    if x != start { LineBelow(m, start, m[x].parent.value); }
  }
}
