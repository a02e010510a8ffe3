/**
 The chat-entry repository: the entry table of every conversation, its view anchors and the
 stream cursor. A batch transaction is one atomic step, so each method below is one step of the
 database, except where a method says that it only reads.
 */
module Repo {
  import opened Options
  import opened Entries
  import opened Forest
  import opened Split
  import opened Tokens
  import opened Batches

  type ConvId = nat

  datatype ForkLink = ForkLink(conversation: ConvId, entry: Option<Id>)

  datatype Conversation = Conversation(rows: Forest, anchor: Option<Id>, forkedFrom: Option<ForkLink>, totals: Totals)

  /** What a split decides from its reads, before its write batch runs. */
  datatype SplitPlan = SplitPlan(forkParent: Option<Id>, anchor: Option<Id>, moved: seq<Id>)

  ghost predicate AnchorOk(c: Conversation) {
    c.anchor.Some? ==> c.anchor.value in c.rows
  }

  ghost predicate Consistent(cs: map<ConvId, Conversation>) {
    && (forall c | c in cs :: WellFormed(cs[c].rows))
    && (forall c, d | c in cs && d in cs && c != d :: cs[c].rows.Keys !! cs[d].rows.Keys)
  }

  ghost predicate Anchored(cs: map<ConvId, Conversation>) {
    forall c | c in cs :: AnchorOk(cs[c])
  }

  /** The id is new to all conversations. */
  ghost predicate Unused(cs: map<ConvId, Conversation>, id: Id) {
    forall c | c in cs :: Fresh(cs[c].rows, id)
  }

  /** Only the payload of one entry changes. */
  function WithPayload(cs: map<ConvId, Conversation>, c: ConvId, id: Id, p: Payload): map<ConvId, Conversation> {
    if c in cs && id in cs[c].rows then cs[c := cs[c].(rows := cs[c].rows[id := cs[c].rows[id].(payload := p)])] else cs
  }

  /** The leaf of the default view: below the anchor, else below the first root. */
  ghost function DefaultViewLeaf(c: Conversation): Option<Id>
    requires WellFormed(c.rows)
  {
    match c.anchor
    case Some(a) => Some(NewestLeaf(c.rows, a))
    case None =>
      var roots := SpineChildren(c.rows, None);
      if roots == {} then None else Some(NewestLeaf(c.rows, Oldest(c.rows, roots)))
  }

  /** The plan is what the reads of a split at root return on c. */
  ghost predicate PlanFor(c: Conversation, root: Id, plan: SplitPlan)
    requires WellFormed(c.rows)
  {
    && root in c.rows
    && plan.forkParent == c.rows[root].parent
    && plan.anchor == c.anchor
    && IsIndexOrder(c.rows, Moved(c.rows, root), plan.moved)
  }

  /** The two conversations after the write batch of a split. */
  ghost function SplitSource(c: Conversation, plan: SplitPlan): Conversation {
    c.(rows := Remaining(c.rows, Elements(plan.moved)),
       anchor := if plan.anchor.Some? && plan.anchor.value in plan.moved then plan.forkParent else c.anchor)
  }

  ghost function SplitTarget(sourceId: ConvId, c: Conversation, t: Conversation, root: Id, plan: SplitPlan): Conversation
    requires forall x | x in plan.moved :: x in c.rows
  {
    t.(rows := Renumbered(c.rows, root, plan.moved),
       anchor := if plan.anchor.Some? && plan.anchor.value in plan.moved then plan.anchor else Some(root),
       forkedFrom := Some(ForkLink(sourceId, plan.forkParent)))
  }

  ghost function SplitInto(cs: map<ConvId, Conversation>, source: ConvId, c: Conversation, target: ConvId,
                           t: Conversation, root: Id, plan: SplitPlan): map<ConvId, Conversation>
    requires forall x | x in plan.moved :: x in c.rows
  {
    cs[source := SplitSource(c, plan)][target := SplitTarget(source, c, t, root, plan)]
  }

  /** What a planned split makes of conversation c, field by field. */
  ghost predicate SplitInTwo(sourceId: ConvId, c: Conversation, s: Conversation, t: Conversation, root: Id, plan: SplitPlan) {
    && s.rows.Keys == c.rows.Keys - Elements(plan.moved) && (forall a | a in s.rows :: s.rows[a] == c.rows[a])
    && t.rows.Keys == Elements(plan.moved) && (forall a | a in t.rows :: MovedRow(c.rows, t.rows, root, a))
    && (forall i | 0 <= i < |plan.moved| :: plan.moved[i] in t.rows && t.rows[plan.moved[i]].index == i)
    && t.forkedFrom == Some(ForkLink(sourceId, plan.forkParent)) && s.forkedFrom == c.forkedFrom
    && (if plan.anchor.Some? && plan.anchor.value in plan.moved
        then t.anchor == plan.anchor && s.anchor == plan.forkParent
        else t.anchor == Some(root) && s.anchor == c.anchor)
  }

  lemma {:induction false} SplitsInTwo(sourceId: ConvId, c: Conversation, t: Conversation, root: Id, plan: SplitPlan)
    requires Sorted(c.rows, plan.moved) && forall x | x in plan.moved :: x in c.rows
    ensures SplitInTwo(sourceId, c, SplitSource(c, plan), SplitTarget(sourceId, c, t, root, plan), root, plan)
  {
    RenumberedAt(c.rows, root, plan.moved);
    RenumberedRows(c.rows, root, plan.moved);
    var u := SplitTarget(sourceId, c, t, root, plan);
    forall a | a in u.rows ensures MovedRow(c.rows, u.rows, root, a) {
      assert a in plan.moved;
    }
  }

  /** Where the source anchor ends: at the split root's parent, if the plan saw it in the subtree,
      and else where it is by then. */
  ghost predicate AnchorLands(c: Conversation, plan: SplitPlan) {
    if plan.anchor.Some? && plan.anchor.value in plan.moved
    then plan.forkParent.Some? ==> plan.forkParent.value in c.rows
    else c.anchor.Some? ==> c.anchor.value in c.rows && c.anchor.value !in plan.moved
  }

  /** A split leaves both conversations sound even when payload merges and anchor changes land
      between its reads and its writes, but for the source anchor, which dangles in exactly two
      cases: it was moved into the subtree after the plan had read it, or it was in the subtree and
      the split root's parent is no row. */
  lemma {:induction false} SplitAnchors(sourceId: ConvId, then_: Conversation, c: Conversation, t: Conversation, root: Id, plan: SplitPlan)
    requires WellFormed(then_.rows) && SameShape(then_.rows, c.rows)
    requires PlanFor(then_, root, plan)
    ensures WellFormed(c.rows) && IsIndexOrder(c.rows, Moved(c.rows, root), plan.moved)
    ensures SplitSource(c, plan).rows.Keys !! SplitTarget(sourceId, c, t, root, plan).rows.Keys
    ensures SplitSource(c, plan).rows.Keys + SplitTarget(sourceId, c, t, root, plan).rows.Keys == c.rows.Keys
    ensures WellFormed(SplitSource(c, plan).rows)
    ensures WellFormed(SplitTarget(sourceId, c, t, root, plan).rows)
    ensures AnchorOk(SplitTarget(sourceId, c, t, root, plan))
    ensures AnchorOk(SplitSource(c, plan)) <==> AnchorLands(c, plan)
  {
    PlannedSplit(then_.rows, c.rows, root, plan.moved);
    MovedAre(plan.moved);
    SourceAnchor(c, plan);
    TargetAnchor(sourceId, c, t, root, plan);
  }

  /** The anchor lies below the split root, and the root's parent is no row. */
  ghost predicate LosesAnchor(c: Conversation, root: Id)
    requires WellFormed(c.rows)
  {
    && c.anchor.Some? && c.anchor.value in Moved(c.rows, root)
    && root in c.rows && c.rows[root].parent.Some? && !HasParent(c.rows, root)
  }

  /** With nothing in between, that is the only case in which the source anchor dangles. */
  lemma {:induction false} LosesAnchorExactly(c: Conversation, root: Id, plan: SplitPlan)
    requires WellFormed(c.rows) && PlanFor(c, root, plan)
    ensures AnchorOk(c) ==> (AnchorLands(c, plan) <==> !LosesAnchor(c, root))
  {
    MovedAre(plan.moved);
  }

  lemma {:induction false} MovedAre(q: seq<Id>)
    ensures forall x :: x in q <==> x in Elements(q)
  {
  }

  lemma {:induction false} TargetAnchor(sourceId: ConvId, c: Conversation, t: Conversation, root: Id, plan: SplitPlan)
    requires forall x | x in plan.moved :: x in c.rows
    requires Renumbered(c.rows, root, plan.moved).Keys == Elements(plan.moved) && root in Elements(plan.moved)
    ensures AnchorOk(SplitTarget(sourceId, c, t, root, plan))
  {
    MovedAre(plan.moved);
  }

  lemma {:induction false} SourceAnchor(c: Conversation, plan: SplitPlan)
    requires Remaining(c.rows, Elements(plan.moved)).Keys == c.rows.Keys - Elements(plan.moved)
    requires plan.forkParent.Some? && plan.forkParent.value in c.rows ==>
               plan.forkParent.value in Remaining(c.rows, Elements(plan.moved))
    ensures AnchorOk(SplitSource(c, plan)) <==> AnchorLands(c, plan)
  {
    assert forall x :: x in plan.moved <==> x in Elements(plan.moved);
  }

  lemma {:induction false} SplitApart(cs: map<ConvId, Conversation>, source: ConvId, root: Id, target: ConvId,
                                      plan: SplitPlan, then_: Conversation)
    requires Consistent(cs) && source in cs && target in cs && source != target && cs[target].rows == map[]
    requires WellFormed(then_.rows) && PlanFor(then_, root, plan)
    requires SameShape(then_.rows, cs[source].rows)
    ensures Sorted(cs[source].rows, plan.moved) && forall x | x in plan.moved :: x in cs[source].rows
    ensures var after := SplitInto(cs, source, cs[source], target, cs[target], root, plan);
            Consistent(after) && (Anchored(cs) ==> (Anchored(after) <==> AnchorLands(cs[source], plan)))
  {
    var c, t := cs[source], cs[target];
    SplitAnchors(source, then_, c, t, root, plan);
    SplitConsistent(cs, source, target, SplitSource(c, plan), SplitTarget(source, c, t, root, plan));
  }

  method NewestIn(m: Forest, s: set<Id>) returns (c: Id)
    requires s != {} && s <= m.Keys
    ensures IsNewest(m, s, c)
  {
    c :| c in s;
    var todo := s - {c};
    while todo != {}
      invariant c in s && todo <= s
      invariant forall d | d in s && d !in todo :: m[d].index <= m[c].index
    {
      var d :| d in todo;
      if m[d].index > m[c].index { c := d; }
      todo := todo - {d};
    }
  }

  method OldestIn(m: Forest, s: set<Id>) returns (c: Id)
    requires s != {} && s <= m.Keys
    ensures IsOldest(m, s, c)
  {
    c :| c in s;
    var todo := s - {c};
    while todo != {}
      invariant c in s && todo <= s
      invariant forall d | d in s && d !in todo :: m[c].index <= m[d].index
    {
      var d :| d in todo;
      if m[d].index < m[c].index { c := d; }
      todo := todo - {d};
    }
  }

  method NewestSpineChild(m: Forest, a: Id) returns (next: Option<Id>)
    ensures next.None? ==> SpineChildren(m, Some(a)) == {}
    ensures next.Some? ==> IsNewest(m, SpineChildren(m, Some(a)), next.value)
  {
    var kids := set k | k in m && m[k].parent == Some(a) && !m[k].isSide;
    assert kids == SpineChildren(m, Some(a));
    if kids == {} { return None; }
    var c := NewestIn(m, kids);
    return Some(c);
  }

  lemma {:induction false} StepDown(m: Forest, a: Id, c: Id)
    requires Ordered(m) && IsNewest(m, SpineChildren(m, Some(a)), c)
    ensures NewestLeaf(m, c) == NewestLeaf(m, a)
    ensures a in m ==> Rank(m, a) < Rank(m, c) && |Above(m, c)| < |Above(m, a)|
  {
    Up(m, c);
    if a in m {
      NewestLineStep(m, a, c);
      AboveShrinks(m, a, c);
    } else {
      NewestUnique(m, SpineChildren(m, Some(a)), c, Newest(m, SpineChildren(m, Some(a))));
    }
  }

  /** q lists the rows of s that are not in todo, all of which come before those in todo. */
  ghost predicate OrderedSoFar(m: Forest, s: set<Id>, todo: set<Id>, q: seq<Id>) {
    && todo <= s && Sorted(m, q) && Elements(q) == s - todo
    && forall x, y | x in q && y in todo :: x in m && y in m && m[x].index < m[y].index
  }

  lemma {:induction false} OrderedMore(m: Forest, s: set<Id>, todo: set<Id>, q: seq<Id>, c: Id)
    requires UniqueIndices(m) && s <= m.Keys && OrderedSoFar(m, s, todo, q) && IsOldest(m, todo, c)
    ensures OrderedSoFar(m, s, todo - {c}, q + [c])
  {
    if q != [] { assert q[|q| - 1] in q; }
    SortedMore(m, q, c);
    assert Elements(q + [c]) == Elements(q) + {c};
  }

  /** ORDER BY conversation_index ASC. */
  method OrderByIndex(m: Forest, s: set<Id>) returns (q: seq<Id>)
    requires UniqueIndices(m) && s <= m.Keys
    ensures IsIndexOrder(m, s, q)
  {
    q := [];
    var todo := s;
    assert Elements(q) == s - todo;
    while todo != {}
      invariant OrderedSoFar(m, s, todo, q)
    {
      var c := OldestIn(m, todo);
      OrderedMore(m, s, todo, q, c);
      q, todo := q + [c], todo - {c};
    }
    assert s - todo == s;
  }

  class ChatEntriesRepo {
    var conversations: map<ConvId, Conversation>
    var cursor: nat

    ghost predicate Valid()
      reads this
    {
      Consistent(conversations)
    }

    constructor ()
      ensures Valid() && conversations == map[] && cursor == 0
    {
      conversations := map[];
      cursor := 0;
    }

    /** COALESCE(MAX(conversation_index), -1) + 1 */
    method NextIndex(c: ConvId) returns (i: int)
      requires c in conversations
      ensures IsNextIndex(conversations[c].rows, i)
    {
      i := 0;
      var m := conversations[c].rows;
      var todo := m.Keys;
      while todo != {}
        invariant todo <= m.Keys
        invariant i >= 0 && forall a | a in m && a !in todo :: m[a].index < i
        invariant i > 0 ==> exists a :: a in m && m[a].index == i - 1
      {
        var a :| a in todo;
        if m[a].index >= i { i := m[a].index + 1; }
        todo := todo - {a};
      }
    }

    method AppendEntry(c: ConvId, id: Id, parent: Option<Id>, isSide: bool, payload: Payload)
      returns (index: int, seqNo: nat)
      requires Valid() && c in conversations && Unused(conversations, id) && parent != Some(id)
      modifies this
      ensures Valid()
      ensures IsNextIndex(old(conversations[c].rows), index)
      ensures conversations == old(conversations)[c := old(conversations[c]).(
                rows := old(conversations[c].rows)[id := Row(index, parent, isSide, payload)])]
      ensures seqNo == cursor == old(cursor) + 1
    {
      index := NextIndex(c);
      var row := Row(index, parent, isSide, payload);
      AppendKeeps(conversations[c].rows, id, row);
      conversations := conversations[c := conversations[c].(rows := conversations[c].rows[id := row])];
      cursor := cursor + 1;
      seqNo := cursor;
    }

    method FetchEntryRow(c: ConvId, id: Id) returns (row: Option<Row>)
      ensures row.Some? <==> c in conversations && id in conversations[c].rows
      ensures row.Some? ==> row.value == conversations[c].rows[id]
    {
      if c !in conversations || id !in conversations[c].rows { return None; }
      return Some(conversations[c].rows[id]);
    }

    /** One UPDATE of a payload together with a bump of the cursor. An entry that is gone by then is
        no error: no row is touched, and the cursor still moves. */
    method MutateEntry(c: ConvId, id: Id, payload: Payload) returns (seqNo: nat)
      requires Valid()
      modifies this
      ensures Valid() && seqNo == cursor == old(cursor) + 1
      ensures conversations == WithPayload(old(conversations), c, id, payload)
    {
      if c in conversations && id in conversations[c].rows {
        var m := conversations[c].rows;
        MergeKeeps(m, id, payload);
        conversations := conversations[c := conversations[c].(rows := m[id := m[id].(payload := payload)])];
      }
      cursor := cursor + 1;
      seqNo := cursor;
    }

    /** With nothing in between, the payload is the stored one with the patch assigned over it; an
        unknown entry is an error. */
    method MergeEntryPayload(c: ConvId, id: Id, patch: Patch) returns (seqNo: Option<nat>)
      requires Valid()
      modifies this
      ensures Valid()
      ensures seqNo.None? <==> !(c in old(conversations) && id in old(conversations[c].rows))
      ensures seqNo.None? ==> conversations == old(conversations) && cursor == old(cursor)
      ensures seqNo.Some? ==>
                && seqNo.value == cursor == old(cursor) + 1
                && conversations ==
                     WithPayload(old(conversations), c, id, Merged(old(conversations[c].rows[id].payload), patch))
      ensures seqNo.Some? ==> c in conversations && id in conversations[c].rows
      ensures seqNo.Some? ==> Assigned(old(conversations[c].rows[id].payload), patch, conversations[c].rows[id].payload)
    {
      var row := FetchEntryRow(c, id);
      if row.None? { return None; }
      var n := MutateEntry(c, id, Merged(row.value.payload, patch));
      seqNo := Some(n);
    }

    method SetDefaultViewLeaf(c: ConvId, id: Id) returns (ok: bool)
      requires Valid() && c in conversations
      modifies this
      ensures Valid() && cursor == old(cursor)
      ensures ok <==> id in old(conversations[c].rows)
      ensures conversations == if ok then old(conversations)[c := old(conversations[c]).(anchor := Some(id))]
                                     else old(conversations)
    {
      ok := id in conversations[c].rows;
      if ok { conversations := conversations[c := conversations[c].(anchor := Some(id))]; }
    }

    // -------------------------------------------------------------- default view

    method WalkToLatestLeaf(c: ConvId, anchor: Id) returns (leaf: Id)
      requires Valid() && c in conversations
      ensures leaf == NewestLeaf(conversations[c].rows, anchor)
    {
      var m := conversations[c].rows;
      leaf := anchor;
      var visited := {leaf};
      while true
        invariant leaf in m || leaf == anchor
        invariant NewestLeaf(m, leaf) == NewestLeaf(m, anchor)
        invariant forall v | v in visited && v != leaf :: leaf in m && (v in m ==> Rank(m, v) < Rank(m, leaf))
        decreases leaf !in m, if leaf in m then |Above(m, leaf)| else 0
      {
        var next := NewestSpineChild(m, leaf);
        if next.None? { return; }
        StepDown(m, leaf, next.value);
        assert next.value !in visited;
        if next.value in visited { return; }
        visited := visited + {next.value};
        leaf := next.value;
      }
    }

    method ResolveDefaultViewLeaf(c: ConvId) returns (leaf: Option<Id>)
      requires Valid() && c in conversations
      ensures leaf == DefaultViewLeaf(conversations[c])
    {
      var m := conversations[c].rows;
      if conversations[c].anchor.Some? {
        var z := WalkToLatestLeaf(c, conversations[c].anchor.value);
        return Some(z);
      }
      var roots := set k | k in m && m[k].parent == None && !m[k].isSide;
      assert roots == SpineChildren(m, None);
      if roots == {} { return None; }
      var first := OldestIn(m, roots);
      assert first == Oldest(m, roots);
      var z := WalkToLatestLeaf(c, first);
      return Some(z);
    }

    /** The recursive lineage query, listed in index order: it is the parent walk. */
    method FetchLineageRows(c: ConvId, leaf: Id) returns (q: seq<Id>)
      requires Valid() && c in conversations
      ensures q == if leaf in conversations[c].rows then Lineage(conversations[c].rows, leaf) else []
    {
      var m := conversations[c].rows;
      if leaf !in m { return []; }
      ghost var walk := Lineage(m, leaf);
      var ids, working := {}, {leaf};
      ghost var k: nat := |walk|;
      while working != {}
        invariant k <= |walk| && ids == Elements(walk[k..]) && ids <= m.Keys
        invariant working == if k == 0 then {} else {walk[k - 1]}
        invariant working <= m.Keys
        decreases k
      {
        LineageBack(m, leaf, k);
        ids := ids + working;
        working := ParentsOf(m, working);
        k := k - 1;
      }
      LineageSorted(m, leaf);
      assert walk[0..] == walk;
      q := OrderByIndex(m, ids);
      IndexOrderUnique(m, ids, q, walk);
    }

    // -------------------------------------------------------------- batch queries

    method CountTerminalToolInvocationsInBatch(c: ConvId, b: nat) returns (n: nat)
      requires c in conversations
      ensures n == |ResolvedMembers(conversations[c].rows, b)|
    {
      n := 0;
      var m := conversations[c].rows;
      var todo := m.Keys;
      ghost var counted: set<Id> := {};
      while todo != {}
        invariant todo <= m.Keys && n == |counted|
        invariant counted == set a | a in ResolvedMembers(m, b) && a !in todo
      {
        var a :| a in todo;
        if InBatch(m[a].payload, b) && Resolved(m[a].payload) { n, counted := n + 1, counted + {a}; }
        todo := todo - {a};
      }
      assert counted == ResolvedMembers(m, b);
    }

    method ResolveBatchTailEntryId(c: ConvId, b: nat) returns (tail: Option<Id>)
      requires Valid() && c in conversations
      ensures tail == TailOf(conversations[c].rows, b)
    {
      var m := conversations[c].rows;
      var members := set a | a in m && InBatch(m[a].payload, b);
      assert members == Members(m, b);
      if members == {} { return None; }
      var z := NewestIn(m, members);
      NewestUnique(m, members, z, Newest(m, members));
      return Some(z);
    }

    method HasSpineChildQuery(c: ConvId, a: Id) returns (found: bool)
      requires c in conversations
      ensures found <==> HasSpineChild(conversations[c].rows, a)
    {
      var m := conversations[c].rows;
      found := exists k :: k in m && m[k].parent == Some(a) && !m[k].isSide;
      if found {
        var k :| k in m && m[k].parent == Some(a) && !m[k].isSide;
        assert k in SpineChildren(m, Some(a));
      } else {
        assert SpineChildren(m, Some(a)) == {};
      }
    }

    // -------------------------------------------------------------- split

    /** The recursive subtree query: rounds of children, from the root down. */
    method SubtreeIds(c: ConvId, root: Id) returns (sub: set<Id>)
      requires Valid() && c in conversations && root in conversations[c].rows
      ensures sub == Moved(conversations[c].rows, root)
    {
      var m := conversations[c].rows;
      sub := {};
      var working := {root};
      ghost var depth := |Lineage(m, root)|;
      while working != {}
        invariant sub <= Moved(m, root) && working <= Moved(m, root)
        invariant root in sub + working
        invariant forall a | a in working :: |Lineage(m, a)| == depth
        invariant forall a | a in sub :: |Lineage(m, a)| < depth
        invariant forall e | HasParent(m, e) && m[e].parent.value in sub :: e in sub + working
        decreases m.Keys - sub
      {
        var x :| x in working;
        assert x in m && x !in sub;
        sub := sub + working;
        var next := set e | e in m && m[e].parent.Some? && m[e].parent.value in working;
        forall e | e in next ensures e in Moved(m, root) && |Lineage(m, e)| == depth + 1 {
          assert HasParent(m, e);
        }
        working, depth := next, depth + 1;
      }
      forall a | a in Moved(m, root) ensures a in sub {
        ClosedHoldsSubtree(m, root, sub, a);
      }
    }

    /** The reads of a split. */
    method PlanSplit(c: ConvId, root: Id) returns (plan: Option<SplitPlan>)
      requires Valid() && c in conversations
      ensures plan.None? <==> root !in conversations[c].rows
      ensures plan.Some? ==> PlanFor(conversations[c], root, plan.value)
    {
      var m := conversations[c].rows;
      if root !in m { return None; }
      var sub := SubtreeIds(c, root);
      var moved := OrderByIndex(m, sub);
      return Some(SplitPlan(m[root].parent, conversations[c].anchor, moved));
    }

    /** The write batch of a split: one UPDATE per moved entry, then the root's parent, then the
        two conversation rows, and one bump of the cursor. */
    method ApplySplit(source: ConvId, root: Id, target: ConvId, plan: SplitPlan, ghost then_: Conversation)
      requires Valid() && source in conversations && target in conversations && source != target
      requires conversations[target].rows == map[]
      requires WellFormed(then_.rows) && PlanFor(then_, root, plan)
      requires SameShape(then_.rows, conversations[source].rows)
      modifies this
      ensures Valid()
      ensures forall x | x in plan.moved :: x in old(conversations[source].rows)
      ensures conversations ==
                SplitInto(old(conversations), source, old(conversations[source]), target, old(conversations[target]), root, plan)
      ensures SplitInTwo(source, old(conversations[source]), conversations[source], conversations[target], root, plan)
      ensures forall d | d in old(conversations) && d != source && d != target :: d in conversations && conversations[d] == old(conversations)[d]
      ensures cursor == old(cursor) + 1
      ensures old(Anchored(conversations)) ==>
                (Anchored(conversations) <==> AnchorLands(old(conversations[source]), plan))
    {
      var c, t := conversations[source], conversations[target];
      ghost var s, u := SplitSource(c, plan), SplitTarget(source, c, t, root, plan);
      SplitApart(conversations, source, root, target, plan, then_);
      var src, tgt := MoveRows(c.rows, root, plan.moved);
      var inside := plan.anchor.Some? && plan.anchor.value in plan.moved;
      var t' := t.(rows := tgt, anchor := if inside then plan.anchor else Some(root),
                   forkedFrom := Some(ForkLink(source, plan.forkParent)));
      var c' := c.(rows := src, anchor := if inside then plan.forkParent else c.anchor);
      assert c' == s && t' == u;
      SplitsInTwo(source, c, t, root, plan);
      SplitIntoAt(conversations, source, target, root, plan);
      Commit(source, c', target, t');
    }

    /** The end of the write batch: both conversations change together, and the cursor with them. */
    method Commit(source: ConvId, c: Conversation, target: ConvId, t: Conversation)
      modifies this
      ensures conversations == old(conversations)[source := c][target := t] && cursor == old(cursor) + 1
    {
      conversations := conversations[source := c][target := t];
      cursor := cursor + 1;
    }

    /** The whole split, with the append lock held and nothing in between. */
    method SplitOffSubtree(source: ConvId, root: Id, target: ConvId) returns (ok: bool, ghost plan: SplitPlan)
      requires Valid() && source in conversations && target in conversations && source != target
      requires conversations[target].rows == map[]
      modifies this
      ensures Valid()
      ensures ok <==> root in old(conversations[source].rows)
      ensures !ok ==> conversations == old(conversations) && cursor == old(cursor)
      ensures ok ==> PlanFor(old(conversations[source]), root, plan)
      ensures ok ==> (conversations ==
                SplitInto(old(conversations), source, old(conversations[source]), target, old(conversations[target]), root, plan))
      ensures ok && old(Anchored(conversations)) ==>
                (Anchored(conversations) <==> !LosesAnchor(old(conversations[source]), root))
    {
      var read := PlanSplit(source, root);
      if read.None? { return false, SplitPlan(None, None, []); }
      plan := read.value;
      ghost var c, t := conversations[source], conversations[target];
      assert SameShape(c.rows, c.rows);
      SplitAnchors(source, c, c, t, root, plan);
      LosesAnchorExactly(c, root, plan);
      ApplySplit(source, root, target, read.value, c);
      ok := true;
    }

    // -------------------------------------------------------------- totals

    /** Re-sums the token counters from the rows, in whatever order they come. */
    method RawTokenTotals(c: ConvId) returns (t: Totals)
      requires c in conversations
      ensures t == TotalsOf(conversations[c].rows)
    {
      var m := conversations[c].rows;
      ghost var rest := BillOf(m);
      t := ZERO;
      AddZero(Sum(rest));
      var todo := m.Keys;
      while todo != {}
        invariant todo <= m.Keys && rest.Keys == todo
        invariant forall k | k in todo :: rest[k] == BillOf(m)[k]
        invariant TotalsOf(m) == Add(t, Sum(rest))
      {
        var k :| k in todo;
        SumRow(m, t, rest, k);
        t := Add(t, RowTotals(m[k]));
        rest := rest - {k};
        todo := todo - {k};
      }
      AddRight(t);
    }

    method RecomputeTokenTotals(c: ConvId)
      requires Valid() && c in conversations
      modifies this
      ensures Valid() && cursor == old(cursor)
      ensures conversations == old(conversations)[c := old(conversations[c]).(totals := TotalsOf(old(conversations[c].rows)))]
    {
      var t := RawTokenTotals(c);
      conversations := conversations[c := conversations[c].(totals := t)];
    }
  }

  /** Rows that stay are untouched and rows that move keep lane, payload and parent. The new
      conversation points back to where it was split off; it opens on the branch that was viewed, if
      that moved, else on the newest line below the split root, as that was in the source. */
  ghost predicate OpensOnBranch(c: Conversation, sourceId: ConvId, root: Id, s: Conversation, t: Conversation) {
    && WellFormed(c.rows) && WellFormed(t.rows) && root in c.rows
    && (forall a | a in s.rows :: a in c.rows && s.rows[a] == c.rows[a])
    && (forall a | a in t.rows :: MovedRow(c.rows, t.rows, root, a))
    && t.forkedFrom == Some(ForkLink(sourceId, c.rows[root].parent))
    && var viewed := c.anchor.Some? && c.anchor.value in Moved(c.rows, root);
    && t.anchor == (if viewed then c.anchor else Some(root)) && s.anchor == (if viewed then c.rows[root].parent else c.anchor)
    && DefaultViewLeaf(t) == Some(NewestLeaf(c.rows, if viewed then c.anchor.value else root))
  }

  lemma {:induction false} OpensAt(c: Conversation, t: Conversation, root: Id, q: seq<Id>, a: Id)
    requires WellFormed(c.rows) && root in c.rows && IsIndexOrder(c.rows, Moved(c.rows, root), q)
    requires t.rows == Renumbered(c.rows, root, q) && t.anchor == Some(a) && a in Moved(c.rows, root)
    ensures WellFormed(t.rows) && DefaultViewLeaf(t) == Some(NewestLeaf(c.rows, a))
  {
    MovedLine(c.rows, root, q, a);
  }

  lemma {:induction false} BranchOpens(c: Conversation, sourceId: ConvId, root: Id, plan: SplitPlan, s: Conversation, t: Conversation)
    requires WellFormed(c.rows) && PlanFor(c, root, plan)
    requires SplitInTwo(sourceId, c, s, t, root, plan) && t.rows == Renumbered(c.rows, root, plan.moved)
    ensures OpensOnBranch(c, sourceId, root, s, t)
  {
    MovedAre(plan.moved);
    MovedClosed(c.rows, root, root);
    var viewed := c.anchor.Some? && c.anchor.value in Moved(c.rows, root);
    OpensAt(c, t, root, plan.moved, if viewed then c.anchor.value else root);
  }

  /** What "split from here" makes of conversation c: the subtree of the entry moves; the stored totals
      are those of the rows and add up to what they were; the anchors are sound, but for the one case. */
  ghost predicate SplitOff(c: Conversation, sourceId: ConvId, root: Id, s: Conversation, t: Conversation) {
    && OpensOnBranch(c, sourceId, root, s, t)
    && t.rows.Keys == Moved(c.rows, root) && s.rows.Keys == c.rows.Keys - Moved(c.rows, root)
    && s.totals == TotalsOf(s.rows) && t.totals == TotalsOf(t.rows) && TotalsOf(c.rows) == Add(s.totals, t.totals)
    && AnchorOk(t) && (AnchorOk(c) ==> (AnchorOk(s) <==> !LosesAnchor(c, root)))
  }

  lemma {:induction false} SplitsOff(sourceId: ConvId, c: Conversation, root: Id, plan: SplitPlan, s: Conversation, t: Conversation)
    requires WellFormed(c.rows) && PlanFor(c, root, plan)
    requires s == SplitSource(c, plan).(totals := TotalsOf(SplitSource(c, plan).rows))
    requires t == SplitTarget(sourceId, c, EMPTY, root, plan).(totals := TotalsOf(SplitTarget(sourceId, c, EMPTY, root, plan).rows))
    ensures SplitOff(c, sourceId, root, s, t)
  {
    SplitTotals(sourceId, c, EMPTY, root, plan);
    SplitsInTwo(sourceId, c, EMPTY, root, plan);
    BranchOpens(c, sourceId, root, plan, s, t);
    assert SameShape(c.rows, c.rows);
    SplitAnchors(sourceId, c, c, EMPTY, root, plan);
    LosesAnchorExactly(c, root, plan);
  }

  /** "Split from here": a new conversation receives the subtree of the entry, and the token
      totals of both are re-summed. A missing conversation or entry leaves everything as it was. */
  method SplitConversation(repo: ChatEntriesRepo, source: ConvId, entry: Id, target: ConvId) returns (ok: bool)
    requires repo.Valid() && target !in repo.conversations
    modifies repo
    ensures repo.Valid()
    ensures ok <==> source in old(repo.conversations) && entry in old(repo.conversations[source].rows)
    ensures !ok ==> repo.conversations == old(repo.conversations)
    ensures ok ==> repo.conversations.Keys == old(repo.conversations).Keys + {target}
    ensures ok ==> forall c | c in old(repo.conversations) && c != source ::
                     repo.conversations[c] == old(repo.conversations)[c]
    ensures ok ==> SplitOff(old(repo.conversations[source]), source, entry, repo.conversations[source], repo.conversations[target])
  {
    if source !in repo.conversations || entry !in repo.conversations[source].rows { return false; }
    ghost var c := repo.conversations[source];
    ghost var plan := MoveToNew(repo, source, entry, target);
    RecomputeBoth(repo, source, target, SplitSource(c, plan), SplitTarget(source, c, EMPTY, entry, plan));
    SplitsOff(source, c, entry, plan, repo.conversations[source], repo.conversations[target]);
    ok := true;
  }

  method RecomputeBoth(repo: ChatEntriesRepo, source: ConvId, target: ConvId, ghost s: Conversation, ghost u: Conversation)
    requires repo.Valid() && source in repo.conversations && target in repo.conversations && source != target
    requires repo.conversations[source] == s && repo.conversations[target] == u
    modifies repo
    ensures repo.Valid() && repo.conversations.Keys == old(repo.conversations).Keys
    ensures repo.conversations[source] == s.(totals := TotalsOf(s.rows))
    ensures repo.conversations[target] == u.(totals := TotalsOf(u.rows))
    ensures forall c | c in old(repo.conversations) && c != source && c != target :: repo.conversations[c] == old(repo.conversations)[c]
  {
    repo.RecomputeTokenTotals(source);
    repo.RecomputeTokenTotals(target);
  }

  const EMPTY := Conversation(map[], None, None, ZERO)

  method MoveToNew(repo: ChatEntriesRepo, source: ConvId, entry: Id, target: ConvId) returns (ghost plan: SplitPlan)
    requires repo.Valid() && target !in repo.conversations
    requires source in repo.conversations && entry in repo.conversations[source].rows
    modifies repo
    ensures repo.Valid()
    ensures PlanFor(old(repo.conversations[source]), entry, plan)
    ensures repo.conversations.Keys == old(repo.conversations).Keys + {target}
    ensures repo.conversations[source] == SplitSource(old(repo.conversations[source]), plan)
    ensures repo.conversations[target] == SplitTarget(source, old(repo.conversations[source]), EMPTY, entry, plan)
    ensures forall c | c in old(repo.conversations) && c != source :: repo.conversations[c] == old(repo.conversations)[c]
  {
    AddEmpty(repo.conversations, target);
    repo.conversations := repo.conversations[target := EMPTY];
    var ok;
    ghost var cs := repo.conversations;
    ok, plan := repo.SplitOffSubtree(source, entry, target);
    SplitIntoAt(cs, source, target, entry, plan);
  }

  lemma {:induction false} SplitIntoAt(cs: map<ConvId, Conversation>, source: ConvId, target: ConvId, root: Id, plan: SplitPlan)
    requires source in cs && target in cs && source != target
    requires forall x | x in plan.moved :: x in cs[source].rows
    ensures var after := SplitInto(cs, source, cs[source], target, cs[target], root, plan);
            && after.Keys == cs.Keys
            && after[source] == SplitSource(cs[source], plan)
            && after[target] == SplitTarget(source, cs[source], cs[target], root, plan)
            && forall c | c in cs && c != source && c != target :: after[c] == cs[c]
  {
  }

  lemma {:induction false} AddEmpty(cs: map<ConvId, Conversation>, target: ConvId)
    requires Consistent(cs) && target !in cs
    ensures Consistent(cs[target := EMPTY]) && (Anchored(cs) ==> Anchored(cs[target := EMPTY]))
  {
    StoredRows(EMPTY.rows);
  }

  lemma {:induction false} SplitTotals(sourceId: ConvId, c: Conversation, t: Conversation, root: Id, plan: SplitPlan)
    requires WellFormed(c.rows) && PlanFor(c, root, plan)
    ensures var s, u := SplitSource(c, plan), SplitTarget(sourceId, c, t, root, plan);
            && TotalsOf(c.rows) == Add(TotalsOf(s.rows), TotalsOf(u.rows))
            && u.rows.Keys == Moved(c.rows, root) && s.rows.Keys == c.rows.Keys - Moved(c.rows, root)
  {
    assert SameShape(c.rows, c.rows);
    PlannedSplit(c.rows, c.rows, root, plan.moved);
    SplitConservesTokens(c.rows, root, plan.moved);
  }

  lemma {:induction false} AddRight(t: Totals)
    ensures Add(t, ZERO) == t
  {
  }

  function ParentsOf(m: Forest, s: set<Id>): set<Id>
    requires s <= m.Keys
  {
    set e | e in m && exists l :: l in s && m[l].parent == Some(e)
  }

  /** One round of the recursive query: from an entry of the lineage to the one before it. */
  lemma {:induction false} LineageBack(m: Forest, a: Id, k: nat)
    requires Ordered(m) && a in m && 0 < k <= |Lineage(m, a)|
    ensures var q := Lineage(m, a);
            && q[k - 1] in m && ParentsOf(m, {q[k - 1]}) == (if k == 1 then {} else {q[k - 2]})
            && ParentsOf(m, {q[k - 1]}) <= m.Keys && Elements(q[k..]) + {q[k - 1]} == Elements(q[k - 1..])
  {
    var q := Lineage(m, a);
    LineageSteps(m, a, k - 1);
    if k > 1 { LineageSteps(m, a, k - 2); }
    assert q[k - 1..] == [q[k - 1]] + q[k..];
  }

  lemma {:induction false} MoveStep(m: Forest, root: Id, q: seq<Id>, i: nat)
    requires Sorted(m, q) && i < |q|
    ensures forall x | x in q[..i + 1] :: x in m
    ensures q[i] in Remaining(m, Elements(q[..i])) && Remaining(m, Elements(q[..i]))[q[i]] == m[q[i]]
    ensures Remaining(m, Elements(q[..i + 1])) == Remaining(m, Elements(q[..i])) - {q[i]}
    ensures Renumbered(m, root, q[..i + 1]) == Renumbered(m, root, q[..i])[q[i] := Renumber(m[q[i]], i, q[i] == root)]
  {
    assert q[..i + 1] == q[..i] + [q[i]];
    assert q[..i + 1][..i] == q[..i];
    forall x | x in q[..i] ensures x != q[i] {
      var j :| 0 <= j < i && q[j] == x;
    }
  }

  /** The per-entry UPDATE statements of a split. */
  method MoveRows(m: Forest, root: Id, q: seq<Id>) returns (src: Forest, tgt: Forest)
    requires Sorted(m, q)
    ensures forall x | x in q :: x in m
    ensures src == Remaining(m, Elements(q)) && tgt == Renumbered(m, root, q)
    ensures forall x :: x in src <==> x in m && x !in q
    ensures forall x | x in src :: src[x] == m[x]
    ensures forall x :: x in tgt <==> x in q
    ensures forall i | 0 <= i < |q| :: tgt[q[i]].index == i
    ensures forall x | x in q :: MovedRow(m, tgt, root, x)
  {
    src, tgt := m, map[];
    for i := 0 to |q|
      invariant forall x | x in q[..i] :: x in m
      invariant src == Remaining(m, Elements(q[..i])) && tgt == Renumbered(m, root, q[..i])
    {
      MoveStep(m, root, q, i);
      tgt := tgt[q[i] := Renumber(src[q[i]], i, q[i] == root)];
      src := src - {q[i]};
    }
    assert q[..|q|] == q;
    RenumberedAt(m, root, q);
    RenumberedRows(m, root, q);
  }

  lemma {:induction false} SplitConsistent(before: map<ConvId, Conversation>, source: ConvId, target: ConvId, c: Conversation, t: Conversation)
    requires Consistent(before) && source in before && target in before && source != target
    requires c.rows.Keys !! t.rows.Keys && c.rows.Keys + t.rows.Keys == before[source].rows.Keys
    requires WellFormed(c.rows) && WellFormed(t.rows) && AnchorOk(t)
    ensures Consistent(before[source := c][target := t])
    ensures Anchored(before) ==> (Anchored(before[source := c][target := t]) <==> AnchorOk(c))
  {
    var after := before[source := c][target := t];
    forall x, y | x in after && y in after && x != y ensures after[x].rows.Keys !! after[y].rows.Keys {
      assert x != source && x != target ==> before[x].rows.Keys !! before[source].rows.Keys;
      assert y != source && y != target ==> before[y].rows.Keys !! before[source].rows.Keys;
    }
    assert after[source] == c;
  }

  /** One more row summed. */
  lemma {:induction false} SumRow(m: Forest, t: Totals, rest: Bill, k: Id)
    requires k in m && k in rest && rest[k] == BillOf(m)[k]
    ensures Add(t, Sum(rest)) == Add(Add(t, RowTotals(m[k])), Sum(rest - {k}))
  {
    SumPick(rest, k);
    AddAssoc(t, rest[k], Sum(rest - {k}));
  }
}
