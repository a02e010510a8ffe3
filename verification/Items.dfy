/**
 The client's rows: a list of observable items and an index of them by id, changed in place, and
 the choosing of entries, which sets flags on the items. An item is a wrapper whose identity
 outlives the value it holds; its identity is a handle into the table of wrappers.
 */
module Items {
  import opened Options
  import opened Entries
  import opened Forest
  import opened View
  import opened Walks

  datatype Linked = Linked(id: Id, row: Row, isChosen: bool)

  type Handle = nat

  datatype Wrapper = Wrapper(id: Id, value: Linked)

  type Heap = map<Handle, Wrapper>

  ghost predicate DistinctIds(items: seq<Linked>) {
    forall i, j | 0 <= i < j < |items| :: items[i].id != items[j].id
  }

  ghost function NodesOf(items: seq<Linked>): Forest {
    if items == [] then map[] else NodesOf(items[..|items| - 1])[items[|items| - 1].id := items[|items| - 1].row]
  }

  ghost function ChosenOf(items: seq<Linked>): set<Id> {
    set i | 0 <= i < |items| && items[i].isChosen :: items[i].id
  }

  lemma {:induction false} NodesAt(items: seq<Linked>)
    requires DistinctIds(items)
    ensures forall i | 0 <= i < |items| :: items[i].id in NodesOf(items) && NodesOf(items)[items[i].id] == items[i].row
    ensures forall k | k in NodesOf(items) :: exists i :: 0 <= i < |items| && items[i].id == k
    decreases |items|
  {
    if items != [] {
      var f := items[..|items| - 1];
      assert DistinctIds(f);
      NodesAt(f);
      forall i | 0 <= i < |items| ensures items[i].id in NodesOf(items) && NodesOf(items)[items[i].id] == items[i].row {
        assert i < |f| ==> f[i] == items[i];
      }
      forall k | k in NodesOf(items) ensures exists i :: 0 <= i < |items| && items[i].id == k {
        if k != items[|items| - 1].id {
          assert k in NodesOf(f);
          var i :| 0 <= i < |f| && f[i].id == k;
          assert items[i].id == k;
        } else {
          assert items[|items| - 1].id == k;
        }
      }
    }
  }

  function Flagged(chosen: set<Id>, id: Id, flag: bool): set<Id> {
    if flag then chosen + {id} else chosen - {id}
  }

  function Cleared(chosen: set<Id>, kids: seq<Id>, e: Id): set<Id> {
    chosen - (Elements(kids) - {e})
  }

  /** The first i entries of a path have been chosen. */
  ghost predicate ChosenUpTo(m: Forest, was: set<Id>, path: seq<Id>, i: nat, now: set<Id>) {
    i <= |path| && (forall x | x in path[..i] :: x in m) && now == ChoosePath(m, was, path[..i])
  }

  lemma {:induction false} ReplacedKeyed(items: seq<Linked>, rows: seq<Handle>, byId: map<Id, Handle>, heap: Heap)
    requires DistinctIds(items) && |rows| == |items|
    requires forall i | 0 <= i < |items| :: rows[i] in heap && heap[rows[i]] == Wrapper(items[i].id, items[i])
    requires forall i | 0 <= i < |items| :: items[i].id in byId && byId[items[i].id] == rows[i]
    requires forall k | k in byId :: exists j :: 0 <= j < |items| && items[j].id == k
    ensures Keyed(rows, byId, heap)
  {
    forall i, j | 0 <= i < j < |rows| ensures rows[i] != rows[j] {
      assert items[i].id != items[j].id;
    }
    forall k | k in byId ensures byId[k] in rows && Indexed(byId, heap, k) {
      var j :| 0 <= j < |items| && items[j].id == k;
      assert byId[k] == rows[j];
    }
  }

  // ---------------------------------------------------------------- what the items hold

  /** The item is a live wrapper, under the id of its value. */
  ghost predicate Listed(byId: map<Id, Handle>, heap: Heap, h: Handle) {
    h in heap && heap[h].id == heap[h].value.id && heap[h].id in byId && byId[heap[h].id] == h
  }

  ghost predicate Indexed(byId: map<Id, Handle>, heap: Heap, k: Id)
    requires k in byId
  {
    byId[k] in heap && heap[byId[k]].id == k && heap[byId[k]].value.id == k
  }

  ghost predicate NoRepeat(rows: seq<Handle>) {
    forall i, j | 0 <= i < j < |rows| :: rows[i] != rows[j]
  }

  /** The list and the index hold the same items, each once, under its own id. */
  ghost predicate Keyed(rows: seq<Handle>, byId: map<Id, Handle>, heap: Heap) {
    && NoRepeat(rows)
    && (forall h | h in rows :: Listed(byId, heap, h))
    && (forall k | k in byId :: byId[k] in rows && Indexed(byId, heap, k))
  }

  ghost predicate AllIndexed(byId: map<Id, Handle>, heap: Heap) {
    forall k | k in byId :: Indexed(byId, heap, k)
  }

  function Nodes(byId: map<Id, Handle>, heap: Heap): Forest
    requires AllIndexed(byId, heap)
  {
    map k | k in byId :: assert Indexed(byId, heap, k); heap[byId[k]].value.row
  }

  function Chosen(byId: map<Id, Handle>, heap: Heap): set<Id>
    requires AllIndexed(byId, heap)
  {
    set k | k in byId && (assert Indexed(byId, heap, k); heap[byId[k]].value.isChosen)
  }

  lemma {:induction false} HoldItems(items: seq<Linked>, byId: map<Id, Handle>, heap: Heap)
    requires DistinctIds(items) && AllIndexed(byId, heap)
    requires forall i | 0 <= i < |items| :: items[i].id in byId && heap[byId[items[i].id]].value == items[i]
    requires forall k | k in byId :: exists j :: 0 <= j < |items| && items[j].id == k
    ensures Nodes(byId, heap) == NodesOf(items) && Chosen(byId, heap) == ChosenOf(items)
  {
    NodesAt(items);
    var n, c := Nodes(byId, heap), Chosen(byId, heap);
    forall k ensures k in n <==> k in NodesOf(items) {
    }
    forall k | k in n ensures n[k] == NodesOf(items)[k] {
      var j :| 0 <= j < |items| && items[j].id == k;
    }
    forall k ensures k in c <==> k in ChosenOf(items) {
      if k in c {
        var j :| 0 <= j < |items| && items[j].id == k;
      }
    }
  }

  /** One more item, under a new id. */
  lemma {:induction false} HoldOneMore(rows: seq<Handle>, byId: map<Id, Handle>, heap: Heap, h: Handle, v: Linked)
    requires Keyed(rows, byId, heap) && h !in heap && v.id !in byId
    ensures Keyed(rows + [h], byId[v.id := h], heap[h := Wrapper(v.id, v)])
    ensures Nodes(byId[v.id := h], heap[h := Wrapper(v.id, v)]) == Nodes(byId, heap)[v.id := v.row]
    ensures Chosen(byId[v.id := h], heap[h := Wrapper(v.id, v)]) == Flagged(Chosen(byId, heap), v.id, v.isChosen)
  {
    var byId', heap', rows' := byId[v.id := h], heap[h := Wrapper(v.id, v)], rows + [h];
    assert h !in rows by { assert h in rows ==> Listed(byId, heap, h); }
    forall x | x in rows' ensures Listed(byId', heap', x) {
      assert x in rows ==> Listed(byId, heap, x);
    }
    forall k | k in byId' ensures byId'[k] in rows' && Indexed(byId', heap', k) {
      assert k in byId ==> Indexed(byId, heap, k);
    }
    assert NoRepeat(rows');
    assert Nodes(byId', heap') == Nodes(byId, heap)[v.id := v.row];
  }

  /** The item of one id takes another value, perhaps under another id. */
  lemma {:induction false} RekeyedKeyed(rows: seq<Handle>, byId: map<Id, Handle>, heap: Heap, id: Id, v: Linked)
    requires Keyed(rows, byId, heap) && id in byId && (v.id == id || v.id !in byId)
    ensures Keyed(rows, (byId - {id})[v.id := byId[id]], heap[byId[id] := Wrapper(v.id, v)])
  {
    var h := byId[id];
    var byId', heap' := (byId - {id})[v.id := h], heap[h := Wrapper(v.id, v)];
    assert Indexed(byId, heap, id);
    forall x | x in rows ensures Listed(byId', heap', x) {
      assert Listed(byId, heap, x);
    }
    forall k | k in byId' ensures byId'[k] in rows && Indexed(byId', heap', k) {
      assert k in byId ==> byId[k] in rows && Indexed(byId, heap, k);
    }
  }

  lemma {:induction false} HoldRekeyed(byId: map<Id, Handle>, heap: Heap, id: Id, v: Linked)
    requires AllIndexed(byId, heap) && id in byId && (v.id == id || v.id !in byId)
    ensures AllIndexed((byId - {id})[v.id := byId[id]], heap[byId[id] := Wrapper(v.id, v)])
    ensures Nodes((byId - {id})[v.id := byId[id]], heap[byId[id] := Wrapper(v.id, v)])
              == (Nodes(byId, heap) - {id})[v.id := v.row]
    ensures Chosen((byId - {id})[v.id := byId[id]], heap[byId[id] := Wrapper(v.id, v)])
              == Flagged(Chosen(byId, heap) - {id}, v.id, v.isChosen)
  {
    var h := byId[id];
    var byId', heap' := (byId - {id})[v.id := h], heap[h := Wrapper(v.id, v)];
    assert Indexed(byId, heap, id);
    forall k | k in byId' ensures Indexed(byId', heap', k) {
      assert k in byId ==> Indexed(byId, heap, k);
    }
    assert Nodes(byId', heap') == (Nodes(byId, heap) - {id})[v.id := v.row];
    assert Chosen(byId', heap') == Flagged(Chosen(byId, heap) - {id}, v.id, v.isChosen);
  }

  class ItemCollection {
    var rows: seq<Handle>
    var byId: map<Id, Handle>
    var heap: Heap
    var unused: Handle

    ghost predicate Valid()
      reads this
      ensures Valid() ==> AllIndexed(byId, heap)
    {
      Keyed(rows, byId, heap) && forall h | h in heap :: h < unused
    }

    /** The rows by id, and the ids whose flag is set: what the walks read. */
    function Table(): Forest
      requires Valid()
      reads this
    {
      Nodes(byId, heap)
    }

    function Flags(): set<Id>
      requires Valid()
      reads this
    {
      Chosen(byId, heap)
    }

    lemma {:induction false} FlagsPresent()
      requires Valid()
      ensures Flags() <= Table().Keys
    {
    }

    constructor ()
      ensures Valid() && rows == [] && Table() == map[] && Flags() == {}
    {
      rows, byId, heap, unused := [], map[], map[], 0;
    }

    /** Known ids keep their item and get the new value; the rest of the old items are dropped. */
    method Replace(items: seq<Linked>)
      requires Valid() && DistinctIds(items)
      modifies this
      ensures Valid() && |rows| == |items|
      ensures forall i | 0 <= i < |items| :: rows[i] in heap && heap[rows[i]].value == items[i]
      ensures forall i | 0 <= i < |items| ::
                if items[i].id in old(byId) then rows[i] == old(byId)[items[i].id] else rows[i] !in old(heap)
      ensures Table() == NodesOf(items) && Flags() == ChosenOf(items)
    {
      var nextRows: seq<Handle>, nextById: map<Id, Handle> := [], map[];
      for i := 0 to |items|
        invariant rows == old(rows) && byId == old(byId)
        invariant old(unused) <= unused && forall h | h in heap :: h < unused
        invariant forall k | k in byId :: byId[k] < old(unused)
        invariant forall k | k in byId :: byId[k] in heap && heap[byId[k]].id == k
        invariant |nextRows| == i
        invariant forall j | 0 <= j < i :: nextRows[j] in heap && heap[nextRows[j]] == Wrapper(items[j].id, items[j])
        invariant forall j | 0 <= j < i ::
                    if items[j].id in byId then nextRows[j] == byId[items[j].id] else old(unused) <= nextRows[j]
        invariant forall j | 0 <= j < i :: items[j].id in nextById && nextById[items[j].id] == nextRows[j]
        invariant forall k | k in nextById :: exists j :: 0 <= j < i && items[j].id == k
      {
        var item := items[i];
        var h := unused;
        if item.id in byId {
          h := byId[item.id];
        } else {
          unused := unused + 1;
        }
        heap := heap[h := Wrapper(item.id, item)];
        nextRows := nextRows + [h];
        nextById := nextById[item.id := h];
      }
      rows, byId := nextRows, nextById;
      ReplacedKeyed(items, rows, byId, heap);
      HoldItems(items, byId, heap);
    }

    /** A known id is refused. */
    method Append(item: Linked) returns (ok: bool)
      requires Valid()
      modifies this
      ensures Valid()
      ensures ok <==> item.id !in old(Table())
      ensures !ok ==> rows == old(rows) && Table() == old(Table()) && Flags() == old(Flags())
      ensures ok ==> |rows| == |old(rows)| + 1 && rows[..|old(rows)|] == old(rows)
      ensures ok ==> Table() == old(Table())[item.id := item.row]
      ensures ok ==> Flags() == Flagged(old(Flags()), item.id, item.isChosen)
    {
      if item.id in byId { return false; }
      HoldOneMore(rows, byId, heap, unused, item);
      rows := rows + [unused];
      byId := byId[item.id := unused];
      heap := heap[unused := Wrapper(item.id, item)];
      unused, ok := unused + 1, true;
    }

    /** Gives the item of oldId a new value, under a new id if the value has one. A taken id is an
        error that leaves everything as it was. */
    method ReplaceById(oldId: Id, next: Linked) returns (ok: bool)
      requires Valid()
      modifies this`byId, this`heap
      ensures Valid()
      ensures ok <==> oldId in old(Table()) && (next.id == oldId || next.id !in old(Table()))
      ensures !ok ==> Table() == old(Table()) && Flags() == old(Flags())
      ensures ok ==> oldId in old(byId) && next.id in byId && byId[next.id] == old(byId)[oldId]
      ensures ok ==> Table() == (old(Table()) - {oldId})[next.id := next.row]
      ensures ok ==> Flags() == Flagged(old(Flags()) - {oldId}, next.id, next.isChosen)
    {
      if oldId !in byId { return false; }
      if next.id != oldId && next.id in byId { return false; }
      RekeyedKeyed(rows, byId, heap, oldId, next);
      HoldRekeyed(byId, heap, oldId, next);
      assert Indexed(byId, heap, oldId);
      var h := byId[oldId];
      heap := heap[h := Wrapper(next.id, next)];
      byId := (byId - {oldId})[next.id := h];
      ok := true;
    }

    // -------------------------------------------------------------- choosing

    method SetChosen(id: Id, flag: bool)
      requires Valid() && id in Table()
      modifies this`heap
      ensures Valid()
      ensures Table() == old(Table()) && Flags() == Flagged(old(Flags()), id, flag)
    {
      assert Indexed(byId, heap, id);
      var h := byId[id];
      var v := heap[h].value.(isChosen := flag);
      RekeyedKeyed(rows, byId, heap, id, v);
      HoldRekeyed(byId, heap, id, v);
      assert (byId - {id})[id := h] == byId;
      assert (Table() - {id})[id := v.row] == Table();
      heap := heap[h := Wrapper(id, v)];
    }

    /** Clear the flag of every listed entry but one. */
    method ClearOthers(kids: seq<Id>, e: Id)
      requires Valid() && forall x | x in kids :: x in Table()
      modifies this`heap
      ensures Valid() && Table() == old(Table())
      ensures Flags() == Cleared(old(Flags()), kids, e)
    {
      var i := 0;
      while i < |kids|
        invariant 0 <= i <= |kids| && Valid() && Table() == old(Table())
        invariant forall x :: x in Flags() <==> x in old(Flags()) && (x == e || x !in kids[..i])
      {
        if kids[i] != e { SetChosen(kids[i], false); }
        assert kids[..i + 1] == kids[..i] + [kids[i]];
        i := i + 1;
      }
      assert kids[..|kids|] == kids;
    }

    /** Mark one entry chosen and clear its siblings at the fork. */
    method ChooseEntry(e: Id, ghost m: Forest)
      requires Valid() && Table() == m && Ordered(m) && e in m
      modifies this`heap
      ensures Valid() && Table() == old(Table())
      ensures Flags() == Choose(m, old(Flags()), e)
    {
      var table := Table();
      var kids := ChildEntries(table, table[e].parent);
      ChooseIs(m, Flags(), e, kids);
      SetChosen(e, true);
      ClearOthers(kids, e);
    }

    method ChooseAll(pathIds: seq<Id>, ghost m: Forest, ghost line: seq<Id>)
      requires Valid() && Table() == m && Ordered(m)
      requires OnePerFork(m, line) && Elements(pathIds) == Elements(line)
      modifies this`heap
      ensures Valid() && Table() == old(Table())
      ensures Flags() == ChoosePath(m, old(Flags()), line)
    {
      ghost var was := Flags();
      PathOnePerFork(m, pathIds, line);
      var i := 0;
      while i < |pathIds|
        invariant 0 <= i <= |pathIds| && Valid() && Table() == m
        invariant ChosenUpTo(m, was, pathIds, i, Flags())
      {
        ChooseNext(m, was, pathIds, i, Flags());
        ChooseEntry(pathIds[i], m);
        i := i + 1;
      }
      ChosenAll(m, was, pathIds, line, Flags());
    }

    /** Choose every entry from a leaf up to its root; a leaf from which there is no way up to a root
        changes nothing. */
    method ChoosePathFromLeaf(leaf: Id, ghost m: Forest) returns (ok: bool)
      requires Valid() && Table() == m && Ordered(m)
      modifies this`heap
      ensures Valid() && Table() == old(Table())
      ensures ok <==> Rooted(m, leaf)
      ensures !ok ==> Flags() == old(Flags())
      ensures ok ==> OnePerFork(m, Lineage(m, leaf)) && Flags() == ChoosePath(m, old(Flags()), Lineage(m, leaf))
    {
      var table := Table();
      var pathIds := WalkUp(table, leaf);
      if pathIds.None? { return false; }
      LineageOnePerFork(m, leaf);
      ChooseAll(pathIds.value, m, Lineage(m, leaf));
      ok := true;
    }

    /** Branch switch: choose the line from start down to its leaf. */
    method ChooseBranchLine(start: Id, ghost m: Forest, ghost line: seq<Id>) returns (tip: Id)
      requires Valid() && Table() == m && Ordered(m) && start in m && line == NewestLine(m, start)
      modifies this`heap
      ensures Valid() && Table() == m && OnePerFork(m, line)
      ensures Flags() == ChoosePath(m, old(Flags()), line)
      ensures tip == line[|line| - 1]
    {
      ghost var was := Flags();
      var table := Table();
      NewestLineOnePerFork(m, start);
      tip := start;
      ghost var i := 0;
      while true
        invariant Valid() && Table() == m && OnLine(m, line, i, tip)
        invariant ChosenUpTo(m, was, line, i, Flags())
        decreases |line| - i
      {
        ChooseNext(m, was, line, i, Flags());
        ChooseEntry(tip, m);
        var next := LastChild(table, Some(tip));
        if next.None? {
          LineEnds(m, tip, line, i);
          ChosenAll(m, was, line, line, Flags());
          return;
        }
        LineGoesOn(m, tip, next.value, line, i);
        i := i + 1;
        tip := next.value;
      }
    }
  }

  /** A walk down the newest line has come to its i-th entry. */
  ghost predicate OnLine(m: Forest, line: seq<Id>, i: nat, tip: Id)
    requires Ordered(m)
  {
    i < |line| && tip == line[i] && tip in m && NewestLine(m, tip) == line[i..]
  }

  lemma {:induction false} LineEnds(m: Forest, tip: Id, line: seq<Id>, i: nat)
    requires Ordered(m) && OnLine(m, line, i, tip) && SpineChildren(m, Some(tip)) == {}
    ensures i == |line| - 1
  {
    assert |line[i..]| == 1;
  }

  lemma {:induction false} LineGoesOn(m: Forest, tip: Id, next: Id, line: seq<Id>, i: nat)
    requires Ordered(m) && OnLine(m, line, i, tip) && IsNewest(m, SpineChildren(m, Some(tip)), next)
    ensures OnLine(m, line, i + 1, next)
  {
    NewestLineStep(m, tip, next);
    assert line[i + 1..] == line[i..][1..] == NewestLine(m, next);
    assert line[i..][1] == next;
  }

  lemma {:induction false} PathOnePerFork(m: Forest, q: seq<Id>, line: seq<Id>)
    requires OnePerFork(m, line) && Elements(q) == Elements(line)
    ensures OnePerFork(m, q)
  {
    PrefixOnePerFork(m, q, line, |q|);
    assert q[..|q|] == q;
  }

  lemma {:induction false} ChooseIs(m: Forest, chosen: set<Id>, e: Id, kids: seq<Id>)
    requires e in m && IsIndexOrder(m, SpineChildren(m, m[e].parent), kids)
    ensures Cleared(Flagged(chosen, e, true), kids, e) == Choose(m, chosen, e)
    ensures forall x | x in kids :: x in m
  {
    assert forall x | x in kids :: x in Elements(kids);
  }

  lemma {:induction false} ChooseNext(m: Forest, was: set<Id>, line: seq<Id>, i: nat, now: set<Id>)
    requires OnePerFork(m, line) && i < |line| && ChosenUpTo(m, was, line, i, now)
    ensures line[i] in m && ChosenUpTo(m, was, line, i + 1, Choose(m, now, line[i]))
  {
    PrefixOnePerFork(m, line, line, i + 1);
    assert line[..i + 1] == line[..i] + [line[i]];
    ChooseOneMore(m, was, line[..i], line[i]);
  }

  lemma {:induction false} ChosenAll(m: Forest, was: set<Id>, q: seq<Id>, line: seq<Id>, now: set<Id>)
    requires ChosenUpTo(m, was, q, |q|, now) && Elements(q) == Elements(line) && forall x | x in line :: x in m
    ensures now == ChoosePath(m, was, line)
  {
    assert q[..|q|] == q;
    SamePath(m, was, q, line);
  }
}
