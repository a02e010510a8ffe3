/**
 The chat session of the client: the rows, the anchor of the view and the stream watermark, changed
 by every stream event, and the branch that is shown.
 */
module Store {
  import opened Options
  import opened Entries
  import opened Forest
  import opened View
  import opened Walks
  import opened Items
  import opened Tokens
  import opened Repo
  import opened Agreement

  datatype Entry = Entry(id: Id, row: Row)

  datatype PendingMessage = PendingMessage(clientRequestId: nat, text: string)

  /** What a frame of the conversation's stream carries. Frames that only touch the text of a row in
      flight, or nothing, are Passing. */
  datatype Event =
    | Snapshot(entries: seq<Entry>, leaf: Option<Id>, anchor: Option<Id>)
    | ConversationUpdated(anchor: Option<Id>)
    | UserMessageEvent(clientRequestId: Option<nat>, entry: Entry)
    | EntryUpsert(entry: Entry)
    | MessageEnqueued(message: PendingMessage)
    | MessageDequeued(dequeued: nat)
    | Passing

  /** With an anchor that both sides know and a line that can be followed, the spine shown is the
      lineage of the leaf that the server resolves, continued by the optimistic rows below it. */
  ghost predicate ShowsServerLine(m: Forest, chosen: set<Id>, anchor: Option<Id>)
    requires Ordered(m)
  {
    ClientRows(m) && anchor.Some? && anchor.value in StoredPart(m) && Followable(m, anchor.value) ==>
      PathSpine(m, chosen) == ServerLine(m, anchor.value)
  }

  lemma {:induction false} SyncedShows(m: Forest, chosen: set<Id>, anchor: Option<Id>)
    requires Ordered(m)
    ensures ShowsServerLine(m, Synced(m, chosen, anchor), anchor)
  {
    if ClientRows(m) && anchor.Some? && anchor.value in StoredPart(m) && Followable(m, anchor.value) {
      FollowsServer(m, chosen, anchor.value);
    }
  }

  /** A view that shows the server's line shows its anchor. */
  lemma {:induction false} AnchorShown(m: Forest, chosen: set<Id>, a: Id)
    requires Ordered(m) && ShowsServerLine(m, chosen, Some(a))
    requires ClientRows(m) && a in StoredPart(m) && Followable(m, a)
    ensures a in PathSpine(m, chosen)
  {
    ServerLineIs(m, a);
    var l := Lineage(StoredPart(m), a);
    assert l[|l| - 1] == a && a in l;
  }

  // ---------------------------------------------------------------- pending messages

  predicate Queued(q: seq<PendingMessage>, clientRequestId: nat) {
    exists p :: p in q && p.clientRequestId == clientRequestId
  }

  function Without(q: seq<PendingMessage>, clientRequestId: nat): seq<PendingMessage> {
    if q == [] then []
    else Without(q[..|q| - 1], clientRequestId)
         + (if q[|q| - 1].clientRequestId == clientRequestId then [] else [q[|q| - 1]])
  }

  /** Exactly the messages of the request are taken out. */
  lemma {:induction false} WithoutIs(q: seq<PendingMessage>, clientRequestId: nat, p: PendingMessage)
    ensures p in Without(q, clientRequestId) <==> p in q && p.clientRequestId != clientRequestId
    decreases |q|
  {
    if q != [] {
      assert q == q[..|q| - 1] + [q[|q| - 1]];
      WithoutIs(q[..|q| - 1], clientRequestId, p);
    }
  }

  /** What is kept stays in order. */
  lemma {:induction false} WithoutJoin(q: seq<PendingMessage>, r: seq<PendingMessage>, clientRequestId: nat)
    ensures Without(q + r, clientRequestId) == Without(q, clientRequestId) + Without(r, clientRequestId)
    ensures (forall p | p in q :: p.clientRequestId != clientRequestId) ==> Without(q, clientRequestId) == q
    decreases |q| + |r|
  {
    if r == [] {
      assert q + r == q;
      if q != [] {
        assert q == q[..|q| - 1] + [q[|q| - 1]];
        WithoutJoin(q[..|q| - 1], [], clientRequestId);
      }
    } else {
      assert (q + r)[..|q + r| - 1] == q + r[..|r| - 1];
      WithoutJoin(q, r[..|r| - 1], clientRequestId);
    }
  }

  function PendingAfter(q: seq<PendingMessage>, ev: Event): seq<PendingMessage> {
    match ev
    case MessageEnqueued(m) => if Queued(q, m.clientRequestId) then q else q + [m]
    case MessageDequeued(rid) => Without(q, rid)
    case _ => q
  }

  /** The ids of optimistic rows that still wait for their message. */
  function OptimisticAfter(optimistic: map<nat, Id>, ev: Event): map<nat, Id> {
    if ev.UserMessageEvent? && ev.clientRequestId.Some? then optimistic - {ev.clientRequestId.value} else optimistic
  }

  // ---------------------------------------------------------------- what events do

  function Unchosen(entries: seq<Entry>): (r: seq<Linked>)
    ensures |r| == |entries| && forall i | 0 <= i < |r| :: r[i] == Linked(entries[i].id, entries[i].row, false)
  {
    seq(|entries|, i requires 0 <= i < |entries| => Linked(entries[i].id, entries[i].row, false))
  }

  ghost function Rows(entries: seq<Entry>): Forest {
    NodesOf(Unchosen(entries))
  }

  /** A new entry is added; a known one is left alone. */
  function Added(m: Forest, e: Entry): Forest {
    if e.id in m then m else m[e.id := e.row]
  }

  function Renamed(m: Forest, id: Id, e: Entry): Forest {
    (m - {id})[e.id := e.row]
  }

  /** The flags after a row has taken another id: a chosen row stays chosen, alone at its fork. */
  ghost function FlagsRenamed(m: Forest, chosen: set<Id>, oldId: Id, id: Id): set<Id>
    requires id in m
  {
    if oldId in chosen then Choose(m, chosen - {oldId} + {id}, id) else chosen - {oldId} - {id}
  }

  /** The new id is chosen just if the old one was; other rows keep their flags, except that the spine
      siblings of a chosen row lose them. */
  lemma {:induction false} RenamedFlags(m: Forest, chosen: set<Id>, oldId: Id, id: Id, x: Id)
    requires id in m && x != oldId
    ensures x in FlagsRenamed(m, chosen, oldId, id) <==>
            if x == id then oldId in chosen
            else x in chosen && !(oldId in chosen && x in SpineChildren(m, m[id].parent))
  {
  }

  /** The flags that a snapshot starts from: the branch of the given leaf, else of the newest line. */
  ghost function SnapshotFlags(m: Forest, leaf: Option<Id>): set<Id>
    requires Ordered(m)
  {
    if leaf.Some? && Rooted(m, leaf.value) then
      LineageOnePerFork(m, leaf.value);
      ChoosePath(m, {}, Lineage(m, leaf.value))
    else Synced(m, {}, None)
  }

  /** The optimistic row that an event of this client's own message replaces. */
  function Optimistic(optimistic: map<nat, Id>, clientRequestId: Option<nat>): Option<Id> {
    if clientRequestId.Some? && clientRequestId.value in optimistic then Some(optimistic[clientRequestId.value]) else None
  }

  function AfterMessage(m: Forest, id: Option<Id>, e: Entry): Forest {
    if id.Some? && id.value in m then Renamed(m, id.value, e) else Added(m, e)
  }

  predicate MovesAnchor(p: Payload) {
    p.CheckpointSummary? || (p.Thought? && p.kind == Summarize)
  }

  ghost function TableAfter(m: Forest, ev: Event, optimistic: map<nat, Id>): Forest {
    match ev
    case Snapshot(entries, _, _) => Rows(entries)
    case UserMessageEvent(rid, e) => AfterMessage(m, Optimistic(optimistic, rid), e)
    case EntryUpsert(e) => m[e.id := e.row]
    case _ => m
  }

  function AnchorAfter(anchor: Option<Id>, ev: Event): Option<Id> {
    match ev
    case Snapshot(_, _, a) => if a.Some? then a else anchor
    case ConversationUpdated(a) => if a.Some? then a else anchor
    case UserMessageEvent(_, e) => if e.row.payload.UserMessage? then Some(e.id) else anchor
    case EntryUpsert(e) => if MovesAnchor(e.row.payload) then Some(e.id) else anchor
    case _ => anchor
  }

  /** What a frame with stamp seq_ that is handled does to rows, anchor, watermark and the optimistic
      rows that wait. */
  ghost predicate Handled(ev: Event, seq_: nat, m: Forest, n: Forest, anchor: Option<Id>, anchor': Option<Id>,
                          last: nat, last': nat, optimistic: map<nat, Id>, rest: map<nat, Id>)
  {
    && (if ev.Snapshot? then last' == seq_ else last' == last)
    && rest == (if ev.UserMessageEvent? && ev.clientRequestId.Some? then optimistic - {ev.clientRequestId.value} else optimistic)
    && match ev
       case Snapshot(entries, _, a) =>
         && (forall i | 0 <= i < |entries| :: entries[i].id in n && n[entries[i].id] == entries[i].row)
         && (forall k | k in n :: exists i :: 0 <= i < |entries| && entries[i].id == k)
         && anchor' == (if a.Some? then a else anchor)
       case ConversationUpdated(a) => n == m && anchor' == (if a.Some? then a else anchor)
       case UserMessageEvent(rid, e) =>
         && e.id in n && (e.id !in m || (rid.Some? && rid.value in optimistic && optimistic[rid.value] == e.id) ==> n[e.id] == e.row)
         && (if rid.Some? && rid.value in optimistic && optimistic[rid.value] in m
             then n == m[e.id := e.row] - ({optimistic[rid.value]} - {e.id})
             else n == if e.id in m then m else m[e.id := e.row])
         && anchor' == (if e.row.payload.UserMessage? then Some(e.id) else anchor)
       case EntryUpsert(e) =>
         && n == m[e.id := e.row]
         && anchor' == (if e.row.payload.CheckpointSummary? || (e.row.payload.Thought? && e.row.payload.kind == Summarize)
                        then Some(e.id) else anchor)
       case _ => n == m && anchor' == anchor
  }

  lemma {:induction false} HandledBy(ev: Event, seq_: nat, m: Forest, n: Forest, anchor: Option<Id>, anchor': Option<Id>,
                                     last: nat, last': nat, optimistic: map<nat, Id>, rest: map<nat, Id>)
    requires ev.Snapshot? ==> DistinctIds(Unchosen(ev.entries))
    requires n == TableAfter(m, ev, optimistic) && anchor' == AnchorAfter(anchor, ev) && !Collides(m, ev, optimistic)
    requires last' == (if ev.Snapshot? then seq_ else last) && rest == OptimisticAfter(optimistic, ev)
    ensures Handled(ev, seq_, m, n, anchor, anchor', last, last', optimistic, rest)
  {
    if ev.Snapshot? {
      var items := Unchosen(ev.entries);
      NodesAt(items);
      forall k | k in n ensures exists i :: 0 <= i < |ev.entries| && ev.entries[i].id == k {
        var i :| 0 <= i < |items| && items[i].id == k;
        assert ev.entries[i].id == k;
      }
      forall i | 0 <= i < |ev.entries| ensures ev.entries[i].id in n && n[ev.entries[i].id] == ev.entries[i].row {
        assert items[i].id in NodesOf(items);
      }
    }
  }

  /** How the list of waiting messages changes. */
  ghost predicate PendingMoves(ev: Event, q: seq<PendingMessage>, r: seq<PendingMessage>) {
    match ev
    case MessageEnqueued(m) =>
      if exists i :: 0 <= i < |q| && q[i].clientRequestId == m.clientRequestId then r == q else r == q + [m]
    case MessageDequeued(rid) => r == Without(q, rid)
    case _ => r == q
  }

  lemma {:induction false} PendingMovesOn(ev: Event, q: seq<PendingMessage>)
    ensures PendingMoves(ev, q, PendingAfter(q, ev))
  {
    if ev.MessageEnqueued? {
      if p :| p in q && p.clientRequestId == ev.message.clientRequestId {
        var i :| 0 <= i < |q| && q[i] == p;
        assert q[i].clientRequestId == ev.message.clientRequestId;
      }
    }
  }

  /** The row keeps its place in the forest. */
  ghost predicate SamePlace(m: Forest, e: Entry) {
    e.id in m ==> m[e.id].parent == e.row.parent && m[e.id].isSide == e.row.isSide
  }

  /** What the server guarantees of its frames: the rows stay well formed, and an entry that is
      sent again is where it was. */
  ghost predicate Delivers(m: Forest, ev: Event, optimistic: map<nat, Id>) {
    && Ordered(TableAfter(m, ev, optimistic))
    && (ev.Snapshot? ==> DistinctIds(Unchosen(ev.entries)))
    && (ev.EntryUpsert? ==> SamePlace(m, ev.entry))
  }

  /** A message that changes the rows, or moves the anchor. */
  predicate Arrives(m: Forest, optimistic: Option<Id>, e: Entry) {
    e.row.payload.UserMessage? || (optimistic.Some? && optimistic.value in m) || e.id !in m
  }

  /** The events after which the view follows its anchor again. */
  predicate Follows(m: Forest, ev: Event, optimistic: map<nat, Id>) {
    match ev
    case Snapshot(_, _, _) => true
    case ConversationUpdated(a) => a.Some?
    case EntryUpsert(_) => true
    case UserMessageEvent(rid, e) => Arrives(m, Optimistic(optimistic, rid), e)
    case _ => false
  }

  /** A message that comes back under an id that another row already has. */
  predicate Collides(m: Forest, ev: Event, optimistic: map<nat, Id>) {
    ev.UserMessageEvent? &&
    var id := Optimistic(optimistic, ev.clientRequestId);
    id.Some? && id.value in m && ev.entry.id != id.value && ev.entry.id in m
  }

  /** A snapshot that throws: its leaf has an unknown parent above it, or it has rows, but neither
      the leaf nor a spine root. */
  ghost predicate Unrooted(ev: Event)
    requires ev.Snapshot? ==> Ordered(Rows(ev.entries))
  {
    ev.Snapshot? &&
    var m := Rows(ev.entries);
    if ev.leaf.Some? && ev.leaf.value in m then !Rooted(m, ev.leaf.value)
    else ev.entries != [] && SpineChildren(m, None) == {}
  }

  class ChatSessionStore {
    const rows: ItemCollection
    var viewAnchorId: Option<Id>
    var lastSeq: nat
    var pending: seq<PendingMessage>

    /** At most one spine sibling is chosen at each fork. */
    ghost predicate Valid()
      reads this, rows
    {
      rows.Valid() && Ordered(rows.Table()) && OneChosen(rows.Table(), rows.Flags())
    }

    ghost predicate ShowsServer()
      requires Valid()
      reads this, rows
    {
      ShowsServerLine(rows.Table(), rows.Flags(), viewAnchorId)
    }

    constructor ()
      ensures Valid() && fresh(rows) && rows.Table() == map[] && viewAnchorId == None && lastSeq == 0 && pending == []
    {
      rows := new ItemCollection();
      viewAnchorId, lastSeq, pending := None, 0, [];
      new;
      StoredRows(rows.Table());
    }

    method SyncViewPathFromAnchor(ghost m: Forest)
      requires Valid() && rows.Table() == m
      modifies rows`heap
      ensures Valid() && rows.Table() == m && rows.Flags() == Synced(m, old(rows.Flags()), viewAnchorId)
      ensures ShowsServer()
    {
      ghost var chosen := rows.Flags();
      var table := rows.Table();
      var tip := ResolveViewTipFromAnchor(table, viewAnchorId);
      if tip.Some? {
        var ok := rows.ChoosePathFromLeaf(tip.value, m);
      }
      SyncKeepsOne(m, chosen, viewAnchorId);
      SyncedShows(m, chosen, viewAnchorId);
    }

    method SetViewAnchor(anchor: Option<Id>)
      requires Valid()
      modifies this`viewAnchorId, rows`heap
      ensures Valid() && ShowsServer()
      ensures viewAnchorId == anchor && rows.Table() == old(rows.Table())
      ensures rows.Flags() == Synced(rows.Table(), old(rows.Flags()), anchor)
    {
      viewAnchorId := anchor;
      SyncViewPathFromAnchor(rows.Table());
    }

    method Append(e: Entry) returns (ok: bool)
      requires Valid() && Ordered(Added(rows.Table(), e))
      modifies rows
      ensures Valid() && rows.Table() == Added(old(rows.Table()), e)
      ensures ok <==> e.id !in old(rows.Table())
      ensures ok ==> ShowsServer()
      ensures rows.Flags() == if ok then Synced(rows.Table(), Flagged(old(rows.Flags()), e.id, false), viewAnchorId)
                              else old(rows.Flags())
    {
      ghost var m, chosen := rows.Table(), rows.Flags();
      ok := rows.Append(Linked(e.id, e.row, false));
      if ok {
        UnflaggedKeepsOne(m, chosen, e);
        SyncViewPathFromAnchor(m[e.id := e.row]);
      }
    }

    /** The optimistic row takes the entry's id and value. None: the id is taken, an error. */
    method Rekey(oldId: Id, next: Entry) returns (ok: Option<bool>)
      requires Valid()
      requires oldId in rows.Table() ==> Ordered(Renamed(rows.Table(), oldId, next))
      modifies rows
      ensures Valid()
      ensures ok == if oldId !in old(rows.Table()) then Some(false)
                    else if next.id != oldId && next.id in old(rows.Table()) then None else Some(true)
      ensures ok == Some(true) ==> rows.Table() == Renamed(old(rows.Table()), oldId, next) && ShowsServer()
      ensures ok == Some(true) ==>
                rows.Flags() == Synced(rows.Table(), FlagsRenamed(rows.Table(), old(rows.Flags()), oldId, next.id), viewAnchorId)
      ensures ok != Some(true) ==> rows.Table() == old(rows.Table()) && rows.Flags() == old(rows.Flags())
    {
      ghost var m, chosen := rows.Table(), rows.Flags();
      var table, flags := rows.Table(), rows.Flags();
      if oldId !in table { return Some(false); }
      var wasChosen := oldId in flags;
      var done := rows.ReplaceById(oldId, Linked(next.id, next.row, wasChosen));
      if !done { return None; }
      if wasChosen {
        rows.ChooseEntry(next.id, Renamed(m, oldId, next));
      }
      RenamedKeepsOne(m, chosen, oldId, next);
      SyncViewPathFromAnchor(Renamed(m, oldId, next));
      return Some(true);
    }

    method Upsert(e: Entry)
      requires Valid() && Ordered(rows.Table()[e.id := e.row]) && SamePlace(rows.Table(), e)
      modifies rows
      ensures Valid() && rows.Table() == old(rows.Table())[e.id := e.row] && ShowsServer()
      ensures rows.Flags() == Synced(rows.Table(), old(rows.Flags()), viewAnchorId)
    {
      ghost var m, chosen := rows.Table(), rows.Flags();
      var table, flags := rows.Table(), rows.Flags();
      if e.id in table {
        var ok := rows.ReplaceById(e.id, Linked(e.id, e.row, e.id in flags));
        PatchedKeepsOne(m, chosen, e);
        SyncViewPathFromAnchor(m[e.id := e.row]);
      } else {
        rows.FlagsPresent();
        assert Flagged(chosen, e.id, false) == chosen;
        var ok := Append(e);
      }
    }

    /** The branch switch of the user. None: the entry is unknown. */
    method ChooseBranchLine(start: Id) returns (tip: Option<Id>)
      requires Valid()
      modifies rows`heap
      ensures Valid() && rows.Table() == old(rows.Table())
      ensures tip.Some? <==> start in rows.Table()
      ensures tip.None? ==> rows.Flags() == old(rows.Flags())
      ensures tip.Some? ==> Switched(rows.Table(), old(rows.Flags()), start, rows.Flags(), tip.value)
    {
      ghost var m, chosen := rows.Table(), rows.Flags();
      if start !in rows.Table() { return None; }
      var z := rows.ChooseBranchLine(start, m, NewestLine(m, start));
      ChoosePathKeepsOne(m, chosen, NewestLine(m, start));
      SwitchResult(m, chosen, start);
      return Some(z);
    }

    /** The snapshot's rows with the branch of a leaf chosen. None: there are rows but no root. */
    method ToLinkedEntries(entries: seq<Entry>, leaf: Option<Id>) returns (linked: Option<seq<Linked>>)
      requires DistinctIds(Unchosen(entries)) && Ordered(Rows(entries))
      ensures linked.None? <==> Unrooted(Snapshot(entries, leaf, None))
      ensures linked.Some? ==> DistinctIds(linked.value) && NodesOf(linked.value) == Rows(entries)
      ensures linked.Some? ==> ChosenOf(linked.value) == SnapshotFlags(Rows(entries), leaf)
      ensures linked.Some? ==> OneChosen(Rows(entries), ChosenOf(linked.value))
    {
      var copy := new ItemCollection();
      copy.Replace(Unchosen(entries));
      assert copy.Flags() == {};
      var found := ChooseStart(copy, |entries| > 0, leaf, Rows(entries));
      if !found { return None; }
      var flags := copy.Flags();
      var items := Flagging(entries, flags);
      linked := Some(items);
    }

    /** The branch of the leaf if it is known, else the newest line of the newest root. */
    static method ChooseStart(copy: ItemCollection, any: bool, leaf: Option<Id>, ghost m: Forest) returns (found: bool)
      requires copy.Valid() && copy.Table() == m && Ordered(m) && copy.Flags() == {} && (!any ==> m == map[])
      modifies copy`heap
      ensures copy.Valid() && copy.Table() == m && OneChosen(m, copy.Flags())
      ensures found <==> if leaf.Some? && leaf.value in m then Rooted(m, leaf.value) else any ==> SpineChildren(m, None) != {}
      ensures found ==> copy.Flags() == SnapshotFlags(m, leaf)
    {
      var table := copy.Table();
      if leaf.Some? && leaf.value in table {
        found := ChooseFrom(copy, leaf.value, m);
      } else if any {
        var root := LastChild(table, None);
        if root.None? { return false; }
        var z := WalkToLatestLeaf(table, root.value);
        FromNewestRoot(m, root.value);
        found := ChooseFrom(copy, z, m);
      } else {
        FromNothing(m);
        found := true;
      }
    }

    static method Flagging(entries: seq<Entry>, flags: set<Id>) returns (linked: seq<Linked>)
      requires DistinctIds(Unchosen(entries)) && forall x | x in flags :: x in Rows(entries)
      ensures DistinctIds(linked) && NodesOf(linked) == Rows(entries) && ChosenOf(linked) == flags
    {
      linked := seq(|entries|, i requires 0 <= i < |entries| =>
                      Linked(entries[i].id, entries[i].row, entries[i].id in flags));
      SameRows(linked, Unchosen(entries));
      assert forall i | 0 <= i < |linked| :: linked[i].id == Unchosen(entries)[i].id;
      ChosenBack(linked, flags);
    }

    static method ChooseFrom(copy: ItemCollection, leaf: Id, ghost m: Forest) returns (found: bool)
      requires copy.Valid() && copy.Table() == m && Ordered(m) && copy.Flags() == {}
      modifies copy`heap
      ensures copy.Valid() && copy.Table() == m && OneChosen(m, copy.Flags())
      ensures found <==> Rooted(m, leaf)
      ensures found ==> OnePerFork(m, Lineage(m, leaf)) && copy.Flags() == ChoosePath(m, {}, Lineage(m, leaf))
    {
      found := copy.ChoosePathFromLeaf(leaf, m);
      if found { ChoosePathKeepsOne(m, {}, Lineage(m, leaf)); }
    }

    method Replace(entries: seq<Entry>, leaf: Option<Id>, anchor: Option<Id>) returns (ok: bool)
      requires Valid() && DistinctIds(Unchosen(entries)) && Ordered(Rows(entries))
      modifies this`viewAnchorId, rows
      ensures Valid() && (ok <==> !Unrooted(Snapshot(entries, leaf, anchor)))
      ensures !ok ==> rows.Table() == old(rows.Table()) && rows.Flags() == old(rows.Flags()) && viewAnchorId == old(viewAnchorId)
      ensures ok ==> rows.Table() == Rows(entries) && ShowsServer()
      ensures ok ==> rows.Flags() == Synced(Rows(entries), SnapshotFlags(Rows(entries), leaf), viewAnchorId)
      ensures ok ==> viewAnchorId == if anchor.Some? then anchor else old(viewAnchorId)
    {
      var linked := ToLinkedEntries(entries, leaf);
      if linked.None? { return false; }
      TakeLinked(linked.value, anchor, Rows(entries), SnapshotFlags(Rows(entries), leaf));
      ok := true;
    }

    method TakeLinked(linked: seq<Linked>, anchor: Option<Id>, ghost m: Forest, ghost chosen: set<Id>)
      requires Valid() && DistinctIds(linked) && NodesOf(linked) == m && ChosenOf(linked) == chosen
      requires Ordered(m) && OneChosen(m, chosen)
      modifies this`viewAnchorId, rows
      ensures Valid() && ShowsServer()
      ensures rows.Table() == m && rows.Flags() == Synced(m, chosen, viewAnchorId)
      ensures viewAnchorId == if anchor.Some? then anchor else old(viewAnchorId)
    {
      rows.Replace(linked);
      if anchor.Some? { viewAnchorId := anchor; }
      SyncViewPathFromAnchor(m);
    }

    /** One frame. A frame at or below the watermark is dropped, unless it is a snapshot. A frame
        whose handling throws leaves rows, anchor and watermark as they were. After a frame that
        changed rows or anchor the view shows the server's line, and after an upsert that moved the
        anchor it runs through the entry, wherever the anchor was. */
    method ApplySseEvent(seq_: nat, ev: Event, optimistic: map<nat, Id>) returns (ok: bool, rest: map<nat, Id>)
      requires Valid()
      requires ev.Snapshot? || seq_ > lastSeq ==> Delivers(rows.Table(), ev, optimistic)
      modifies this`viewAnchorId, this`lastSeq, this`pending, rows
      ensures Valid()
      ensures !ev.Snapshot? && seq_ <= old(lastSeq) ==> Untouched(old(rows.Table()), old(rows.Flags()), old(viewAnchorId), old(lastSeq))
      ensures !ev.Snapshot? && seq_ <= old(lastSeq) ==> pending == old(pending) && ok && rest == optimistic
      ensures ev.Snapshot? || seq_ > old(lastSeq) ==> (!ok <==> Collides(old(rows.Table()), ev, optimistic) || Unrooted(ev))
      ensures !ok ==> Untouched(old(rows.Table()), old(rows.Flags()), old(viewAnchorId), old(lastSeq))
      ensures ev.Snapshot? || seq_ > old(lastSeq) ==> PendingMoves(ev, old(pending), pending)
      ensures ok && (ev.Snapshot? || seq_ > old(lastSeq)) ==>
                Handled(ev, seq_, old(rows.Table()), rows.Table(), old(viewAnchorId), viewAnchorId, old(lastSeq), lastSeq, optimistic, rest)
      ensures ok && (ev.Snapshot? || seq_ > old(lastSeq))
              && (ev.Snapshot? || ev.EntryUpsert? || old(ShowsServer()) || Moved(old(rows.Table()), old(viewAnchorId))) ==>
                ShowsServer()
      ensures ok && seq_ > old(lastSeq) && ev.EntryUpsert? && viewAnchorId == Some(ev.entry.id) ==> Reaches(ev.entry.id)
    {
      if !ev.Snapshot? && seq_ <= lastSeq { return true, optimistic; }
      ghost var m, anchor, last, waiting := rows.Table(), viewAnchorId, lastSeq, pending;
      ok, rest := HandleEvent(seq_, ev, optimistic);
      PendingMovesOn(ev, waiting);
      if ok {
        HandledBy(ev, seq_, m, rows.Table(), anchor, viewAnchorId, last, lastSeq, optimistic, rest);
        if viewAnchorId.Some? && ShowsServer() { Reached(viewAnchorId.value); }
      }
    }

    /** The rows or the anchor are no longer those. */
    ghost predicate Moved(m: Forest, anchor: Option<Id>)
      requires rows.Valid()
      reads this, rows
    {
      rows.Table() != m || viewAnchorId != anchor
    }

    /** What a frame that has passed the gate did, from rows m on. A failed one left all as it was. */
    ghost predicate Did(seq_: nat, ev: Event, optimistic: map<nat, Id>, m: Forest, chosen: set<Id>, anchor: Option<Id>,
                        last: nat, ok: bool)
      requires Valid() && (ev.Snapshot? ==> Ordered(Rows(ev.entries)))
      reads this, rows
    {
      && (!ok <==> Collides(m, ev, optimistic) || Unrooted(ev))
      && (if ok then
            && rows.Table() == TableAfter(m, ev, optimistic)
            && viewAnchorId == AnchorAfter(anchor, ev)
            && lastSeq == (if ev.Snapshot? then seq_ else last)
            && (if Follows(m, ev, optimistic) then ShowsServer() else rows.Flags() == chosen)
          else Untouched(m, chosen, anchor, last))
    }

    /** A frame that has passed the gate. */
    method HandleEvent(seq_: nat, ev: Event, optimistic: map<nat, Id>) returns (ok: bool, rest: map<nat, Id>)
      requires Valid() && Delivers(rows.Table(), ev, optimistic)
      modifies this`viewAnchorId, this`lastSeq, this`pending, rows
      ensures Valid() && Did(seq_, ev, optimistic, old(rows.Table()), old(rows.Flags()), old(viewAnchorId), old(lastSeq), ok)
      ensures pending == PendingAfter(old(pending), ev) && rest == OptimisticAfter(optimistic, ev)
    {
      rest := Answered(ev, optimistic);
      if ev.MessageEnqueued? || ev.MessageDequeued? || ev.Passing? {
        ok := OnPending(seq_, ev, optimistic);
      } else {
        ok := OnRows(seq_, ev, optimistic);
      }
    }

    /** An own message that has come back is waited for no more. */
    static method Answered(ev: Event, optimistic: map<nat, Id>) returns (rest: map<nat, Id>)
      ensures rest == OptimisticAfter(optimistic, ev)
    {
      rest := optimistic;
      if ev.UserMessageEvent? && ev.clientRequestId.Some? && ev.clientRequestId.value in optimistic {
        rest := optimistic - {ev.clientRequestId.value};
      }
    }

    method OnRows(seq_: nat, ev: Event, optimistic: map<nat, Id>) returns (ok: bool)
      requires Valid() && Delivers(rows.Table(), ev, optimistic)
      requires ev.Snapshot? || ev.ConversationUpdated? || ev.UserMessageEvent? || ev.EntryUpsert?
      modifies this`viewAnchorId, this`lastSeq, rows
      ensures Valid() && Did(seq_, ev, optimistic, old(rows.Table()), old(rows.Flags()), old(viewAnchorId), old(lastSeq), ok)
    {
      if ev.Snapshot? {
        ok := OnSnapshot(seq_, ev, optimistic);
      } else if ev.UserMessageEvent? {
        ok := OnMessage(seq_, ev, optimistic);
      } else {
        ok := OnEntry(seq_, ev, optimistic);
      }
    }

    method OnSnapshot(seq_: nat, ev: Event, optimistic: map<nat, Id>) returns (ok: bool)
      requires Valid() && ev.Snapshot? && DistinctIds(Unchosen(ev.entries)) && Ordered(Rows(ev.entries))
      modifies this`viewAnchorId, this`lastSeq, rows
      ensures Valid() && Did(seq_, ev, optimistic, old(rows.Table()), old(rows.Flags()), old(viewAnchorId), old(lastSeq), ok)
    {
      ok := Replace(ev.entries, ev.leaf, ev.anchor);
      if ok { lastSeq := seq_; }
    }

    method OnMessage(seq_: nat, ev: Event, optimistic: map<nat, Id>) returns (ok: bool)
      requires Valid() && ev.UserMessageEvent? && Ordered(TableAfter(rows.Table(), ev, optimistic))
      modifies this`viewAnchorId, rows
      ensures Valid() && Did(seq_, ev, optimistic, old(rows.Table()), old(rows.Flags()), old(viewAnchorId), lastSeq, ok)
    {
      ok := TakeMessage(ev.entry, Optimistic(optimistic, ev.clientRequestId));
    }

    method OnEntry(seq_: nat, ev: Event, optimistic: map<nat, Id>) returns (ok: bool)
      requires Valid() && (ev.ConversationUpdated? || ev.EntryUpsert?)
      requires ev.EntryUpsert? ==> Ordered(rows.Table()[ev.entry.id := ev.entry.row]) && SamePlace(rows.Table(), ev.entry)
      modifies this`viewAnchorId, rows
      ensures Valid() && Did(seq_, ev, optimistic, old(rows.Table()), old(rows.Flags()), old(viewAnchorId), lastSeq, ok)
    {
      if ev.EntryUpsert? {
        TakeUpsert(ev.entry);
      } else if ev.anchor.Some? {
        SetViewAnchor(ev.anchor);
      }
      ok := true;
    }

    method OnPending(seq_: nat, ev: Event, optimistic: map<nat, Id>) returns (ok: bool)
      requires Valid() && (ev.MessageEnqueued? || ev.MessageDequeued? || ev.Passing?)
      modifies this`pending
      ensures Valid() && Did(seq_, ev, optimistic, rows.Table(), rows.Flags(), viewAnchorId, lastSeq, ok)
      ensures pending == PendingAfter(old(pending), ev)
    {
      match ev {
      case MessageEnqueued(message) => Enqueue(message);
      case MessageDequeued(rid) => Dequeue(rid);
      case _ =>
      }
      ok := true;
    }

    /** If the line of a can be followed, the shown spine runs through a. */
    ghost predicate Reaches(a: Id)
      requires Valid()
      reads this, rows
    {
      ClientRows(rows.Table()) && a in StoredPart(rows.Table()) && Followable(rows.Table(), a) ==>
        a in PathSpine(rows.Table(), rows.Flags())
    }

    lemma {:induction false} Reached(a: Id)
      requires Valid() && ShowsServer() && viewAnchorId == Some(a)
      ensures Reaches(a)
    {
      if ClientRows(rows.Table()) && a in StoredPart(rows.Table()) && Followable(rows.Table(), a) {
        AnchorShown(rows.Table(), rows.Flags(), a);
      }
    }

    ghost predicate Untouched(m: Forest, chosen: set<Id>, anchor: Option<Id>, seq_: nat)
      requires rows.Valid()
      reads this, rows
    {
      rows.Table() == m && rows.Flags() == chosen && viewAnchorId == anchor && lastSeq == seq_
    }

    method TakeUpsert(e: Entry)
      requires Valid() && Ordered(rows.Table()[e.id := e.row]) && SamePlace(rows.Table(), e)
      modifies this`viewAnchorId, rows
      ensures Valid() && ShowsServer() && rows.Table() == old(rows.Table())[e.id := e.row]
      ensures viewAnchorId == if MovesAnchor(e.row.payload) then Some(e.id) else old(viewAnchorId)
    {
      Upsert(e);
      if MovesAnchor(e.row.payload) { SetViewAnchor(Some(e.id)); }
    }

    method TakeMessage(e: Entry, optimistic: Option<Id>) returns (ok: bool)
      requires Valid() && Ordered(AfterMessage(rows.Table(), optimistic, e))
      modifies this`viewAnchorId, rows
      ensures Valid()
      ensures !ok <==> optimistic.Some? && optimistic.value in old(rows.Table())
                       && e.id != optimistic.value && e.id in old(rows.Table())
      ensures !ok ==> Untouched(old(rows.Table()), old(rows.Flags()), old(viewAnchorId), lastSeq)
      ensures ok ==> rows.Table() == AfterMessage(old(rows.Table()), optimistic, e)
      ensures ok ==> viewAnchorId == if e.row.payload.UserMessage? then Some(e.id) else old(viewAnchorId)
      ensures ok ==> if Arrives(old(rows.Table()), optimistic, e) then ShowsServer() else rows.Flags() == old(rows.Flags())
    {
      if optimistic.Some? {
        var r := Rekey(optimistic.value, e);
        if r.None? { return false; }
        if !r.value { var appended := Append(e); }
      } else {
        var appended := Append(e);
      }
      if e.row.payload.UserMessage? { SetViewAnchor(Some(e.id)); }
      ok := true;
    }

    method Enqueue(message: PendingMessage)
      modifies this`pending
      ensures pending == PendingAfter(old(pending), MessageEnqueued(message))
    {
      var known := false;
      for i := 0 to |pending|
        invariant known <==> exists j :: 0 <= j < i && pending[j].clientRequestId == message.clientRequestId
      {
        if pending[i].clientRequestId == message.clientRequestId { known := true; }
      }
      if !known { pending := pending + [message]; }
    }

    method Dequeue(clientRequestId: nat)
      modifies this`pending
      ensures pending == Without(old(pending), clientRequestId)
    {
      var kept: seq<PendingMessage> := [];
      for i := 0 to |pending|
        invariant kept == Without(pending[..i], clientRequestId)
      {
        assert pending[..i + 1][..i] == pending[..i];
        if pending[i].clientRequestId != clientRequestId { kept := kept + [pending[i]]; }
      }
      assert pending[..|pending|] == pending;
      pending := kept;
    }
  }

  /** The active spine after a branch switch to start: for a root, its newest line; below an entry
      of the path, the path down to that entry and then the newest line. The returned id is the
      leaf of that line and the new tip of the path. */
  ghost predicate Switched(m: Forest, was: set<Id>, start: Id, now: set<Id>, tip: Id)
    requires Ordered(m) && start in m
  {
    var line := NewestLine(m, start);
    && tip == line[|line| - 1] && OnePerFork(m, line) && now == ChoosePath(m, was, line)
    && (!m[start].isSide && m[start].parent == None ==> PathSpine(m, now) == line)
    && (forall k | !m[start].isSide && 0 <= k < |PathSpine(m, was)| && m[start].parent == Some(PathSpine(m, was)[k]) ::
          PathSpine(m, now) == PathSpine(m, was)[..k + 1] + line)
  }

  lemma {:induction false} SwitchResult(m: Forest, chosen: set<Id>, start: Id)
    requires Ordered(m) && start in m
    ensures OnePerFork(m, NewestLine(m, start))
    ensures var line := NewestLine(m, start); Switched(m, chosen, start, ChoosePath(m, chosen, line), line[|line| - 1])
  {
    NewestLineOnePerFork(m, start);
    if !m[start].isSide {
      if m[start].parent == None { SwitchRoot(m, chosen, start); }
      forall k | 0 <= k < |PathSpine(m, chosen)| && m[start].parent == Some(PathSpine(m, chosen)[k])
        ensures PathSpine(m, ChoosePath(m, chosen, NewestLine(m, start)))
                  == PathSpine(m, chosen)[..k + 1] + NewestLine(m, start)
      {
        SwitchBranch(m, chosen, start, k);
      }
    }
  }

  // ---------------------------------------------------------------- a sent message

  /** The frames that follow an optimistic append are handled: the anchor that comes first names a row
      that is not there yet, and the message then takes the place of its optimistic row. */
  lemma {:induction false} MessageFits(m: Forest, optimistic: map<nat, Id>, rid: nat, e: Entry)
    requires ClientRows(m) && rid in optimistic && optimistic[rid] in m && m[optimistic[rid]].index < 0
    requires MayAppend(StoredPart(m), e.id, e.row)
    requires forall a | a in m && a != optimistic[rid] :: a != e.id && m[a].parent != Some(e.id)
    ensures Delivers(m, ConversationUpdated(Some(e.id)), optimistic)
    ensures Delivers(m, UserMessageEvent(Some(rid), e), optimistic)
    ensures !Collides(m, UserMessageEvent(Some(rid), e), optimistic)
    ensures ClientRows(TableAfter(m, UserMessageEvent(Some(rid), e), optimistic))
    ensures StoredPart(TableAfter(m, UserMessageEvent(Some(rid), e), optimistic)) == StoredPart(m)[e.id := e.row]
    ensures optimistic[rid] != e.id ==> optimistic[rid] !in TableAfter(m, UserMessageEvent(Some(rid), e), optimistic)
  {
    RekeyKeeps(m, optimistic[rid], e.id, e.row);
  }

  // ---------------------------------------------------------------- one chosen sibling per fork

  lemma {:induction false} UnflaggedKeepsOne(m: Forest, chosen: set<Id>, e: Entry)
    requires OneChosen(m, chosen) && e.id !in m
    ensures OneChosen(m[e.id := e.row], Flagged(chosen, e.id, false))
  {
  }

  lemma {:induction false} PatchedKeepsOne(m: Forest, chosen: set<Id>, e: Entry)
    requires OneChosen(m, chosen) && e.id in m && SamePlace(m, e)
    ensures OneChosen(m[e.id := e.row], Flagged(chosen - {e.id}, e.id, e.id in chosen))
    ensures Flagged(chosen - {e.id}, e.id, e.id in chosen) == chosen && (m - {e.id})[e.id := e.row] == m[e.id := e.row]
  {
    assert Flagged(chosen - {e.id}, e.id, e.id in chosen) == chosen;
  }

  lemma {:induction false} RenamedKeepsOne(m: Forest, chosen: set<Id>, id: Id, e: Entry)
    requires OneChosen(m, chosen) && id in m
    ensures var now := Flagged(chosen - {id}, e.id, id in chosen);
            OneChosen(Renamed(m, id, e), if id in chosen then Choose(Renamed(m, id, e), now, e.id) else now)
  {
  }

  // ---------------------------------------------------------------- snapshots

  lemma {:induction false} FromNewestRoot(m: Forest, r: Id)
    requires Ordered(m) && IsNewest(m, SpineChildren(m, None), r)
    ensures Rooted(m, NewestLeaf(m, r)) && OnePerFork(m, Lineage(m, NewestLeaf(m, r)))
    ensures Synced(m, {}, None) == ChoosePath(m, {}, Lineage(m, NewestLeaf(m, r)))
  {
    NewestUnique(m, SpineChildren(m, None), r, Newest(m, SpineChildren(m, None)));
    NewestLineFacts(m, r);
    assert Lineage(m, r) == [r];
    LineageOnePerFork(m, NewestLeaf(m, r));
  }

  lemma {:induction false} FromNothing(m: Forest)
    requires Ordered(m)
    ensures m == map[] ==> Synced(m, {}, None) == {}
  {
    if m == map[] { assert SpineChildren(m, None) == {}; }
  }

  /** What a snapshot shows before its anchor is followed: the lineage of its leaf, up to the first side
      entry; and without a known leaf the newest line of the newest root. */
  lemma {:induction false} SnapshotShows(m: Forest, leaf: Option<Id>)
    requires Ordered(m)
    ensures leaf.Some? && Rooted(m, leaf.value) && SpineChildren(m, leaf) == {} && Lead(m, Lineage(m, leaf.value)) > 0 ==>
              PathSpine(m, SnapshotFlags(m, leaf)) == Lineage(m, leaf.value)[..Lead(m, Lineage(m, leaf.value))]
    ensures (leaf.Some? ==> leaf.value !in m) && SpineChildren(m, None) != {} ==>
              PathSpine(m, SnapshotFlags(m, leaf)) == NewestLine(m, Newest(m, SpineChildren(m, None)))
  {
    if leaf.Some? && Rooted(m, leaf.value) {
      if SpineChildren(m, leaf) == {} && Lead(m, Lineage(m, leaf.value)) > 0 { ChosenLineageIsPath(m, {}, leaf.value); }
    } else if SpineChildren(m, None) != {} {
      var r := Newest(m, SpineChildren(m, None));
      FromNewestRoot(m, r);
      OnlyRootShown(m, r);
    }
  }

  lemma {:induction false} OnlyRootShown(m: Forest, r: Id)
    requires Ordered(m) && IsNewest(m, SpineChildren(m, None), r)
    ensures Rooted(m, NewestLeaf(m, r)) && OnePerFork(m, Lineage(m, NewestLeaf(m, r)))
    ensures PathSpine(m, ChoosePath(m, {}, Lineage(m, NewestLeaf(m, r)))) == NewestLine(m, r)
  {
    FromNewestRoot(m, r);
    NewestLineFacts(m, r);
    assert Lineage(m, r) == [r];
    SwitchRoot(m, {}, r);
  }

  lemma {:induction false} SameRows(a: seq<Linked>, b: seq<Linked>)
    requires |a| == |b| && forall i | 0 <= i < |a| :: a[i].id == b[i].id && a[i].row == b[i].row
    ensures NodesOf(a) == NodesOf(b)
    decreases |a|
  {
    if a != [] {
      SameRows(a[..|a| - 1], b[..|b| - 1]);
    }
  }

  lemma {:induction false} ChosenBack(items: seq<Linked>, flags: set<Id>)
    requires DistinctIds(items) && forall i | 0 <= i < |items| :: items[i].isChosen <==> items[i].id in flags
    requires forall x | x in flags :: x in NodesOf(items)
    ensures ChosenOf(items) == flags
  {
    NodesAt(items);
    forall x | x in flags ensures x in ChosenOf(items) {
      var i :| 0 <= i < |items| && items[i].id == x;
    }
  }
}
