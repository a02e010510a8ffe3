/** Two splits that leave the source conversation with an anchor that is no longer in it. */
module SplitExamples {
  import opened Options
  import opened Entries
  import opened Forest
  import opened Split
  import opened Repo

  function Message(index: int, parent: Option<Id>): Row {
    Row(index, parent, false, UserMessage(""))
  }

  const CHAT: Forest := map[0 := Message(0, None), 1 := Message(1, Some(0))]
  const ROOT_SHOWN := EMPTY.(rows := CHAT, anchor := Some(0))
  const CHILD_SHOWN := EMPTY.(rows := CHAT, anchor := Some(1))

  lemma {:induction false} SubtreeOfChild()
    ensures WellFormed(CHAT) && Lineage(CHAT, 0) == [0] && Lineage(CHAT, 1) == [0, 1] && Moved(CHAT, 1) == {1}
  {
    forall a | a in CHAT ensures RowOk(CHAT, a) {}
    StoredRows(CHAT);
    assert Lineage(CHAT, 0) == [0];
    assert Lineage(CHAT, 1) == [0] + [1];
  }

  /** The split at entry 1 reads the anchor 0; the user then switches to entry 1; the writes leave
      the anchor of the source at entry 1, which has moved away. */
  lemma {:induction false} AnchorRace()
    ensures WellFormed(CHAT) && PlanFor(ROOT_SHOWN, 1, SplitPlan(Some(0), Some(0), [1]))
    ensures SameShape(ROOT_SHOWN.rows, CHILD_SHOWN.rows) && AnchorOk(ROOT_SHOWN) && AnchorOk(CHILD_SHOWN)
    ensures !AnchorOk(SplitSource(CHILD_SHOWN, SplitPlan(Some(0), Some(0), [1])))
  {
    SubtreeOfChild();
    assert Elements([1]) == {1};
    assert IsIndexOrder(CHAT, {1}, [1]);
  }

  // Entry 1 names a parent that is no row, as a message does that was sent under an optimistic row.
  const CUT_OFF := EMPTY.(rows := map[1 := Message(0, Some(0))], anchor := Some(1))

  /** A split at that entry repairs the anchor of the source to the parent, which is not there. */
  lemma {:induction false} AnchorLost()
    ensures WellFormed(CUT_OFF.rows) && AnchorOk(CUT_OFF) && LosesAnchor(CUT_OFF, 1)
    ensures PlanFor(CUT_OFF, 1, SplitPlan(Some(0), Some(1), [1]))
    ensures !AnchorOk(SplitSource(CUT_OFF, SplitPlan(Some(0), Some(1), [1])))
  {
    var m := CUT_OFF.rows;
    forall a | a in m ensures RowOk(m, a) {}
    StoredRows(m);
    assert Lineage(m, 1) == [1];
    assert Moved(m, 1) == {1};
    assert Elements([1]) == {1};
    assert IsIndexOrder(m, {1}, [1]);
  }
}
