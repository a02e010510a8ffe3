/** The causal cursor of a thought: whatever it appends forms one chain under its anchor. */
module Thoughts {
  import opened Options
  import opened Entries
  import opened Forest
  import opened Batches
  import opened Repo

  datatype Call = Call(id: Id, toolId: string, parameters: Params)

  ghost predicate OthersSame(cs: map<ConvId, Conversation>, ds: map<ConvId, Conversation>, c: ConvId) {
    cs.Keys == ds.Keys && forall d | d in cs && d != c :: ds[d] == cs[d]
  }

  class ThoughtContext {
    const conversation: ConvId
    var cursorParentId: Option<Id>

    constructor (c: ConvId, anchor: Option<Id>)
      ensures conversation == c && cursorParentId == anchor
    {
      conversation, cursorParentId := c, anchor;
    }

    /** Appends under the cursor and moves the cursor to what was appended. What the thought appends
        is in its own lane, unless it creates spine entries, as for tool invocations. */
    method AppendAtCursor(repo: ChatEntriesRepo, id: Id, isSide: bool, payload: Payload) returns (index: int)
      requires repo.Valid() && conversation in repo.conversations
      requires Unused(repo.conversations, id) && cursorParentId != Some(id)
      modifies this`cursorParentId, repo
      ensures repo.Valid() && conversation in repo.conversations && cursorParentId == Some(id)
      ensures OthersSame(old(repo.conversations), repo.conversations, conversation)
      ensures var m, n := old(repo.conversations[conversation].rows), repo.conversations[conversation].rows;
              IsNextIndex(m, index) && n == m[id := Row(index, old(cursorParentId), isSide, payload)]
    {
      var seqNo;
      index, seqNo := repo.AppendEntry(conversation, id, cursorParentId, isSide, payload);
      cursorParentId := Some(id);
    }
  }

  /** The payload of a member when it is created. */
  function MemberPayload(call: Call, batch: Batch): Payload {
    ToolInvocation(call.toolId, Resolving, false, call.parameters[STAMP := BatchRef(batch)])
  }

  ghost predicate Distinct(calls: seq<Call>) {
    forall i, j | 0 <= i < j < |calls| :: calls[i].id != calls[j].id
  }

  /** The calls from the k-th on have ids that nothing names yet. */
  ghost predicate RestApart(cs: map<ConvId, Conversation>, cursor: Option<Id>, calls: seq<Call>, k: nat) {
    forall i | k <= i < |calls| :: Unused(cs, calls[i].id) && cursor != Some(calls[i].id)
  }

  lemma {:induction false} RestApartMore(cs: map<ConvId, Conversation>, ds: map<ConvId, Conversation>, c: ConvId,
                                         cursor: Option<Id>, calls: seq<Call>, k: nat, r: Row)
    requires RestApart(cs, cursor, calls, k) && k < |calls| && Distinct(calls) && OthersSame(cs, ds, c) && c in cs
    requires ds[c].rows == cs[c].rows[calls[k].id := r] && r.parent == cursor
    ensures RestApart(ds, Some(calls[k].id), calls, k + 1)
  {
    forall i | k + 1 <= i < |calls| ensures Unused(ds, calls[i].id) && calls[k].id != calls[i].id {
      forall d | d in ds ensures Fresh(ds[d].rows, calls[i].id) {
        assert Fresh(cs[d].rows, calls[i].id);
        assert d != c ==> ds[d] == cs[d];
      }
    }
  }

  function IdsOf(calls: seq<Call>): (ids: seq<Id>)
    ensures |ids| == |calls| && forall i | 0 <= i < |ids| :: ids[i] == calls[i].id
  {
    seq(|calls|, i requires 0 <= i < |calls| => calls[i].id)
  }
}
