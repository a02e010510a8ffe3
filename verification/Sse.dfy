/** The parties of the stream as objects: the cursor mirror, the hub and one stream connection. */
module Sse {
  import opened Options
  import opened Entries
  import opened Stream

  /** The mirror of the database cursor. */
  class StreamCursorService {
    var value: nat

    constructor (stored: nat)
      ensures value == stored
    {
      value := stored;
    }

    function Current(): nat
      reads this
    {
      value
    }

    method Note(seqNo: nat)
      modifies this
      ensures value == Advanced(old(value), seqNo) && value >= old(value) && value >= seqNo
    {
      if seqNo > value { value := seqNo; }
    }
  }

  /** A subscriber of the live tail that holds frames back until the snapshot frame is out. */
  class StreamConnection {
    var snapshotSent: bool
    var buffered: seq<Frame>
    var sent: seq<Frame>

    /** The connection is the one of s, and has sent what is on its way to the client. */
    ghost predicate Matches(s: State)
      reads this
    {
      match s.connection
      case Closed => false
      case Waiting(b) => !snapshotSent && buffered == b && sent == s.channel
      case Ready(_, b) => !snapshotSent && buffered == b && sent == s.channel
      case Live => snapshotSent && buffered == [] && sent == s.channel
    }

    constructor (ghost s: State)
      requires Enabled(s, Subscribe) && s.channel == []
      ensures Matches(Do(s, Subscribe))
    {
      snapshotSent, buffered, sent := false, [], [];
    }

    method Next(msg: Frame, ghost s: State)
      requires Matches(s)
      modifies this
      ensures Matches(Received(s, msg))
    {
      if snapshotSent {
        sent := sent + [msg];
      } else {
        buffered := buffered + [msg];
      }
    }

    /** The snapshot frame, then everything buffered since the subscription, in order. */
    method SendSnapshot(snapshot: Frame, ghost s: State)
      requires Matches(s) && s.connection.Ready? && s.connection.frame == snapshot
      modifies this
      ensures Matches(Do(s, Action.SendSnapshot))
    {
      sent := sent + [snapshot];
      snapshotSent := true;
      for i := 0 to |buffered|
        invariant snapshotSent && buffered == old(buffered)
        invariant sent == old(sent) + [snapshot] + buffered[..i]
      {
        assert buffered[..i + 1] == buffered[..i] + [buffered[i]];
        sent := sent + [buffered[i]];
      }
      assert buffered[..|buffered|] == buffered;
      buffered := [];
    }

    /** The next frame arrives at the client. */
    method Deliver(ghost s: State) returns (f: Frame)
      requires Matches(s) && s.connection.Live? && sent != []
      modifies this`sent
      ensures f == s.channel[0] && Matches(Do(s, Consume))
    {
      f := sent[0];
      sent := sent[1..];
    }
  }

  class SseHubService {
    const cursor: StreamCursorService

    constructor (c: StreamCursorService)
      ensures cursor == c
    {
      cursor := c;
    }

    /** Publishing reads the mirror and hands the frame on in one go. */
    method PublishChatEntryUpsert(entry: Id, version: Version, announces: nat, to: StreamConnection,
                                  ghost o: nat, ghost s: State)
      requires Enabled(s, Publish(o)) && s.ops[o] == Op(entry, announces, Reading(version))
      requires cursor.value == s.mirror && to.Matches(s)
      modifies to
      ensures to.Matches(Do(s, Publish(o)))
    {
      var event := Upsert(entry, version, cursor.Current(), announces);
      to.Next(event, s.(ops := s.ops - {o}));
    }
  }

  /** The gate of the client. */
  class StreamClient {
    var rows: Rows
    var lastSeq: nat

    constructor ()
      ensures rows == map[] && lastSeq == 0
    {
      rows, lastSeq := map[], 0;
    }

    method Apply(f: Frame)
      modifies this
      ensures Client(rows, lastSeq) == Applied(old(Client(rows, lastSeq)), f)
    {
      match f
      case Snapshot(snapshot, watermark) =>
        rows, lastSeq := snapshot, watermark;
      case Upsert(entry, version, stamp, _) =>
        if stamp <= lastSeq { return; }
        rows := rows[entry := version];
    }
  }
}
