/**
 Newline-delimited framing over a byte stream that arrives in arbitrary chunks: one message per
 line, lines that are no message are skipped, and messages wait for a handler.
 */
module Framing {
  import opened Options
  import opened Text

  /** The JSON side: how a message is written, and what a trimmed line is read as. None: not JSON,
      or not a message. */
  datatype Codec<!M> = Codec(stringify: M -> string, parse: string -> Option<M>)

  /** Messages survive the codec, and their text holds no raw newline (section 7 of RFC 8259) and
      no outer white space. */
  ghost predicate Sound<M(!new)>(codec: Codec<M>) {
    forall m: M :: SoundFor(codec, m)
  }

  ghost predicate SoundFor<M>(codec: Codec<M>, m: M) {
    var s := codec.stringify(m);
    s != "" && Trim(s) == s && '\n' !in s && codec.parse(s) == Some(m)
  }

  /** Such codecs exist. */
  lemma {:induction false} SoundCodecExists()
    ensures exists codec: Codec<bool> :: Sound(codec)
  {
    var codec := Codec((b: bool) => if b then "t" else "f", (s: string) => if s == "t" then Some(true) else if s == "f" then Some(false) else None);
    assert Trim("t") == "t" by { assert TrimStart("t") == "t"; }
    assert Trim("f") == "f" by { assert TrimStart("f") == "f"; }
    forall b: bool ensures SoundFor(codec, b) {
      assert codec.stringify(b) == if b then "t" else "f";
    }
    assert Sound(codec);
  }

  // ---------------------------------------------------------------- lines

  /** The complete lines of a text. */
  function Lines(s: string): seq<string> {
    if s == "" then []
    else Lines(s[..|s| - 1]) + (if s[|s| - 1] == '\n' then [Rest(s[..|s| - 1])] else [])
  }

  /** What follows the last newline. */
  function Rest(s: string): string {
    if s == "" then "" else if s[|s| - 1] == '\n' then "" else Rest(s[..|s| - 1]) + [s[|s| - 1]]
  }

  lemma {:induction false} NoLines(s: string)
    requires '\n' !in s
    ensures Lines(s) == [] && Rest(s) == s
    decreases |s|
  {
    if s != "" {
      NotBefore(s);
      NoLines(s[..|s| - 1]);
      LastChar(s);
    }
  }

  lemma {:induction false} NotBefore(s: string)
    requires '\n' !in s && s != ""
    ensures '\n' !in s[..|s| - 1] && s[|s| - 1] != '\n'
  {
  }

  lemma {:induction false} LastChar(s: string)
    requires s != ""
    ensures s[..|s| - 1] + [s[|s| - 1]] == s
  {
  }

  lemma {:induction false} LinesStep(f: string, c: char)
    ensures Lines(f + [c]) == Lines(f) + (if c == '\n' then [Rest(f)] else [])
    ensures Rest(f + [c]) == if c == '\n' then "" else Rest(f) + [c]
  {
    assert (f + [c])[..|f|] == f;
  }

  lemma {:induction false} Regrouped(a: string, b: string, c: string)
    ensures a + (b + c) == (a + b) + c
  {
  }

  lemma {:induction false} RegroupedLines(a: seq<string>, b: seq<string>, c: seq<string>)
    ensures a + (b + c) == (a + b) + c
  {
  }

  /** A text can be read piece by piece: only the unfinished line is carried over. */
  lemma {:induction false} LinesJoin(s: string, t: string)
    ensures Lines(s + t) == Lines(s) + Lines(Rest(s) + t) && Rest(s + t) == Rest(Rest(s) + t)
    decreases |t|
  {
    if t == "" {
      assert s + t == s && Rest(s) + t == Rest(s);
      RestHasNone(s);
      NoLines(Rest(s));
    } else {
      var u, c := t[..|t| - 1], t[|t| - 1];
      LastChar(t);
      LinesJoin(s, u);
      Regrouped(s, u, [c]);
      Regrouped(Rest(s), u, [c]);
      LinesStep(s + u, c);
      LinesStep(Rest(s) + u, c);
      RegroupedLines(Lines(s), Lines(Rest(s) + u), if c == '\n' then [Rest(Rest(s) + u)] else []);
    }
  }

  lemma {:induction false} RestHasNone(s: string)
    ensures '\n' !in Rest(s)
    decreases |s|
  {
    if s != "" && s[|s| - 1] != '\n' { RestHasNone(s[..|s| - 1]); }
  }

  /** The first line of a text comes off its front. */
  lemma {:induction false} FirstLine(s: string, nl: nat)
    requires nl < |s| && s[nl] == '\n' && '\n' !in s[..nl]
    ensures Lines(s) == [s[..nl]] + Lines(s[nl + 1..]) && Rest(s) == Rest(s[nl + 1..])
  {
    var front, back := s[..nl + 1], s[nl + 1..];
    assert s == front + back && front[..|front| - 1] == s[..nl];
    NoLines(s[..nl]);
    assert Lines(front) == [s[..nl]] && Rest(front) == "";
    LinesJoin(front, back);
    assert Rest(front) + back == back;
  }

  // ---------------------------------------------------------------- messages

  function MessageOf<M>(codec: Codec<M>, line: string): Option<M> {
    var t := Trim(line);
    if t == "" then None else codec.parse(t)
  }

  function Messages<M>(codec: Codec<M>, lines: seq<string>): seq<M> {
    if lines == [] then []
    else
      var m := MessageOf(codec, lines[|lines| - 1]);
      Messages(codec, lines[..|lines| - 1]) + (if m.Some? then [m.value] else [])
  }

  lemma {:induction false} MessagesJoin<M>(codec: Codec<M>, a: seq<string>, b: seq<string>)
    ensures Messages(codec, a + b) == Messages(codec, a) + Messages(codec, b)
    decreases |b|
  {
    if b == [] {
      assert a + b == a;
    } else {
      MessagesJoin(codec, a, b[..|b| - 1]);
      assert (a + b)[..|a + b| - 1] == a + b[..|b| - 1];
    }
  }

  /** What a receiver takes from a text. */
  function Received<M>(codec: Codec<M>, s: string): seq<M> {
    Messages(codec, Lines(s))
  }

  /** More input only adds messages: whatever was delivered stays a prefix. */
  lemma {:induction false} ReceivedGrows<M>(codec: Codec<M>, s: string, t: string)
    ensures Received(codec, s + t) == Received(codec, s) + Received(codec, Rest(s) + t)
  {
    LinesJoin(s, t);
    MessagesJoin(codec, Lines(s), Lines(Rest(s) + t));
  }

  // ---------------------------------------------------------------- round trip

  /** What may be on the wire: messages, with white space around them, and lines that are none. */
  datatype Item<M> = Sent(left: string, message: M, right: string) | Junk(line: string)

  function Wire<M>(codec: Codec<M>, items: seq<Item<M>>): string {
    if items == [] then ""
    else
      var z := items[|items| - 1];
      Wire(codec, items[..|items| - 1]) + LineOf(codec, z) + "\n"
  }

  function SentOf<M>(items: seq<Item<M>>): seq<M> {
    if items == [] then []
    else SentOf(items[..|items| - 1]) + (if items[|items| - 1].Sent? then [items[|items| - 1].message] else [])
  }

  /** The white space around a message holds no newline. A line that is no message is blank, or the
      codec does not read it. */
  ghost predicate ItemOk<M>(codec: Codec<M>, item: Item<M>) {
    match item
    case Sent(left, _, right) => AllSpace(left) && AllSpace(right) && '\n' !in left && '\n' !in right
    case Junk(line) => '\n' !in line && (AllSpace(line) || codec.parse(Trim(line)) == None)
  }

  ghost predicate ItemsOk<M>(codec: Codec<M>, items: seq<Item<M>>) {
    forall i | 0 <= i < |items| :: ItemOk(codec, items[i])
  }

  function LineOf<M>(codec: Codec<M>, item: Item<M>): string {
    match item
    case Sent(left, m, right) => left + codec.stringify(m) + right
    case Junk(line) => line
  }

  /** One item is read as its message, or as none. */
  lemma {:induction false} ItemRead<M>(codec: Codec<M>, item: Item<M>)
    requires ItemOk(codec, item) && (item.Sent? ==> SoundFor(codec, item.message))
    ensures '\n' !in LineOf(codec, item)
    ensures MessageOf(codec, LineOf(codec, item)) == if item.Sent? then Some(item.message) else None
  {
    match item
    case Sent(left, m, right) => TrimPadded(left, codec.stringify(m), right);
    case Junk(line) =>
      if AllSpace(line) {
        TrimPadded(line, "", "");
        assert line + "" + "" == line;
      }
  }

  lemma {:induction false} OneLine(s: string, line: string)
    requires '\n' !in line && Rest(s) == ""
    ensures Lines(s + line + "\n") == Lines(s) + [line] && Rest(s + line + "\n") == ""
  {
    LinesJoin(s, line);
    NoLines(line);
    assert Rest(s) + line == line;
    assert (s + line + "\n")[..|s + line|] == s + line;
  }

  /** Every message sent is received, in order and once, whatever white space is around them and
      whatever lines are between them. */
  lemma {:induction false} RoundTrip<M(!new)>(codec: Codec<M>, items: seq<Item<M>>)
    requires Sound(codec) && ItemsOk(codec, items)
    ensures Received(codec, Wire(codec, items)) == SentOf(items) && Rest(Wire(codec, items)) == ""
    decreases |items|
  {
    if items != [] {
      var f, z := items[..|items| - 1], items[|items| - 1];
      assert forall i | 0 <= i < |f| :: f[i] == items[i];
      RoundTrip(codec, f);
      var line := LineOf(codec, z);
      assert ItemOk(codec, items[|items| - 1]) && (z.Sent? ==> SoundFor(codec, z.message));
      ItemRead(codec, z);
      OneLine(Wire(codec, f), line);
      MessagesJoin(codec, Lines(Wire(codec, f)), [line]);
      assert Messages(codec, [line]) == if z.Sent? then [z.message] else [] by {
        assert [line][..0] == [];
      }
    }
  }

  // ---------------------------------------------------------------- the channel

  function Joined(chunks: seq<string>): string {
    if chunks == [] then "" else Joined(chunks[..|chunks| - 1]) + chunks[|chunks| - 1]
  }

  class StreamChannel<!M> {
    const codec: Codec<M>
    var hasHandler: bool
    var delivered: seq<M>
    var queue: seq<M>
    var buffer: string
    var written: string
    var hasCloseHandler: bool
    var closeNotices: nat
    var ownClosed: bool
    var streamClosed: bool
    ghost var fed: string

    /** All messages of the input so far are delivered, or queued while there is no handler; the
        buffer is the unfinished line. A close handler has heard of the close once, or will. */
    ghost predicate Valid()
      reads this
    {
      && buffer == Rest(fed) && '\n' !in buffer
      && OneSide() && Got() == Received(codec, fed)
      && closeNotices == if hasCloseHandler && streamClosed then 1 else 0
    }

    constructor (c: Codec<M>)
      ensures Valid() && codec == c && fed == "" && !hasHandler && written == "" && !ownClosed && !streamClosed
    {
      codec := c;
      hasHandler, delivered, queue, buffer, written := false, [], [], "", "";
      hasCloseHandler, closeNotices, ownClosed, streamClosed, fed := false, 0, false, false, "";
    }

    method Deliver(m: M)
      modifies this`delivered, this`queue
      ensures hasHandler ==> delivered == old(delivered) + [m] && queue == old(queue)
      ensures !hasHandler ==> delivered == old(delivered) && queue == old(queue) + [m]
    {
      if hasHandler {
        delivered := delivered + [m];
      } else {
        queue := queue + [m];
      }
    }

    /** What has come out of the input so far. */
    function Got(): seq<M>
      reads this
    {
      if hasHandler then delivered else queue
    }

    predicate OneSide()
      reads this
    {
      if hasHandler then queue == [] else delivered == []
    }

    /** Takes the first line off the buffer. */
    method TakeNext(nl: nat)
      requires nl < |buffer| && buffer[nl] == '\n' && '\n' !in buffer[..nl] && OneSide()
      modifies this`buffer, this`delivered, this`queue
      ensures OneSide() && Rest(buffer) == Rest(old(buffer)) && |buffer| < |old(buffer)|
      ensures Total(codec, Got(), buffer) == Total(codec, old(Got()), old(buffer))
    {
      FirstLine(buffer, nl);
      TakeLine(codec, buffer, nl, Got());
      var line := Trim(buffer[..nl]);
      buffer := buffer[nl + 1..];
      if line != "" {
        var parsed := codec.parse(line);
        if parsed.Some? { Deliver(parsed.value); }
      }
    }

    method TakeLines()
      requires OneSide()
      modifies this`buffer, this`delivered, this`queue
      ensures OneSide() && '\n' !in buffer && Rest(buffer) == Rest(old(buffer))
      ensures Total(codec, Got(), buffer) == Total(codec, old(Got()), old(buffer))
    {
      var nl := IndexOfNewline(buffer);
      while nl.Some?
        invariant AtNewline(buffer, nl) && OneSide() && Rest(buffer) == Rest(old(buffer))
        invariant Total(codec, Got(), buffer) == Total(codec, old(Got()), old(buffer))
        decreases |buffer|
      {
        TakeNext(nl.value);
        nl := IndexOfNewline(buffer);
      }
    }

    /** A chunk of input, cut anywhere. */
    method OnData(chunk: string)
      requires Valid()
      modifies this`buffer, this`delivered, this`queue, this`fed
      ensures Valid() && fed == old(fed) + chunk
    {
      FedGrows(codec, fed, chunk);
      buffer := buffer + chunk;
      fed := fed + chunk;
      TakeLines();
      NothingMore(codec, Got(), buffer);
    }

    method OnMessage()
      requires Valid()
      modifies this`hasHandler, this`delivered, this`queue
      ensures Valid() && hasHandler
    {
      assert delivered + queue == Got();
      hasHandler := true;
      delivered := Drain(delivered, queue);
      queue := [];
    }

    static method Drain(delivered: seq<M>, queue: seq<M>) returns (all: seq<M>)
      ensures all == delivered + queue
    {
      all := delivered;
      for i := 0 to |queue|
        invariant all == delivered + queue[..i]
      {
        all := all + [queue[i]];
      }
    }

    /** Nothing is written once either side has closed. */
    method Send(m: M)
      requires Valid()
      modifies this`written
      ensures Valid()
      ensures written == if ownClosed || streamClosed then old(written) else old(written) + codec.stringify(m) + "\n"
    {
      if ownClosed || streamClosed { return; }
      written := written + codec.stringify(m) + "\n";
    }

    /** The end, a close or an error of the stream; only the first counts. */
    method Fail()
      requires Valid()
      modifies this`streamClosed, this`closeNotices
      ensures Valid() && streamClosed
      ensures closeNotices == if hasCloseHandler then 1 else 0
    {
      if streamClosed { return; }
      streamClosed := true;
      if hasCloseHandler { closeNotices := closeNotices + 1; }
    }

    /** A handler that comes late hears of the close at once. */
    method OnClose()
      requires Valid() && !hasCloseHandler
      modifies this`hasCloseHandler, this`closeNotices
      ensures Valid() && hasCloseHandler && closeNotices == if streamClosed then 1 else 0
    {
      hasCloseHandler := true;
      if streamClosed { closeNotices := closeNotices + 1; }
    }

    method Close()
      requires Valid()
      modifies this`ownClosed
      ensures Valid() && ownClosed
    {
      ownClosed := true;
    }
  }

  /** The messages so far, and those that a text still holds. */
  ghost function Total<M>(codec: Codec<M>, got: seq<M>, buffer: string): seq<M> {
    got + Received(codec, buffer)
  }

  lemma {:induction false} FedGrows<M>(codec: Codec<M>, fed: string, chunk: string)
    ensures Rest(Rest(fed) + chunk) == Rest(fed + chunk)
    ensures Total(codec, Received(codec, fed), Rest(fed) + chunk) == Received(codec, fed + chunk)
  {
    ReceivedGrows(codec, fed, chunk);
    LinesJoin(fed, chunk);
  }

  lemma {:induction false} NothingMore<M>(codec: Codec<M>, got: seq<M>, buffer: string)
    requires '\n' !in buffer
    ensures Total(codec, got, buffer) == got && Rest(buffer) == buffer
  {
    NoLines(buffer);
  }

  lemma {:induction false} TakeLine<M>(codec: Codec<M>, buffer: string, nl: nat, got: seq<M>)
    requires nl < |buffer| && Lines(buffer) == [buffer[..nl]] + Lines(buffer[nl + 1..])
    ensures var m := MessageOf(codec, buffer[..nl]);
            Total(codec, got, buffer) == Total(codec, if m.Some? then got + [m.value] else got, buffer[nl + 1..])
  {
    var first := [buffer[..nl]];
    MessagesJoin(codec, first, Lines(buffer[nl + 1..]));
    assert first[..0] == [];
  }

  /** The first newline of a text, if it has one. */
  ghost predicate AtNewline(s: string, nl: Option<nat>) {
    match nl
    case Some(i) => i < |s| && s[i] == '\n' && '\n' !in s[..i]
    case None => '\n' !in s
  }

  method IndexOfNewline(s: string) returns (nl: Option<nat>)
    ensures AtNewline(s, nl)
  {
    for i := 0 to |s|
      invariant '\n' !in s[..i]
    {
      if s[i] == '\n' { return Some(i); }
      assert s[..i + 1] == s[..i] + [s[i]];
    }
    assert s[..|s|] == s;
    return None;
  }

  /** The whole way: whatever is sent, however the stream cuts it up and whenever the handler is
      registered, exactly the messages sent arrive, in order. */
  method Transmit<M(!new)>(codec: Codec<M>, chunks: seq<string>, registerAt: nat, ghost items: seq<Item<M>>)
    returns (delivered: seq<M>)
    requires Sound(codec) && ItemsOk(codec, items) && Joined(chunks) == Wire(codec, items)
    ensures delivered == SentOf(items)
  {
    var channel := new StreamChannel(codec);
    for i := 0 to |chunks|
      invariant channel.Valid() && channel.codec == codec && channel.fed == Joined(chunks[..i])
    {
      if i == registerAt { channel.OnMessage(); }
      assert chunks[..i + 1][..i] == chunks[..i];
      channel.OnData(chunks[i]);
    }
    channel.OnMessage();
    assert chunks[..|chunks|] == chunks;
    RoundTrip(codec, items);
    delivered := channel.delivered;
  }
}
