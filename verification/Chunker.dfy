/** Splitting text into overlapping pieces, cut at newlines where possible. */
module Chunker {
  import opened Options
  import opened Text

  datatype TextChunk = TextChunk(index: nat, text: string)

  datatype Window = Window(start: nat, end: nat)

  const DEFAULT_CHUNK_SIZE := 1000
  const DEFAULT_OVERLAP := 150

  function Max(a: int, b: int): int { if a >= b then a else b }

  function Min(a: int, b: int): int { if a <= b then a else b }

  function ChunkSize(option: Option<real>): (r: nat)
    ensures r >= 1
    ensures option.None? ==> r == DEFAULT_CHUNK_SIZE
    ensures option.Some? && option.value >= 1.0 ==> r as real <= option.value < r as real + 1.0
    ensures option.Some? && option.value < 1.0 ==> r == 1
  {
    Max(1, if option.Some? then option.value.Floor else DEFAULT_CHUNK_SIZE)
  }

  function Overlap(option: Option<real>, chunkSize: nat): (r: nat)
    requires chunkSize >= 1
    ensures r < chunkSize
    ensures option.Some? && option.value < 0.0 ==> r == 0
    ensures option.Some? && 0.0 <= option.value < chunkSize as real ==> r as real <= option.value < r as real + 1.0
    ensures option.Some? && option.value >= chunkSize as real ==> r == chunkSize - 1
    ensures option.None? ==> r == DEFAULT_OVERLAP || (r == chunkSize - 1 && chunkSize <= DEFAULT_OVERLAP)
  {
    Min(Max(0, if option.Some? then option.value.Floor else DEFAULT_OVERLAP), chunkSize - 1)
  }

  /** \r\n becomes \n. */
  function UnixLines(s: string): string {
    if |s| < 2 then s
    else if s[0] == '\r' && s[1] == '\n' then "\n" + UnixLines(s[2..])
    else [s[0]] + UnixLines(s[1..])
  }

  predicate StartsPair(s: string) {
    |s| >= 2 && s[0] == '\r' && s[1] == '\n'
  }

  lemma {:induction false} UnixLinesStep(s: string)
    requires s != ""
    ensures UnixLines(s) == if StartsPair(s) then "\n" + UnixLines(s[2..]) else [s[0]] + UnixLines(s[1..])
  {
    if |s| == 1 { assert s == [s[0]] && s[1..] == ""; }
  }

  lemma {:induction false} Regrouped(a: string, b: string, c: string, d: string)
    ensures a + (b + c + d) == (a + b) + c + d
  {
  }

  /** What comes before a pair is rewritten on its own. */
  lemma {:induction false} FirstOff(a: string, t: string, n: nat)
    requires a != "" && StartsPair(t) && n == if StartsPair(a) then 2 else 1
    ensures var first := if n == 2 then "\n" else [a[0]];
            UnixLines(a) == first + UnixLines(a[n..]) && UnixLines(a + t) == first + UnixLines(a[n..] + t)
  {
    var s := a + t;
    assert StartsPair(s) <==> StartsPair(a);
    assert s[n..] == a[n..] + t;
    UnixLinesStep(a);
    UnixLinesStep(s);
  }

  /** Every carriage return before a newline is dropped, wherever it is; UnixLinesSame: nothing else is. */
  lemma {:induction false} UnixLinesAt(a: string, b: string)
    ensures UnixLines(a + ("\r\n" + b)) == UnixLines(a) + "\n" + UnixLines(b)
    decreases |a|
  {
    var t := "\r\n" + b;
    var s := a + t;
    if a == "" {
      UnixLinesStep(s);
      assert s == t && t[2..] == b;
      assert UnixLines(a) == "" && "" + "\n" == "\n";
    } else {
      var n := if StartsPair(a) then 2 else 1;
      UnixLinesAt(a[n..], b);
      FirstOff(a, t, n);
      Regrouped(if n == 2 then "\n" else [a[0]], UnixLines(a[n..]), "\n", UnixLines(b));
    }
  }

  lemma {:induction false} UnixLinesSame(s: string)
    requires forall i | 0 <= i < |s| - 1 :: !(s[i] == '\r' && s[i + 1] == '\n')
    ensures UnixLines(s) == s
    decreases |s|
  {
    if |s| >= 2 {
      assert !(s[0] == '\r' && s[0 + 1] == '\n');
      forall i | 0 <= i < |s[1..]| - 1 ensures !(s[1..][i] == '\r' && s[1..][i + 1] == '\n') {
        assert !(s[i + 1] == '\r' && s[i + 1 + 1] == '\n');
      }
      UnixLinesSame(s[1..]);
    }
  }

  // ---------------------------------------------------------------- windows

  /** The last newline at or before a position. */
  function LastNewline(text: string, at: int): (r: int)
    requires at < |text|
    ensures -1 <= r <= Max(at, -1)
    ensures r >= 0 ==> text[r] == '\n'
    ensures forall i | Max(r, -1) < i <= at :: text[i] != '\n'
    decreases at + 1
  {
    if at < 0 then -1 else if text[at] == '\n' then at else LastNewline(text, at - 1)
  }

  /** Where the window that begins at start is cut. A newline at the very end of the window
      stretches it by one. */
  function Cut(text: string, start: nat, chunkSize: nat): (r: nat)
    requires start < |text| && chunkSize >= 1
    ensures start < r <= Min(start + chunkSize + 1, |text|)
    ensures r == start + chunkSize + 1 ==> text[r - 1] == '\n'
  {
    var end := Min(start + chunkSize, |text|);
    if end < |text| then
      var newlineAt := LastNewline(text, end);
      if 2 * (newlineAt - start) > chunkSize then newlineAt + 1 else end
    else end
  }

  /** A newline behind the middle of the window that begins at start. */
  ghost predicate InBackHalf(text: string, start: nat, chunkSize: nat, i: int) {
    start <= i < |text| && text[i] == '\n' && start + chunkSize < 2 * i - start && i <= start + chunkSize
  }

  /** The last window ends with the text. Another one ends behind the last newline of its back half, or
      without one there at its full size. */
  ghost predicate CutAt(text: string, start: nat, chunkSize: nat, end: nat) {
    if start + chunkSize >= |text| then end == |text|
    else if exists i :: InBackHalf(text, start, chunkSize, i) then
      InBackHalf(text, start, chunkSize, end - 1) && forall i | InBackHalf(text, start, chunkSize, i) :: i < end
    else end == start + chunkSize
  }

  lemma {:induction false} CutExactly(text: string, start: nat, chunkSize: nat)
    requires start < |text| && chunkSize >= 1
    ensures CutAt(text, start, chunkSize, Cut(text, start, chunkSize))
  {
    var end := start + chunkSize;
    if end < |text| {
      var n := LastNewline(text, end);
      forall i | InBackHalf(text, start, chunkSize, i) ensures i <= n {
        assert text[i] == '\n';
      }
      if 2 * (n - start) > chunkSize { assert InBackHalf(text, start, chunkSize, n); }
    }
  }

  function NextStart(w: Window, overlap: nat): nat {
    Max(w.end - overlap, w.start + 1)
  }

  function Windows(text: string, start: nat, chunkSize: nat, overlap: nat): seq<Window>
    requires start < |text| && chunkSize >= 1 && overlap < chunkSize
    decreases |text| - start
  {
    var w := Window(start, Cut(text, start, chunkSize));
    if w.end >= |text| then [w] else [w] + Windows(text, NextStart(w, overlap), chunkSize, overlap)
  }

  /** One window follows another: no gap, and just the overlap asked for, or if that would not move on
      all but the first character; and ends never move back. */
  ghost predicate Follows(w: Window, v: Window, overlap: nat) {
    w.start < v.start && v.start <= w.end && w.end <= v.end
    && if w.end - w.start > overlap then w.end - v.start == overlap else v.start == w.start + 1
  }

  ghost predicate FollowsAt(q: seq<Window>, overlap: nat, i: nat)
    requires i + 1 < |q|
  {
    Follows(q[i], q[i + 1], overlap)
  }

  ghost predicate WindowOk(text: string, w: Window, chunkSize: nat) {
    && w.start < w.end <= |text| && w.end - w.start <= chunkSize + 1
    && (w.end - w.start == chunkSize + 1 ==> text[w.end - 1] == '\n')
    && CutAt(text, w.start, chunkSize, w.end)
  }

  /** A later window never ends before an earlier one: the newline it is cut at would have cut the
      earlier one too. */
  lemma {:induction false} CutsAdvance(text: string, start: nat, next: nat, chunkSize: nat)
    requires start < next < |text| && chunkSize >= 1 && Cut(text, start, chunkSize) < next + chunkSize
    ensures Cut(text, start, chunkSize) <= Cut(text, next, chunkSize)
  {
    var end, end2 := Min(start + chunkSize, |text|), Min(next + chunkSize, |text|);
    if end < |text| && end2 < |text| {
      var n, n2 := LastNewline(text, end), LastNewline(text, end2);
      assert n2 < end ==> n2 < 0 || text[n2] == '\n';
      if n2 >= 0 && n2 < Cut(text, start, chunkSize) - 1 && 2 * (n2 - next) > chunkSize {
        assert n2 <= n;
      }
    }
  }

  ghost predicate Covers(text: string, q: seq<Window>, start: nat, chunkSize: nat, overlap: nat) {
    && q != [] && q[0].start == start && q[|q| - 1].end == |text|
    && (forall i | 0 <= i < |q| :: WindowOk(text, q[i], chunkSize))
    && (forall i | 0 <= i < |q| - 1 :: FollowsAt(q, overlap, i))
  }

  lemma {:induction false} CoversMore(text: string, w: Window, q: seq<Window>, next: nat, chunkSize: nat, overlap: nat)
    requires Covers(text, q, next, chunkSize, overlap) && WindowOk(text, w, chunkSize) && Follows(w, q[0], overlap)
    ensures Covers(text, [w] + q, w.start, chunkSize, overlap)
  {
    var r := [w] + q;
    forall i | 0 <= i < |r| - 1 ensures FollowsAt(r, overlap, i) {
      if i > 0 { assert FollowsAt(q, overlap, i - 1); }
    }
  }

  lemma {:induction false} FirstWindow(text: string, start: nat, chunkSize: nat, overlap: nat)
    requires start < |text| && chunkSize >= 1 && overlap < chunkSize
    ensures Windows(text, start, chunkSize, overlap) != []
    ensures Windows(text, start, chunkSize, overlap)[0] == Window(start, Cut(text, start, chunkSize))
  {
  }

  /** The windows cover the text from the first start to its end, one after the other. */
  lemma {:induction false} WindowsCover(text: string, start: nat, chunkSize: nat, overlap: nat)
    requires start < |text| && chunkSize >= 1 && overlap < chunkSize
    ensures Covers(text, Windows(text, start, chunkSize, overlap), start, chunkSize, overlap)
    decreases |text| - start
  {
    var w := Window(start, Cut(text, start, chunkSize));
    CutExactly(text, start, chunkSize);
    if w.end < |text| {
      var next := NextStart(w, overlap);
      WindowsCover(text, next, chunkSize, overlap);
      CutsAdvance(text, start, next, chunkSize);
      FirstWindow(text, next, chunkSize, overlap);
      CoversMore(text, w, Windows(text, next, chunkSize, overlap), next, chunkSize, overlap);
    }
  }

  // ---------------------------------------------------------------- chunks

  predicate InText(text: string, q: seq<Window>) {
    forall w | w in q :: w.start <= w.end <= |text|
  }

  function Pieces(text: string, q: seq<Window>): seq<string>
    requires InText(text, q)
  {
    if q == [] then []
    else
      var f, w := q[..|q| - 1], q[|q| - 1];
      assert w in q && forall x | x in f :: x in q;
      var piece := Trim(text[w.start..w.end]);
      Pieces(text, f) + (if piece == "" then [] else [piece])
  }

  /** Chunks are numbered from 0, in order. */
  function Numbered(pieces: seq<string>): seq<TextChunk> {
    seq(|pieces|, i requires 0 <= i < |pieces| => TextChunk(i, pieces[i]))
  }

  /** No piece is longer than the chunk size, not even that of a stretched window. */
  lemma {:induction false} PieceFits(text: string, w: Window, chunkSize: nat)
    requires WindowOk(text, w, chunkSize)
    ensures |Trim(text[w.start..w.end])| <= chunkSize
  {
    var s := text[w.start..w.end];
    TrimShorter(s);
    if |s| == chunkSize + 1 { TrimLosesEnd(s); }
  }

  ghost predicate Fits(chunks: seq<TextChunk>, chunkSize: nat) {
    forall i | 0 <= i < |chunks| :: chunks[i].index == i && 0 < |chunks[i].text| <= chunkSize
  }

  lemma {:induction false} PiecesFit(text: string, q: seq<Window>, chunkSize: nat)
    requires InText(text, q) && forall w | w in q :: WindowOk(text, w, chunkSize)
    ensures forall i | 0 <= i < |Pieces(text, q)| :: 0 < |Pieces(text, q)[i]| <= chunkSize
    decreases |q|
  {
    if q != [] {
      assert q[|q| - 1] in q;
      PiecesFit(text, q[..|q| - 1], chunkSize);
      PieceFits(text, q[|q| - 1], chunkSize);
    }
  }

  lemma {:induction false} PiecesMore(text: string, q: seq<Window>, w: Window)
    requires InText(text, q + [w])
    ensures InText(text, q) && w.start <= w.end <= |text|
    ensures var piece := Trim(text[w.start..w.end]);
            Pieces(text, q + [w]) == Pieces(text, q) + (if piece == "" then [] else [piece])
            && Numbered(Pieces(text, q + [w]))
                 == Numbered(Pieces(text, q)) + (if piece == "" then [] else [TextChunk(|Pieces(text, q)|, piece)])
  {
    assert w in q + [w] && forall x | x in q :: x in q + [w];
    assert (q + [w])[..|q|] == q;
  }

  lemma {:induction false} ChunksFit(text: string, chunkSize: nat, overlap: nat)
    requires 1 <= chunkSize < |text| && overlap < chunkSize
    ensures InText(text, Windows(text, 0, chunkSize, overlap))
    ensures Fits(Numbered(Pieces(text, Windows(text, 0, chunkSize, overlap))), chunkSize)
  {
    WindowsCover(text, 0, chunkSize, overlap);
    assert forall w | w in Windows(text, 0, chunkSize, overlap) :: WindowOk(text, w, chunkSize);
    PiecesFit(text, Windows(text, 0, chunkSize, overlap), chunkSize);
  }

  method ChunkText(raw: string, chunkSizeOption: Option<real>, overlapOption: Option<real>) returns (chunks: seq<TextChunk>)
    ensures var text, chunkSize := UnixLines(raw), ChunkSize(chunkSizeOption);
            Fits(chunks, chunkSize) &&
            if Trim(text) == "" then chunks == []
            else if |text| <= chunkSize then chunks == [TextChunk(0, Trim(text))]
            else
              var q := Windows(text, 0, chunkSize, Overlap(overlapOption, chunkSize));
              InText(text, q) && chunks == Numbered(Pieces(text, q))
  {
    var chunkSize := ChunkSize(chunkSizeOption);
    var overlap := Overlap(overlapOption, chunkSize);
    var text := UnixLines(raw);
    TrimShorter(text);
    if |Trim(text)| == 0 { return []; }
    if |text| <= chunkSize { return [TextChunk(0, Trim(text))]; }
    chunks := ChunkWindows(text, chunkSize, overlap);
    ChunksFit(text, chunkSize, overlap);
  }

  /** The chunks of the windows so far. */
  ghost predicate Emitted(text: string, done: seq<Window>, chunks: seq<TextChunk>) {
    InText(text, done) && chunks == Numbered(Pieces(text, done))
  }

  lemma {:induction false} EmittedMore(text: string, done: seq<Window>, w: Window, chunks: seq<TextChunk>)
    requires Emitted(text, done, chunks) && InText(text, done + [w])
    ensures w.start <= w.end <= |text|
    ensures var piece := Trim(text[w.start..w.end]);
            Emitted(text, done + [w], if piece == "" then chunks else chunks + [TextChunk(|chunks|, piece)])
  {
    PiecesMore(text, done, w);
  }

  method ChunkWindows(text: string, chunkSize: nat, overlap: nat) returns (chunks: seq<TextChunk>)
    requires 1 <= chunkSize < |text| && overlap < chunkSize
    ensures InText(text, Windows(text, 0, chunkSize, overlap))
    ensures chunks == Numbered(Pieces(text, Windows(text, 0, chunkSize, overlap)))
  {
    chunks := [];
    ghost var all := Windows(text, 0, chunkSize, overlap);
    var start, index := 0, 0;
    ghost var done: seq<Window> := [];
    while true
      invariant start < |text| && all == Plan(text, done, start, chunkSize, overlap)
      invariant Emitted(text, done, chunks) && index == |chunks|
      decreases |text| - start
    {
      var end := WindowEnd(text, start, chunkSize);
      var piece := Trim(text[start..end]);
      var w := Window(start, end);
      PlanStep(text, done, start, chunkSize, overlap);
      EmittedMore(text, done, w, chunks);
      if |piece| > 0 {
        chunks := chunks + [TextChunk(index, piece)];
        index := index + 1;
      }
      done := done + [w];
      if end >= |text| { return; }
      start := NextStart(w, overlap);
    }
  }

  method WindowEnd(text: string, start: nat, chunkSize: nat) returns (end: nat)
    requires start < |text| && chunkSize >= 1
    ensures end == Cut(text, start, chunkSize) && CutAt(text, start, chunkSize, end)
  {
    end := Min(start + chunkSize, |text|);
    if end < |text| {
      var newlineAt := LastNewline(text, end);
      if 2 * (newlineAt - start) > chunkSize { end := newlineAt + 1; }
    }
    CutExactly(text, start, chunkSize);
  }

  /** The windows so far, and those still to come. */
  ghost function Plan(text: string, done: seq<Window>, start: nat, chunkSize: nat, overlap: nat): seq<Window>
    requires start < |text| && chunkSize >= 1 && overlap < chunkSize
  {
    done + Windows(text, start, chunkSize, overlap)
  }

  lemma {:induction false} PlanStep(text: string, done: seq<Window>, start: nat, chunkSize: nat, overlap: nat)
    requires start < |text| && chunkSize >= 1 && overlap < chunkSize && InText(text, done)
    ensures var w := Window(start, Cut(text, start, chunkSize));
            InText(text, done + [w]) &&
            Plan(text, done, start, chunkSize, overlap)
              == if w.end >= |text| then done + [w] else Plan(text, done + [w], NextStart(w, overlap), chunkSize, overlap)
  {
  }
}
