/** Trimming, as strings of the source are trimmed. */
module Text {
  /** What trim removes: white space and line terminators. */
  predicate Space(c: char) {
    var n := c as int;
    || 9 <= n <= 13 || n == 32 || n == 0xA0 || n == 0x1680 || 0x2000 <= n <= 0x200A || n == 0x2028 || n == 0x2029
    || n == 0x202F || n == 0x205F || n == 0x3000 || n == 0xFEFF
  }

  function TrimStart(s: string): string {
    if s != "" && Space(s[0]) then TrimStart(s[1..]) else s
  }

  function TrimEnd(s: string): string {
    if s != "" && Space(s[|s| - 1]) then TrimEnd(s[..|s| - 1]) else s
  }

  function Trim(s: string): string {
    TrimEnd(TrimStart(s))
  }

  lemma {:induction false} TrimShorter(s: string)
    ensures |TrimStart(s)| <= |s| && |TrimEnd(s)| <= |s| && |Trim(s)| <= |s|
    decreases |s|
  {
    StartShorter(s);
    EndShorter(s);
    EndShorter(TrimStart(s));
  }

  lemma {:induction false} StartShorter(s: string)
    ensures |TrimStart(s)| <= |s|
    ensures TrimStart(s) != "" ==> TrimStart(s)[|TrimStart(s)| - 1] == s[|s| - 1]
    decreases |s|
  {
    if s != "" && Space(s[0]) { StartShorter(s[1..]); }
  }

  lemma {:induction false} EndShorter(s: string)
    ensures |TrimEnd(s)| <= |s|
    decreases |s|
  {
    if s != "" && Space(s[|s| - 1]) { EndShorter(s[..|s| - 1]); }
  }

  /** A text that ends in white space loses at least that. */
  lemma {:induction false} TrimLosesEnd(s: string)
    requires s != "" && Space(s[|s| - 1])
    ensures |Trim(s)| < |s|
  {
    StartShorter(s);
    var t := TrimStart(s);
    if t != "" { EndShorter(t[..|t| - 1]); }
  }

  predicate AllSpace(s: string) {
    forall c | c in s :: Space(c)
  }

  /** Trimming takes white space off both ends, all of it and nothing else. */
  lemma {:induction false} TrimSplits(s: string) returns (front: string, back: string)
    ensures s == front + Trim(s) + back && AllSpace(front) && AllSpace(back)
    ensures Trim(s) != "" ==> !Space(Trim(s)[0]) && !Space(Trim(s)[|Trim(s)| - 1])
  {
    front := StartSplits(s);
    back := EndSplits(TrimStart(s));
    assert front + (Trim(s) + back) == front + Trim(s) + back;
  }

  lemma {:induction false} StartDrops(left: string, s: string)
    requires AllSpace(left)
    ensures TrimStart(left + s) == TrimStart(s)
    decreases |left|
  {
    if left == "" {
      assert left + s == s;
    } else {
      assert left[0] in left && forall c | c in left[1..] :: c in left;
      assert (left + s)[1..] == left[1..] + s;
      StartDrops(left[1..], s);
    }
  }

  lemma {:induction false} EndDrops(s: string, right: string)
    requires AllSpace(right)
    ensures TrimEnd(s + right) == TrimEnd(s)
    decreases |right|
  {
    if right == "" {
      assert s + right == s;
    } else {
      var r := right[..|right| - 1];
      assert right[|right| - 1] in right && forall c | c in r :: c in right;
      assert (s + right)[..|s + right| - 1] == s + r;
      EndDrops(s, r);
    }
  }

  /** White space around a text that has none of its own comes off, and of white space nothing is left. */
  lemma {:induction false} TrimPadded(left: string, s: string, right: string)
    requires AllSpace(left) && AllSpace(right) && Trim(s) == s
    ensures Trim(left + s + right) == s
  {
    assert left + s + right == left + (s + right);
    StartDrops(left, s + right);
    if s == "" {
      assert s + right == right && right + "" == right;
      StartDrops(right, "");
    } else {
      var front, back := TrimSplits(s);
      EndDrops(s, right);
      StartShorter(s);
      EndShorter(TrimStart(s));
    }
  }

  lemma {:induction false} StartSplits(s: string) returns (front: string)
    ensures s == front + TrimStart(s) && AllSpace(front)
    ensures TrimStart(s) != "" ==> !Space(TrimStart(s)[0])
    decreases |s|
  {
    front := "";
    if s != "" && Space(s[0]) {
      front := StartSplits(s[1..]);
      assert s == [s[0]] + s[1..];
      assert s == ([s[0]] + front) + TrimStart(s[1..]);
      front := [s[0]] + front;
    }
  }

  lemma {:induction false} EndSplits(s: string) returns (back: string)
    ensures s == TrimEnd(s) + back && AllSpace(back)
    ensures TrimEnd(s) != "" ==> !Space(TrimEnd(s)[|TrimEnd(s)| - 1]) && TrimEnd(s)[0] == s[0]
    decreases |s|
  {
    back := "";
    if s != "" && Space(s[|s| - 1]) {
      var f, z := s[..|s| - 1], [s[|s| - 1]];
      back := EndSplits(f);
      assert s == f + z;
      assert s == TrimEnd(f) + (back + z);
      back := back + z;
    }
  }
}
