/**
 * Python's `str.strip()` with no argument: remove leading and trailing
 * whitespace. The trimming functions take the whitespace predicate as a
 * parameter, because `int()` skips a slightly different set of characters.
 */
module Text {

  /**
   * `str.isspace()` for one character: the characters CPython treats as
   * whitespace (bidirectional class WS, B or S, or category Zs).
   */
  predicate IsPySpace(c: char) {
    var n := c as int;
    || (0x09 <= n <= 0x0D)
    || (0x1C <= n <= 0x20)
    || n == 0x85
    || n == 0xA0
    || n == 0x1680
    || (0x2000 <= n <= 0x200A)
    || n == 0x2028
    || n == 0x2029
    || n == 0x202F
    || n == 0x205F
    || n == 0x3000
  }

  /** Every character of `s` is whitespace (vacuously true of ""). */
  predicate AllBy(s: string, isSpace: char -> bool) {
    forall i :: 0 <= i < |s| ==> isSpace(s[i])
  }

  /** `s` neither starts nor ends with whitespace. */
  predicate NoEdgeBy(s: string, isSpace: char -> bool) {
    s == [] || (!isSpace(s[0]) && !isSpace(s[|s| - 1]))
  }

  /** Drop the leading whitespace: the result is a suffix of `s`. */
  function TrimLeftBy(s: string, isSpace: char -> bool): (r: string)
    ensures |r| <= |s| && r == s[|s| - |r|..]
    ensures AllBy(s[..|s| - |r|], isSpace)
    ensures r != [] ==> !isSpace(r[0])
  {
    if s != [] && isSpace(s[0]) then TrimLeftBy(s[1..], isSpace) else s
  }

  /** Drop the trailing whitespace: the result is a prefix of `s`. */
  function TrimRightBy(s: string, isSpace: char -> bool): (r: string)
    ensures |r| <= |s| && r == s[..|r|]
    ensures AllBy(s[|r|..], isSpace)
    ensures r != [] ==> !isSpace(r[|r| - 1])
  {
    if s != [] && isSpace(s[|s| - 1]) then TrimRightBy(s[..|s| - 1], isSpace) else s
  }

  /** Where the stripped text starts: the number of leading whitespace characters. */
  function StripStart(s: string, isSpace: char -> bool): (i: nat)
    ensures i <= |s| && AllBy(s[..i], isSpace)
    ensures i < |s| ==> !isSpace(s[i])
  {
    |s| - |TrimLeftBy(s, isSpace)|
  }

  /**
   * Strip both ends: the result is the contiguous slice of `s` that starts
   * after the leading whitespace, is followed only by whitespace, and itself
   * starts and ends with a non-space.
   */
  function StripBy(s: string, isSpace: char -> bool): (r: string)
    ensures NoEdgeBy(r, isSpace)
    ensures StripStart(s, isSpace) + |r| <= |s|
    ensures r == s[StripStart(s, isSpace)..StripStart(s, isSpace) + |r|]
    ensures AllBy(s[StripStart(s, isSpace) + |r|..], isSpace)
  {
    var t := TrimLeftBy(s, isSpace);
    var r := TrimRightBy(t, isSpace);
    assert s[|s| - |t| + |r|..] == t[|r|..];
    r
  }

  /** `s.strip()`. */
  function Strip(s: string): (r: string)
    ensures NoEdgeBy(r, IsPySpace)
  {
    StripBy(s, IsPySpace)
  }

  /** A string without whitespace at its ends is its own strip. */
  lemma StripNoEdge(t: string, isSpace: char -> bool)
    requires NoEdgeBy(t, isSpace)
    ensures StripBy(t, isSpace) == t
  {
  }

  /** Stripping twice is stripping once. */
  lemma StripIdempotent(s: string, isSpace: char -> bool)
    ensures StripBy(StripBy(s, isSpace), isSpace) == StripBy(s, isSpace)
  {
    StripNoEdge(StripBy(s, isSpace), isSpace);
  }

  lemma {:induction false} TrimLeftPadded(ws: string, t: string, isSpace: char -> bool)
    requires AllBy(ws, isSpace)
    requires t == [] || !isSpace(t[0])
    ensures TrimLeftBy(ws + t, isSpace) == t
    decreases |ws|
  {
    if ws != [] {
      assert (ws + t)[1..] == ws[1..] + t;
      TrimLeftPadded(ws[1..], t, isSpace);
    }
  }

  lemma {:induction false} TrimRightPadded(t: string, ws: string, isSpace: char -> bool)
    requires AllBy(ws, isSpace)
    requires t == [] || !isSpace(t[|t| - 1])
    ensures TrimRightBy(t + ws, isSpace) == t
    decreases |ws|
  {
    if ws != [] {
      assert (t + ws)[..|t + ws| - 1] == t + ws[..|ws| - 1];
      TrimRightPadded(t, ws[..|ws| - 1], isSpace);
    } else {
      assert t + ws == t;
    }
  }

  /**
   * Whitespace around a string that has none at its ends is exactly what
   * strip removes; this also says the slice in StripBy's contract is unique.
   */
  lemma StripPadded(ws1: string, t: string, ws2: string, isSpace: char -> bool)
    requires AllBy(ws1, isSpace) && AllBy(ws2, isSpace)
    requires t != [] && NoEdgeBy(t, isSpace)
    ensures StripBy(ws1 + t + ws2, isSpace) == t
  {
    assert ws1 + t + ws2 == ws1 + (t + ws2);
    TrimLeftPadded(ws1, t + ws2, isSpace);
    TrimRightPadded(t, ws2, isSpace);
  }

  /** Strip leaves nothing exactly when the string is all whitespace. */
  lemma StripEmptyIffBlank(s: string, isSpace: char -> bool)
    ensures StripBy(s, isSpace) == [] <==> AllBy(s, isSpace)
  {
  }
}
