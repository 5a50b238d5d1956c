/**
 * Python's `int(text)` on a string, base 10, as an explicit parser:
 * optional surrounding whitespace, an optional sign, then ASCII digits
 * with single underscores allowed between digits.
 */
module PyInt {
  import opened Wrappers
  import opened Text

  predicate IsDigit(c: char) {
    '0' <= c <= '9'
  }

  function DigitValue(c: char): (d: nat)
    requires IsDigit(c)
    ensures d < 10
  {
    (c as int) - ('0' as int)
  }

  function DigitChar(d: nat): (c: char)
    requires d < 10
    ensures IsDigit(c) && DigitValue(c) == d
  {
    (('0' as int) + d) as char
  }

  /**
   * The whitespace `int()` skips around the literal. CPython passes every
   * character below U+007F through unchanged and then skips only ASCII
   * whitespace, so the separators U+001C..U+001F, which `str.strip()`
   * removes, are not skipped here.
   */
  predicate IsIntSpace(c: char) {
    IsPySpace(c) && !(0x1C <= c as int <= 0x1F)
  }

  /** A digit run: digits, with an underscore only between two digits. */
  predicate WellFormedDigits(d: string) {
    && |d| > 0
    && IsDigit(d[0])
    && IsDigit(d[|d| - 1])
    && (forall i :: 0 <= i < |d| ==> IsDigit(d[i]) || d[i] == '_')
    && (forall i :: 0 <= i < |d| - 1 ==> IsDigit(d[i]) || IsDigit(d[i + 1]))
  }

  /** The decimal value of a digit run, underscores ignored. */
  function DigitsValue(d: string): nat
  {
    if d == [] then 0
    else if IsDigit(d[|d| - 1]) then 10 * DigitsValue(d[..|d| - 1]) + DigitValue(d[|d| - 1])
    else DigitsValue(d[..|d| - 1])
  }

  /** A stripped literal: an optional sign followed by a digit run. */
  function ParseLiteral(t: string): (r: Option<int>)
    ensures r.Some? ==> t != [] && (IsDigit(t[0]) || t[0] == '+' || t[0] == '-') && IsDigit(t[|t| - 1])
  {
    if |t| > 0 && (t[0] == '+' || t[0] == '-') then
      var d := t[1..];
      var v: int := DigitsValue(d);
      if WellFormedDigits(d) then Some(if t[0] == '-' then -v else v) else None
    else if WellFormedDigits(t) then Some(DigitsValue(t))
    else None
  }

  /** `int(s)`: the value, or None where Python raises ValueError. */
  function ParseInt(s: string): (r: Option<int>)
    ensures AllBy(s, IsIntSpace) ==> r == None
  {
    var t := StripBy(s, IsIntSpace);
    StripEmptyIffBlank(s, IsIntSpace);
    ParseLiteral(t)
  }

  /** Decimal digits of a natural number, without leading zeros. */
  function ShowNat(n: nat): (r: string)
    ensures |r| > 0 && forall i :: 0 <= i < |r| ==> IsDigit(r[i])
    decreases n
  {
    if n < 10 then [DigitChar(n)] else ShowNat(n / 10) + [DigitChar(n % 10)]
  }

  /** `str(i)` for an int. */
  function ShowInt(i: int): (r: string)
    ensures r != [] && (IsDigit(r[0]) || r[0] == '-') && IsDigit(r[|r| - 1])
  {
    if i < 0 then "-" + ShowNat(-i) else ShowNat(i)
  }

  lemma {:induction false} DigitsValueShowNat(n: nat)
    ensures WellFormedDigits(ShowNat(n))
    ensures DigitsValue(ShowNat(n)) == n
    decreases n
  {
    var s := ShowNat(n);
    if n >= 10 {
      DigitsValueShowNat(n / 10);
      assert s[..|s| - 1] == ShowNat(n / 10);
    }
  }

  lemma ShowIntLiteral(i: int)
    ensures ParseLiteral(ShowInt(i)) == Some(i)
  {
    var s := ShowInt(i);
    if i < 0 {
      DigitsValueShowNat(-i);
      assert s[1..] == ShowNat(-i);
    } else {
      DigitsValueShowNat(i);
    }
  }

  /** `int(str(i)) == i`. */
  lemma ParseShowInt(i: int)
    ensures ParseInt(ShowInt(i)) == Some(i)
  {
    StripNoEdge(ShowInt(i), IsIntSpace);
    ShowIntLiteral(i);
  }

  /** `int()` ignores whitespace around the literal: `int(" 7 \n") == 7`. */
  lemma ParsePaddedShowInt(ws1: string, i: int, ws2: string)
    requires AllBy(ws1, IsIntSpace) && AllBy(ws2, IsIntSpace)
    ensures ParseInt(ws1 + ShowInt(i) + ws2) == Some(i)
  {
    StripPadded(ws1, ShowInt(i), ws2, IsIntSpace);
    ShowIntLiteral(i);
  }

  /** An explicit plus sign is accepted: `int("+7") == 7`. */
  lemma ParsePlusShowNat(n: nat)
    ensures ParseInt("+" + ShowNat(n)) == Some(n)
  {
    var s := "+" + ShowNat(n);
    StripNoEdge(s, IsIntSpace);
    DigitsValueShowNat(n);
    assert s[1..] == ShowNat(n);
  }
}
