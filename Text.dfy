/** The optional value used wherever the Python code passes `None`. */
module Wrappers {
  datatype Option<+T> = None | Some(value: T)
}

/**
 * The pieces of Python's text handling the reply code relies on:
 * `str.strip()`, `'%d' % n` and `'%s' % round(seconds, 3)`.
 */
module Text {

  /** Python's `str.isspace()` for one character. */
  predicate IsSpace(c: char) {
    ('\U{9}' <= c <= '\U{D}') || ('\U{1C}' <= c <= '\U{20}') ||
    c == '\U{85}' || c == '\U{A0}' || c == '\U{1680}' ||
    ('\U{2000}' <= c <= '\U{200A}') || c == '\U{2028}' || c == '\U{2029}' ||
    c == '\U{202F}' || c == '\U{205F}' || c == '\U{3000}'
  }

  /** Where `s.lstrip()` starts looking from `i`: the first index at or after `i` that is not white space, or `|s|`. */
  function SkipSpaces(s: string, i: nat): (j: nat)
    requires i <= |s|
    ensures i <= j <= |s|
    ensures forall k :: i <= k < j ==> IsSpace(s[k])
    ensures j == |s| || !IsSpace(s[j])
    decreases |s| - i
  {
    if i < |s| && IsSpace(s[i]) then SkipSpaces(s, i + 1) else i
  }

  /**
   * Where `s.rstrip()` ends, looking back from `j` but not past `lo`: just after the last
   * character before `j` that is not white space, or `lo`.
   */
  function SkipSpacesBack(s: string, lo: nat, j: nat): (k: nat)
    requires lo <= j <= |s|
    ensures lo <= k <= j
    ensures forall x :: k <= x < j ==> IsSpace(s[x])
    ensures k == lo || !IsSpace(s[k - 1])
  {
    if j > lo && IsSpace(s[j - 1]) then SkipSpacesBack(s, lo, j - 1) else j
  }

  /**
   * `s.strip()`: the slice of `s` between its leading and its trailing white space. The
   * slice neither starts nor ends with white space, and all that is cut off is white space.
   */
  function Strip(s: string): (r: string)
    ensures var lo := SkipSpaces(s, 0);
      var hi := SkipSpacesBack(s, lo, |s|);
      r == s[lo..hi] &&
      (forall i :: 0 <= i < lo ==> IsSpace(s[i])) &&
      (forall i :: hi <= i < |s| ==> IsSpace(s[i]))
    ensures r == [] || (!IsSpace(r[0]) && !IsSpace(r[|r| - 1]))
  {
    var lo := SkipSpaces(s, 0);
    s[lo..SkipSpacesBack(s, lo, |s|)]
  }

  /** Stripping a stripped string changes nothing. */
  lemma StripIdempotent(s: string)
    ensures Strip(Strip(s)) == Strip(s)
  {
    var r := Strip(s);
    assert SkipSpaces(r, 0) == 0;
    assert SkipSpacesBack(r, 0, |r|) == |r|;
    assert r[0..|r|] == r;
  }

  predicate IsDigit(c: char) {
    '0' <= c <= '9'
  }

  function DigitChar(d: nat): (c: char)
    requires d < 10
    ensures IsDigit(c) && c as int - '0' as int == d
  {
    ('0' as int + d) as char
  }

  /** The number a string of decimal digits denotes. */
  function DigitsValue(s: string): nat
    requires forall i :: 0 <= i < |s| ==> IsDigit(s[i])
  {
    if s == [] then 0
    else
      assert IsDigit(s[|s| - 1]);
      DigitsValue(s[..|s| - 1]) * 10 + (s[|s| - 1] as int - '0' as int)
  }

  /** `'%d' % n` for a non-negative `n`. */
  function NatToString(n: nat): string {
    if n < 10 then [DigitChar(n)] else NatToString(n / 10) + [DigitChar(n % 10)]
  }

  /** The text is decimal: one or more digits, and a leading zero only for the number 0. */
  lemma {:induction false} NatToStringIsDecimal(n: nat)
    ensures var r := NatToString(n);
      |r| >= 1 && (forall i :: 0 <= i < |r| ==> IsDigit(r[i])) &&
      (|r| > 1 ==> r[0] != '0') && (n < 10 <==> |r| == 1)
  {
    if n >= 10 {
      NatToStringIsDecimal(n / 10);
      var p := NatToString(n / 10);
      assert NatToString(n) == p + [DigitChar(n % 10)];
    }
  }

  /** Reading the digits back gives the number: `int('%d' % n) == n`. */
  lemma {:induction false} NatToStringRoundTrip(n: nat)
    ensures forall i :: 0 <= i < |NatToString(n)| ==> IsDigit(NatToString(n)[i])
    ensures DigitsValue(NatToString(n)) == n
  {
    NatToStringIsDecimal(n);
    if n >= 10 {
      var s := NatToString(n);
      assert s[..|s| - 1] == NatToString(n / 10);
      NatToStringRoundTrip(n / 10);
    }
  }

  /** `'%d' % i` for any integer. */
  function IntToString(i: int): string {
    if i < 0 then "-" + NatToString(-i) else NatToString(i)
  }

  /** A minus sign before the digits of a negative number, the plain digits otherwise. */
  lemma IntToStringSign(i: int)
    ensures var r := IntToString(i);
      (i < 0 <==> (r != [] && r[0] == '-')) &&
      (i < 0 ==> r[1..] == NatToString(-i)) &&
      (i >= 0 ==> r == NatToString(i))
  {
    NatToStringIsDecimal(if i < 0 then -i else i);
  }

  /** Strips trailing zeros but keeps at least one digit. */
  function DropTrailingZeros(s: string): (r: string)
    requires |s| >= 1
    ensures 1 <= |r| <= |s| && r == s[..|r|]
    ensures |r| > 1 ==> r[|r| - 1] != '0'
    ensures forall i :: |r| <= i < |s| ==> s[i] == '0'
  {
    if |s| > 1 && s[|s| - 1] == '0' then DropTrailingZeros(s[..|s| - 1]) else s
  }

  /** The fraction of a second in three digits, zero-padded on the left. */
  function ThreeDigits(f: nat): (r: string)
    requires f < 1000
    ensures |r| == 3 && (forall i :: 0 <= i < 3 ==> IsDigit(r[i]))
  {
    [DigitChar(f / 100), DigitChar(f / 10 % 10), DigitChar(f % 10)]
  }

  /** The three digits read back give the fraction: `'%03d' % f` is exact. */
  lemma ThreeDigitsValue(f: nat)
    requires f < 1000
    ensures DigitsValue(ThreeDigits(f)) == f
  {
    var r := ThreeDigits(f);
    assert r[..2][..1] == [r[0]] && r[..2] == [r[0], r[1]] && r[..1][..0] == [];
    assert DigitsValue(r[..1]) == f / 100;
    assert DigitsValue(r[..2]) == f / 10;
  }

  /**
   * `'%s' % round(t, 3)` where `t` is `ms` milliseconds: whole seconds, a point and
   * one to three fraction digits, trailing zeros dropped (`1.5`, `2.0`, `1.234`).
   */
  function FormatSeconds(ms: nat): string {
    NatToString(ms / 1000) + "." + DropTrailingZeros(ThreeDigits(ms % 1000))
  }

  /**
   * The seconds as written: the whole seconds in decimal, a point, then the three-digit
   * fraction with its trailing zeros dropped but at least one digit kept.
   */
  lemma FormatSecondsLayout(ms: nat)
    ensures exists frac: string ::
      FormatSeconds(ms) == NatToString(ms / 1000) + "." + frac &&
      1 <= |frac| <= 3 && frac == ThreeDigits(ms % 1000)[..|frac|] &&
      (|frac| > 1 ==> frac[|frac| - 1] != '0') &&
      (forall i :: |frac| <= i < 3 ==> ThreeDigits(ms % 1000)[i] == '0')
  {
    var frac := DropTrailingZeros(ThreeDigits(ms % 1000));
    assert FormatSeconds(ms) == NatToString(ms / 1000) + "." + frac;
  }

  /** The whole seconds can be read back from the text before the point. */
  lemma FormatSecondsWholePart(ms: nat)
    ensures var w := NatToString(ms / 1000);
      |w| < |FormatSeconds(ms)| && FormatSeconds(ms)[..|w|] == w && FormatSeconds(ms)[|w|] == '.' &&
      (forall i :: 0 <= i < |w| ==> IsDigit(w[i])) && DigitsValue(w) == ms / 1000
  {
    var w := NatToString(ms / 1000);
    var frac := DropTrailingZeros(ThreeDigits(ms % 1000));
    assert FormatSeconds(ms) == w + "." + frac;
    NatToStringRoundTrip(ms / 1000);
  }
}
