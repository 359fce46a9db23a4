/**
 * The two pieces of Python string behaviour the bot relies on: `str.strip()`
 * with no argument (applied to the query, to link texts and to captured
 * detail text) and `str(n)` for the integers shown in captions and titles.
 */
module Strings {

  /** Exactly the characters for which CPython's `str.isspace()` holds. */
  predicate IsSpace(c: char) {
    || ('\t' <= c <= '\r')
    || ('\U{1C}' <= c <= ' ')
    || c == '\U{85}' || c == '\U{A0}' || c == '\U{1680}'
    || ('\U{2000}' <= c <= '\U{200A}')
    || c == '\U{2028}' || c == '\U{2029}' || c == '\U{202F}' || c == '\U{205F}'
    || c == '\U{3000}'
  }

  /** Every character of `s` from index `lo` up to (not including) `hi` is whitespace. */
  predicate SpaceBetween(s: string, lo: int, hi: int) {
    forall k :: lo <= k < hi && 0 <= k < |s| ==> IsSpace(s[k])
  }

  predicate AllSpace(s: string) {
    SpaceBetween(s, 0, |s|)
  }

  /** The first index at or after `i` that does not hold whitespace (or `|s|`). */
  function SkipSpaceForward(s: string, i: nat): (j: nat)
    requires i <= |s|
    ensures i <= j <= |s| && SpaceBetween(s, i, j)
    ensures j < |s| ==> !IsSpace(s[j])
    decreases |s| - i
  {
    if i < |s| && IsSpace(s[i]) then SkipSpaceForward(s, i + 1) else i
  }

  /** The smallest index `j` at or after `lo` such that `s[j..hi]` is all whitespace. */
  function SkipSpaceBackward(s: string, lo: nat, hi: nat): (j: nat)
    requires lo <= hi <= |s|
    ensures lo <= j <= hi && SpaceBetween(s, j, hi)
    ensures j > lo ==> !IsSpace(s[j - 1])
  {
    if hi > lo && IsSpace(s[hi - 1]) then SkipSpaceBackward(s, lo, hi - 1) else hi
  }

  /** Where `s.strip()` starts: the number of leading whitespace characters. */
  function StripStart(s: string): (lo: nat)
    ensures lo <= |s|
  {
    SkipSpaceForward(s, 0)
  }

  /** Where `s.strip()` ends. */
  function StripEnd(s: string): (hi: nat)
    ensures StripStart(s) <= hi <= |s|
  {
    SkipSpaceBackward(s, StripStart(s), |s|)
  }

  /**
   * `s.strip()`: the result is the piece of `s` from `StripStart(s)` on, all
   * that is cut away on either side is whitespace, the result neither starts
   * nor ends with whitespace, and it is empty exactly when `s` is whitespace only.
   */
  function Strip(s: string): (r: string)
    ensures StripStart(s) + |r| <= |s| && r == s[StripStart(s)..StripStart(s) + |r|]
    ensures SpaceBetween(s, 0, StripStart(s)) && SpaceBetween(s, StripStart(s) + |r|, |s|)
    ensures r == [] || (!IsSpace(r[0]) && !IsSpace(r[|r| - 1]))
    ensures r == [] <==> AllSpace(s)
  {
    var lo, hi := StripStart(s), StripEnd(s);
    s[lo..hi]
  }

  lemma StripIdempotent(s: string)
    ensures Strip(Strip(s)) == Strip(s)
  {
    var r := Strip(s);
    if r != [] {
      assert StripStart(r) == 0;
      assert StripEnd(r) == |r|;
    }
  }

  predicate IsDigit(c: char) {
    '0' <= c <= '9'
  }

  predicate AllDigits(s: string) {
    forall k :: 0 <= k < |s| ==> IsDigit(s[k])
  }

  function DigitChar(d: nat): (c: char)
    requires d < 10
    ensures IsDigit(c)
  {
    ('0' as int + d) as char
  }

  function DigitValue(c: char): (d: nat)
    requires IsDigit(c)
    ensures d < 10 && DigitChar(d) == c
  {
    c as int - '0' as int
  }

  /** `str(n)` for a non-negative Python int: decimal digits, no leading zero. */
  function NatToDecimal(n: nat): (s: string)
    ensures s != [] && AllDigits(s)
    ensures s[0] == '0' ==> n == 0
  {
    if n < 10 then [DigitChar(n)] else NatToDecimal(n / 10) + [DigitChar(n % 10)]
  }

  /**
   * `str(x)` for any Python int: the digits of a non-negative value, or a
   * minus sign followed by the digits of its magnitude.
   */
  function IntToDecimal(x: int): (s: string)
    ensures x >= 0 ==> s == NatToDecimal(x) && s[0] != '-'
    ensures x < 0 ==> |s| > 1 && s[0] == '-' && s[1..] == NatToDecimal(-x)
  {
    if x < 0 then "-" + NatToDecimal(-x) else NatToDecimal(x)
  }

  /** The value of a string of decimal digits (the inverse of `NatToDecimal`). */
  function DecimalToNat(s: string): nat
    requires AllDigits(s)
  {
    if s == [] then 0 else 10 * DecimalToNat(s[..|s| - 1]) + DigitValue(s[|s| - 1])
  }

  lemma {:induction false} DecimalRoundTrip(n: nat)
    ensures DecimalToNat(NatToDecimal(n)) == n
  {
    if n >= 10 {
      var s := NatToDecimal(n);
      assert s[..|s| - 1] == NatToDecimal(n / 10);
      DecimalRoundTrip(n / 10);
    }
  }

  /** The number of decimal digits at the end of `s`. */
  function DigitSuffixLength(s: string): (k: nat)
    ensures k <= |s| && forall j :: |s| - k <= j < |s| ==> IsDigit(s[j])
  {
    if s != [] && IsDigit(s[|s| - 1]) then DigitSuffixLength(s[..|s| - 1]) + 1 else 0
  }

  /** A digit string written after text that does not end in a digit is exactly the digit suffix. */
  lemma {:induction false} DigitSuffixAfterNonDigit(p: string, d: string)
    requires p == [] || !IsDigit(p[|p| - 1])
    requires AllDigits(d)
    ensures DigitSuffixLength(p + d) == |d|
  {
    if d != [] {
      assert (p + d)[..|p + d| - 1] == p + d[..|d| - 1];
      DigitSuffixAfterNonDigit(p, d[..|d| - 1]);
    } else {
      assert p + d == p;
    }
  }
}
