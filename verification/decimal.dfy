/**
 * Decimal numerals: the digit strings that integer formatting writes and
 * integer parsing reads.
 */
module Decimal {

  predicate IsDigit(c: char) {
    '0' <= c <= '9'
  }

  function DigitValue(c: char): (d: nat)
    requires IsDigit(c)
    ensures d < 10
  {
    (c as int) - ('0' as int)
  }

  function DigitChar(d: nat): (c: char)
    requires d < 10
    ensures IsDigit(c) && DigitValue(c) == d
  {
    (('0' as int) + d) as char
  }

  predicate AllDigits(s: string) {
    forall i :: 0 <= i < |s| ==> IsDigit(s[i])
  }

  /** The number a digit string denotes, read most significant digit first. */
  function DigitsValue(s: string): nat
    requires AllDigits(s)
  {
    if s == [] then 0 else DigitsValue(s[..|s| - 1]) * 10 + DigitValue(s[|s| - 1])
  }

  /**
   * The shortest numeral for `n`, as Rust's `Display` writes an unsigned
   * integer: at least one digit, no leading zero, denoting `n`.
   */
  function NatToString(n: nat): (r: string)
    ensures |r| > 0 && AllDigits(r)
    ensures DigitsValue(r) == n
    ensures r[0] == '0' ==> r == "0"
    decreases n
  {
    if n < 10 then [DigitChar(n)]
    else
      var prefix := NatToString(n / 10);
      var r := prefix + [DigitChar(n % 10)];
      assert r[..|r| - 1] == prefix;
      r
  }

  /** A prefix of a numeral never denotes more than the whole numeral. */
  lemma {:induction false} PrefixValueAtMost(s: string, k: nat)
    requires AllDigits(s) && k <= |s|
    ensures AllDigits(s[..k]) && DigitsValue(s[..k]) <= DigitsValue(s)
  {
    if k < |s| {
      var init := s[..|s| - 1];
      assert init[..k] == s[..k];
      PrefixValueAtMost(init, k);
    } else {
      assert s[..k] == s;
    }
  }

  /** Appending one digit multiplies the value by ten and adds the digit. */
  lemma AppendDigit(s: string, i: nat)
    requires i < |s| && AllDigits(s[..i + 1])
    ensures AllDigits(s[..i]) && DigitsValue(s[..i + 1]) == DigitsValue(s[..i]) * 10 + DigitValue(s[i])
  {
    assert s[..i + 1][..i] == s[..i];
  }
}
