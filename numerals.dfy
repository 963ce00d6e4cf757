/**
 * Decimal numerals: the value Python's `int()` gives a run of ASCII digits,
 * and the text `str()` gives an integer.  The lexer uses the first for INT
 * literals; token rendering and runtime error messages use the second.
 */
module Numerals {

  predicate IsDigit(c: char) {
    '0' <= c <= '9'
  }

  predicate AllDigits(s: string) {
    forall i :: 0 <= i < |s| ==> IsDigit(s[i])
  }

  function DigitValue(c: char): nat
    requires IsDigit(c)
  {
    (c as int - '0' as int) as nat
  }

  function DigitChar(d: nat): (c: char)
    requires d < 10
    ensures IsDigit(c) && DigitValue(c) == d
  {
    ('0' as int + d) as char
  }

  /** The value of a run of decimal digits, read most significant first. */
  function DigitsValue(s: string): nat
    requires AllDigits(s)
  {
    if s == [] then 0 else DigitsValue(s[..|s| - 1]) * 10 + DigitValue(s[|s| - 1])
  }

  /** The digits of a natural number without leading zeros, as `str()` writes them. */
  function NatText(n: nat): (s: string)
    ensures AllDigits(s) && 0 < |s|
    ensures |s| > 1 ==> s[0] != '0'
  {
    if n < 10 then [DigitChar(n)] else NatText(n / 10) + [DigitChar(n % 10)]
  }

  /** `str(n)` for a Python int: a minus sign before the digits of a negative number. */
  function IntText(n: int): (s: string)
    ensures 0 < |s| && (n < 0 <==> s[0] == '-')
    ensures n < 0 ==> s[1..] == NatText(-n)
    ensures 0 <= n ==> s == NatText(n)
  {
    if n < 0 then "-" + NatText(-n) else NatText(n)
  }

  /** Reading back the digits `str()` writes gives the number again. */
  lemma {:induction false} NatTextRoundTrip(n: nat)
    ensures DigitsValue(NatText(n)) == n
  {
    if n >= 10 {
      NatTextRoundTrip(n / 10);
      var s := NatText(n);
      assert s[..|s| - 1] == NatText(n / 10);
    }
  }

  /** Different numbers are written differently. */
  lemma NatTextInjective(m: nat, n: nat)
    requires NatText(m) == NatText(n)
    ensures m == n
  {
    NatTextRoundTrip(m);
    NatTextRoundTrip(n);
  }

  /** Different integers are written differently. */
  lemma IntTextInjective(m: int, n: int)
    requires IntText(m) == IntText(n)
    ensures m == n
  {
    if m < 0 {
      NatTextInjective(-m, -n);
    } else {
      NatTextInjective(m, n);
    }
  }
}
