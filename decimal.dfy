/**
 * JavaScript's rendering of integers as decimal text (`String(n)`, template
 * literals) and `padStart(2, "0")`, as the generators use them in seeds,
 * track ids and file names.
 */
module Decimal {

  predicate IsDigit(c: char)
  {
    '0' <= c <= '9'
  }

  function DigitChar(d: nat): (c: char)
    requires d < 10
    ensures IsDigit(c) && (c as int) - ('0' as int) == d
  {
    (('0' as int) + d) as char
  }

  /** `String(n)` for a non-negative integer: no sign, no leading zero. */
  function Digits(n: nat): (s: string)
    ensures |s| >= 1
    ensures forall i :: 0 <= i < |s| ==> IsDigit(s[i])
    ensures |s| > 1 ==> s[0] != '0'
    ensures n < 10 <==> |s| == 1
  {
    if n < 10 then [DigitChar(n)] else Digits(n / 10) + [DigitChar(n % 10)]
  }

  /** The number a string of decimal digits denotes. */
  function ValueOf(s: string): nat
    requires forall i :: 0 <= i < |s| ==> IsDigit(s[i])
  {
    if s == [] then 0
    else
      assert IsDigit(s[|s| - 1]);
      ValueOf(s[..|s| - 1]) * 10 + ((s[|s| - 1] as int) - ('0' as int))
  }

  /** Reading back the digits of `n` gives `n`: the rendering loses nothing. */
  lemma {:induction false} DigitsRoundTrip(n: nat)
    ensures ValueOf(Digits(n)) == n
  {
    if n >= 10 {
      DigitsRoundTrip(n / 10);
      var s := Digits(n);
      assert s[..|s| - 1] == Digits(n / 10);
    }
  }

  /** Distinct numbers render differently. */
  lemma DigitsInjective(a: nat, b: nat)
    requires Digits(a) == Digits(b)
    ensures a == b
  {
    DigitsRoundTrip(a);
    DigitsRoundTrip(b);
  }

  /** `String(n)` / `${n}` for any integer. */
  function IntToString(n: int): (s: string)
    ensures |s| >= 1
    ensures n < 0 <==> s[0] == '-'
  {
    if n < 0 then "-" + Digits(-n) else Digits(n)
  }

  /** `String(n).padStart(2, "0")`. */
  function Pad2(n: nat): (s: string)
    ensures n < 100 ==> s == [DigitChar(n / 10), DigitChar(n % 10)]
    ensures n >= 100 ==> s == Digits(n)
  {
    var d := Digits(n);
    if |d| >= 2 then d else "0" + d
  }

  /** Two-digit padding is injective on 0..99, so padded indices never collide. */
  lemma Pad2Injective(a: nat, b: nat)
    requires a < 100 && b < 100
    requires Pad2(a) == Pad2(b)
    ensures a == b
  {
    assert DigitChar(a / 10) == DigitChar(b / 10);
    assert DigitChar(a % 10) == DigitChar(b % 10);
  }
}
