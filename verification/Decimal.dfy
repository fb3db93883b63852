/** Decimal numerals: how a natural number or an integer is written in base ten,
    and what number a string of decimal digits denotes. */
module Decimal {

  predicate IsDigit(c: char) {
    '0' <= c <= '9'
  }

  predicate AllDigits(s: string) {
    forall i :: 0 <= i < |s| ==> IsDigit(s[i])
  }

  function DigitValue(c: char): (v: nat)
    requires IsDigit(c)
    ensures v < 10
  {
    c as int - '0' as int
  }

  function DigitChar(v: nat): (c: char)
    requires v < 10
    ensures IsDigit(c) && DigitValue(c) == v
  {
    ('0' as int + v) as char
  }

  /** The number a digit string denotes; leading zeros are allowed. */
  function NatValue(s: string): nat
    requires AllDigits(s)
  {
    if s == [] then 0 else 10 * NatValue(s[..|s| - 1]) + DigitValue(s[|s| - 1])
  }

  /** The usual numeral, without leading zeros. */
  function NatText(n: nat): (s: string)
    ensures |s| > 0 && AllDigits(s)
    ensures NatValue(s) == n
  {
    if n < 10 then [DigitChar(n)]
    else
      var rest := NatText(n / 10);
      var s := rest + [DigitChar(n % 10)];
      assert s[..|s| - 1] == rest;
      s
  }

  function IntText(n: int): (s: string)
    ensures |s| > 0
    ensures s[0] == '-' <==> n < 0
    ensures forall i :: 0 <= i < |s| ==> IsDigit(s[i]) || (i == 0 && s[i] == '-')
  {
    if n < 0 then "-" + NatText(-n) else NatText(n)
  }

  lemma IntTextInjective(a: int, b: int)
    requires IntText(a) == IntText(b)
    ensures a == b
  {
    if a < 0 {
      assert IntText(a)[1..] == NatText(-a) && IntText(b)[1..] == NatText(-b);
    }
  }

  function Pow10(k: nat): (p: nat)
    ensures p > 0
  {
    if k == 0 then 1 else 10 * Pow10(k - 1)
  }

  /** A numeral has at most k digits exactly below the k-th power of ten. */
  lemma {:induction false} NatTextLength(n: nat, k: nat)
    requires k > 0
    ensures |NatText(n)| <= k <==> n < Pow10(k)
  {
    if k == 1 {
      assert n >= 10 ==> |NatText(n / 10)| > 0;
    } else if n >= 10 {
      NatTextLength(n / 10, k - 1);
      hide NatText;
      assert n == 10 * (n / 10) + n % 10;
      assert |NatText(n)| == |NatText(n / 10)| + 1 by { NatTextGrows(n); }
    }
  }

  lemma NatTextGrows(n: nat)
    requires n >= 10
    ensures |NatText(n)| == |NatText(n / 10)| + 1
  {
  }

  function Zeros(k: nat): (s: string)
    ensures |s| == k && AllDigits(s)
  {
    seq(k, _ => '0')
  }

  /** Appending k zeros multiplies the denoted number by 10^k. */
  lemma {:induction false} ZerosScale(s: string, k: nat)
    requires AllDigits(s)
    ensures AllDigits(s + Zeros(k))
    ensures NatValue(s + Zeros(k)) == NatValue(s) * Pow10(k)
  {
    if k == 0 {
      assert s + Zeros(k) == s;
    } else {
      ZerosScale(s, k - 1);
      var t := s + Zeros(k - 1);
      assert s + Zeros(k) == t + ['0'];
      AppendZero(t);
      ScaleOnce(NatValue(s), Pow10(k - 1));
    }
  }

  lemma AppendZero(t: string)
    requires AllDigits(t)
    ensures NatValue(t + ['0']) == 10 * NatValue(t)
  {
    assert (t + ['0'])[..|t|] == t;
  }

  lemma ScaleOnce(n: nat, p: nat)
    ensures 10 * (n * p) == n * (10 * p)
  {
  }
}
