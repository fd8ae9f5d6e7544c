/**
 * Decimal text of non-negative integers, as `Date.now().toString()` produces it, and the value such
 * text denotes. Ids built from timestamps are specified through these two functions.
 */
module Decimal {
  import opened Arith

  function Pow10(k: nat): (p: nat)
    ensures p >= 1
  {
    if k == 0 then 1 else 10 * Pow10(k - 1)
  }

  predicate IsDigit(c: char) {
    '0' <= c <= '9'
  }

  predicate AllDigits(s: string) {
    forall i :: 0 <= i < |s| ==> IsDigit(s[i])
  }

  function DigitChar(d: nat): (c: char)
    requires d < 10
    ensures IsDigit(c) && c as int - '0' as int == d
  {
    ('0' as int + d) as char
  }

  /** Number.prototype.toString() of a non-negative integer: most significant digit first, no leading zero. */
  function DecimalString(n: nat): (s: string)
    ensures |s| >= 1 && AllDigits(s)
    ensures s[0] == '0' ==> n == 0
    decreases n
  {
    if n < 10 then [DigitChar(n)] else DecimalString(n / 10) + [DigitChar(n % 10)]
  }

  /** The number a string of decimal digits denotes (leading zeros allowed). */
  function DecimalValue(s: string): nat
    requires AllDigits(s)
    decreases |s|
  {
    if s == [] then 0 else 10 * DecimalValue(s[..|s| - 1]) + (s[|s| - 1] as int - '0' as int)
  }

  /** Reading back the text of `n` gives `n`. */
  lemma {:induction false} DecimalRoundTrip(n: nat)
    ensures DecimalValue(DecimalString(n)) == n
    decreases n
  {
    var s := DecimalString(n);
    if n >= 10 {
      DecimalRoundTrip(n / 10);
      assert s[..|s| - 1] == DecimalString(n / 10);
    }
  }

  /** `k` digits denote less than 10^k. */
  lemma {:induction false} ValueBelowPow10(s: string)
    requires AllDigits(s)
    ensures DecimalValue(s) < Pow10(|s|)
    decreases |s|
  {
    if s != [] {
      ValueBelowPow10(s[..|s| - 1]);
    }
  }

  /** Appending digits shifts the prefix's value by a power of ten. */
  lemma {:induction false} ValueOfConcat(a: string, b: string)
    requires AllDigits(a) && AllDigits(b)
    ensures AllDigits(a + b)
    ensures DecimalValue(a + b) == DecimalValue(a) * Pow10(|b|) + DecimalValue(b)
    decreases |b|
  {
    if b != [] {
      var b' := b[..|b| - 1];
      var d := b[|b| - 1] as int - '0' as int;
      assert (a + b)[..|a + b| - 1] == a + b';
      assert (a + b)[|a + b| - 1] == b[|b| - 1];
      ValueOfConcat(a, b');
      var va, vb, p := DecimalValue(a), DecimalValue(b'), Pow10(|b'|);
      assert DecimalValue(a + b) == 10 * (va * p + vb) + d;
      assert DecimalValue(b) == 10 * vb + d && Pow10(|b|) == 10 * p;
      MulShift(va, p);
    } else {
      assert a + b == a;
    }
  }

  /** The last `k` digits of a digit string denote its value modulo 10^k. */
  lemma SuffixValue(s: string, k: nat)
    requires AllDigits(s) && k <= |s|
    ensures AllDigits(s[|s| - k..])
    ensures DecimalValue(s[|s| - k..]) == DecimalValue(s) % Pow10(k)
  {
    var a, b := s[..|s| - k], s[|s| - k..];
    assert a + b == s;
    ValueOfConcat(a, b);
    ValueBelowPow10(b);
    MulAddDivMod(DecimalValue(a), Pow10(k), DecimalValue(b));
  }

  lemma {:induction false} Pow10Monotone(i: nat, j: nat)
    ensures i <= j ==> Pow10(i) <= Pow10(j)
    decreases j
  {
    if i < j {
      Pow10Monotone(i, j - 1);
    }
  }

  /** A number of at least 10^k has more than `k` digits. */
  lemma DecimalStringLength(n: nat, k: nat)
    requires n >= Pow10(k)
    ensures |DecimalString(n)| > k
  {
    var s := DecimalString(n);
    DecimalRoundTrip(n);
    ValueBelowPow10(s);
    Pow10Monotone(|s|, k);
  }
}
