/** Decimal text of non-negative integers, as produced by Python's
    `str(i)` and `'{:d}'.format(i)`. The dataset uses it for subject file
    names, event keys and run names. */
module Decimal {

  predicate IsDigit(c: char) {
    '0' <= c <= '9'
  }

  predicate AllDigits(s: string) {
    forall i :: 0 <= i < |s| ==> IsDigit(s[i])
  }

  function DigitChar(d: nat): (c: char)
    requires d < 10
    ensures IsDigit(c)
  {
    (48 + d) as char
  }

  function DigitValue(c: char): (d: nat)
    requires IsDigit(c)
    ensures d < 10 && DigitChar(d) == c
  {
    c as int - 48
  }

  /** The decimal text of `n`: at least one digit, and no leading zero
      unless `n` is zero itself. */
  function Dec(n: nat): (s: string)
    ensures 1 <= |s|
    ensures AllDigits(s)
    ensures s[0] == '0' ==> n == 0
    decreases n
  {
    if n < 10 then [DigitChar(n)] else Dec(n / 10) + [DigitChar(n % 10)]
  }

  /** The text of a two-digit number: its tens digit, then its units
      digit. */
  lemma TwoDigits(n: nat)
    requires 10 <= n < 100
    ensures Dec(n) == [DigitChar(n / 10), DigitChar(n % 10)]
  {
    assert Dec(n / 10) == [DigitChar(n / 10)];
  }

  /** The number a string of digits denotes (most significant digit first). */
  function Value(s: string): nat
    requires AllDigits(s)
    decreases |s|
  {
    if s == [] then 0 else 10 * Value(s[..|s| - 1]) + DigitValue(s[|s| - 1])
  }

  /** Reading back the text `Dec` writes gives the number again. */
  lemma {:induction false} ValueOfDec(n: nat)
    ensures Value(Dec(n)) == n
  {
    if n >= 10 {
      var s := Dec(n);
      assert s[..|s| - 1] == Dec(n / 10);
      ValueOfDec(n / 10);
    }
  }

  /** Distinct numbers have distinct decimal texts. */
  lemma DecInjective(m: nat, n: nat)
    ensures Dec(m) == Dec(n) ==> m == n
  {
    ValueOfDec(m);
    ValueOfDec(n);
  }

  lemma DecInjectiveAll()
    ensures forall m: nat, n: nat :: Dec(m) == Dec(n) ==> m == n
  {
    forall m: nat, n: nat
      ensures Dec(m) == Dec(n) ==> m == n
    {
      DecInjective(m, n);
    }
  }

  /** Two texts with the same prefix and suffix around decimal numbers are
      equal only when the numbers are. */
  lemma FramedDecInjective(pre: string, m: nat, n: nat, post: string)
    ensures pre + Dec(m) + post == pre + Dec(n) + post ==> m == n
  {
    var a := pre + Dec(m) + post;
    var b := pre + Dec(n) + post;
    if a == b {
      assert a[|pre|..|a| - |post|] == Dec(m);
      assert b[|pre|..|b| - |post|] == Dec(n);
      DecInjective(m, n);
    }
  }
}
