/** Decimal numerals as ASCII character codes. */
module Decimal {

  predicate IsDigit(c: int) {
    48 <= c <= 57
  }

  predicate AllDigits(s: seq<int>) {
    s != [] && forall i :: 0 <= i < |s| ==> IsDigit(s[i])
  }

  function Value(s: seq<int>): nat
    requires forall i :: 0 <= i < |s| ==> IsDigit(s[i])
  {
    if s == [] then 0
    else
      assert IsDigit(s[|s| - 1]);
      10 * Value(s[..|s| - 1]) + s[|s| - 1] - 48
  }

  /** Printing without leading zeros; reading it back gives the number. */
  function Digits(n: nat): (s: seq<int>)
    ensures AllDigits(s)
    ensures Value(s) == n
  {
    if n < 10 then
      var s := [48 + n];
      assert s[..0] == [];
      s
    else
      var s := Digits(n / 10) + [48 + n % 10];
      assert s[..|s| - 1] == Digits(n / 10);
      s
  }

  function Pow10(k: nat): (p: nat)
    ensures p > 0
  {
    if k == 0 then 1 else 10 * Pow10(k - 1)
  }

  lemma {:induction false} DigitsShort(n: nat, k: nat)
    requires 1 <= k && n < Pow10(k)
    ensures |Digits(n)| <= k
  {
    if n >= 10 {
      assert Pow10(1) == 10 * Pow10(0);
      assert k > 1;
      DigitsShort(n / 10, k - 1);
    }
  }
}
