/** Decimal numerals as sequences of character codes. */
module Decimal {

  type Text = seq<int>

  predicate IsDigit(u: int) {
    48 <= u <= 57
  }

  predicate AllDigits(s: Text) {
    forall k :: 0 <= k < |s| ==> IsDigit(s[k])
  }

  function Print(n: nat): (s: Text)
    ensures s != [] && AllDigits(s)
    ensures s[0] == 48 <==> n == 0
  {
    if n < 10 then [48 + n] else Print(n / 10) + [48 + n % 10]
  }

  function Value(s: Text): nat
    requires AllDigits(s)
  {
    if s == [] then 0 else 10 * Value(s[..|s| - 1]) + s[|s| - 1] - 48
  }

  lemma {:induction false} ValueOfPrint(n: nat)
    ensures Value(Print(n)) == n
  {
    if n >= 10 {
      ValueOfPrint(n / 10);
      assert Print(n)[..|Print(n)| - 1] == Print(n / 10);
    }
  }

  /** Numerals without leading zeros are exactly the printed ones. */
  lemma {:induction false} PrintOfValue(s: Text)
    requires s != [] && AllDigits(s) && s[0] != 48
    ensures Print(Value(s)) == s
  {
    if |s| > 1 {
      var front := s[..|s| - 1];
      PrintOfValue(front);
      PositiveValue(front);
      assert Value(s) / 10 == Value(front) && Value(s) % 10 == s[|s| - 1] - 48;
      assert s == front + [s[|s| - 1]];
    }
  }

  lemma {:induction false} PositiveValue(s: Text)
    requires s != [] && AllDigits(s) && s[0] != 48
    ensures Value(s) > 0
  {
    if |s| > 1 {
      PositiveValue(s[..|s| - 1]);
    }
  }

  function Pow10(k: nat): nat {
    if k == 0 then 1 else 10 * Pow10(k - 1)
  }

  lemma {:induction false} PrintLength(n: nat, k: nat)
    requires k > 0 && n < Pow10(k)
    ensures |Print(n)| <= k
  {
    if n >= 10 {
      PrintLength(n / 10, k - 1);
    }
  }
}
