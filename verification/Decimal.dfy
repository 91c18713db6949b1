/** Decimal digits of natural numbers, as fmt prints them and strconv reads them. */
module Decimal {

  /** The digits of n, most significant first, without leading zeros. */
  function Digits(n: nat): (d: seq<int>)
    ensures d != []
    ensures forall i | 0 <= i < |d| :: 0 <= d[i] < 10
  {
    if n < 10 then [n] else Digits(n / 10) + [n % 10]
  }

  function Value(d: seq<int>): int {
    if d == [] then 0 else 10 * Value(d[..|d| - 1]) + d[|d| - 1]
  }

  lemma {:induction false} ValueIsNatural(d: seq<int>)
    requires forall i | 0 <= i < |d| :: d[i] >= 0
    ensures Value(d) >= 0
  {
    if d != [] { ValueIsNatural(d[..|d| - 1]); }
  }

  /** Reading the digits of a number gives it back. */
  lemma {:induction false} ValueOfDigits(n: nat)
    ensures Value(Digits(n)) == n
  {
    if n >= 10 {
      ValueOfDigits(n / 10);
      var d := Digits(n / 10) + [n % 10];
      assert d[..|d| - 1] == Digits(n / 10);
    } else {
      assert [n][..0] == [];
    }
  }

  lemma {:induction false} NoLeadingZero(n: nat)
    requires n > 0
    ensures Digits(n)[0] != 0
  {
    if n >= 10 { NoLeadingZero(n / 10); }
  }

  /** Digits are written from left to right: one more at the end makes the number ten times as large. */
  lemma DigitAppended(n: nat, x: nat)
    requires x < 10
    ensures Digits(10 * n + x) == if n == 0 then [x] else Digits(n) + [x]
  {
    assert (10 * n + x) / 10 == n && (10 * n + x) % 10 == x;
  }

  /** Different numbers print differently. */
  lemma DigitsInjective(m: nat, n: nat)
    ensures Digits(m) == Digits(n) ==> m == n
  {
    ValueOfDigits(m);
    ValueOfDigits(n);
  }
}
