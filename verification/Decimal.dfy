/** Decimal numerals as sequences of digit values. */
module Decimal {

  ghost predicate AreDigits(ds: seq<nat>) {
    forall i :: 0 <= i < |ds| ==> ds[i] < 10
  }

  /** The digits of a number, most significant first, without leading zeros. */
  function Digits(n: nat): (ds: seq<nat>)
    ensures |ds| >= 1 && AreDigits(ds)
  {
    if n < 10 then [n] else Digits(n / 10) + [n % 10]
  }

  function Number(ds: seq<nat>): nat {
    if ds == [] then 0 else Number(ds[..|ds| - 1]) * 10 + ds[|ds| - 1]
  }

  function Pow10(k: nat): nat {
    if k == 0 then 1 else 10 * Pow10(k - 1)
  }

  lemma {:induction false} NumberOfDigits(n: nat)
    ensures Number(Digits(n)) == n
  {
    if n >= 10 {
      NumberOfDigits(n / 10);
      assert Digits(n)[..|Digits(n)| - 1] == Digits(n / 10);
    } else {
      assert [n][..0] == [];
      assert Number([n]) == Number([n][..0]) * 10 + n;
    }
  }

  lemma {:induction false} NumberBound(ds: seq<nat>)
    requires AreDigits(ds)
    ensures Number(ds) < Pow10(|ds|)
  {
    if ds != [] {
      NumberBound(ds[..|ds| - 1]);
    }
  }

  /** A number has at most `k` digits exactly when it is below ten to the `k`. */
  lemma {:induction false} DigitCount(n: nat, k: nat)
    requires k >= 1
    ensures |Digits(n)| <= k <==> n < Pow10(k)
  {
    if n >= 10 {
      if k == 1 {
        assert Pow10(1) == 10 * Pow10(0);
      } else {
        DigitCount(n / 10, k - 1);
      }
    } else {
      Pow10Positive(k - 1);
    }
  }

  lemma {:induction false} Pow10Positive(k: nat)
    ensures Pow10(k) >= 1
  {
    if k > 0 {
      Pow10Positive(k - 1);
    }
  }
}
