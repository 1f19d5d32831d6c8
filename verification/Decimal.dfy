/** Unsigned decimal numbers as they are printed: no sign, no leading zeros. */
module Decimal {
  import opened Bytes

  predicate IsDigit(c: byte) {
    48 <= c <= 57
  }

  predicate AllDigits(t: Text) {
    forall i :: 0 <= i < |t| ==> IsDigit(t[i])
  }

  function Digits(n: nat): (t: Text)
    ensures AllDigits(t) && t != []
  {
    if n < 10 then [48 + n] else Digits(n / 10) + [48 + n % 10]
  }

  function ValueOf(t: Text): nat
    requires AllDigits(t)
  {
    if t == [] then 0 else ValueOf(t[..|t| - 1]) * 10 + (t[|t| - 1] as int - 48)
  }

  predicate Canonical(t: Text) {
    AllDigits(t) && t != [] && (|t| == 1 || t[0] != 48)
  }

  lemma {:induction false} ValueOfDigits(n: nat)
    ensures Canonical(Digits(n)) && ValueOf(Digits(n)) == n
    ensures n > 0 ==> Digits(n)[0] != 48
  {
    var t := Digits(n);
    if n >= 10 {
      ValueOfDigits(n / 10);
      assert t[..|t| - 1] == Digits(n / 10);
    } else {
      assert t[..0] == [];
    }
  }

  lemma {:induction false} DigitsOfValue(t: Text)
    requires Canonical(t)
    ensures Digits(ValueOf(t)) == t
    ensures t[0] != 48 ==> ValueOf(t) > 0
  {
    if |t| == 1 {
      assert t[..0] == [];
    } else {
      var front := t[..|t| - 1];
      DigitsOfValue(front);
      assert ValueOf(t) / 10 == ValueOf(front);
      assert t == front + [t[|t| - 1]];
    }
  }

  function Pow10(k: nat): nat {
    if k == 0 then 1 else 10 * Pow10(k - 1)
  }

  lemma {:induction false} DigitsLength(n: nat, k: nat)
    requires k >= 1 && n < Pow10(k)
    ensures |Digits(n)| <= k
  {
    if n < 10 {
    } else {
      assert k > 1 by {
        assert Pow10(1) == 10;
      }
      DigitsLength(n / 10, k - 1);
    }
  }
}
