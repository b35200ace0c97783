/**
 * The pro-rata split of `recalculatePendingPayments`: the outstanding balance
 * `saldo` (cents) is divided over `n` pending payments. Every payment gets
 * the quotient rounded to the cent; the rounding remainder `ajuste` is then
 * handed out one cent at a time, from the earliest payment on. The
 * remainder here is exact, in cents; the source computes it in doubles,
 * where it need not reach zero, and that drift is not followed.
 */
module ProRata {
  import opened Common

  /** `s / n` rounded to the nearest integer, halves away from zero (`toFixed(2)` on cents). */
  function RoundDiv(s: int, n: nat): (q: int)
    requires n > 0
    ensures 2 * Abs(s - q * n) <= n
  {
    if s >= 0 then RoundDivNat(s, n) else -RoundDivNat(-s, n)
  }

  function RoundDivNat(s: nat, n: nat): (q: int)
    requires n > 0
    ensures 2 * Abs(s - q * n) <= n
  {
    var q := (2 * s + n) / (2 * n);
    assert 2 * n * q <= 2 * s + n < 2 * n * q + 2 * n;
    q
  }

  /** The amounts handed out: `q` each, corrected by one cent towards the remaining `aj` while it is not zero. */
  function Installments(q: int, aj: int, n: nat): (r: seq<int>)
    ensures |r| == n
    decreases n
  {
    if n == 0 then [] else [q + Sign(aj)] + Installments(q, aj - Sign(aj), n - 1)
  }

  /** The split of `saldo` over `n` payments. */
  function Split(saldo: int, n: nat): seq<int>
    requires n > 0
  {
    var q := RoundDiv(saldo, n);
    Installments(q, saldo - q * n, n)
  }

  /** The first `|aj|` payments carry the one-cent correction, the others get exactly `q`. */
  lemma {:induction false} InstallmentsShape(q: int, aj: int, n: nat)
    ensures forall i :: 0 <= i < n ==> Installments(q, aj, n)[i] == q + (if i < Abs(aj) then Sign(aj) else 0)
    decreases n
  {
    if n > 0 {
      InstallmentsShape(q, aj - Sign(aj), n - 1);
      var r := Installments(q, aj, n);
      forall i | 1 <= i < n ensures r[i] == q + (if i < Abs(aj) then Sign(aj) else 0) {
        assert r[i] == Installments(q, aj - Sign(aj), n - 1)[i - 1];
        if aj != 0 {
          assert Abs(aj - Sign(aj)) == Abs(aj) - 1;
          assert Sign(aj - Sign(aj)) == Sign(aj) || aj - Sign(aj) == 0;
        }
      }
    }
  }

  /** When the remainder fits in the payments, the corrections use it up: the amounts add up to `q * n + aj`. */
  lemma {:induction false} InstallmentsSum(q: int, aj: int, n: nat)
    requires Abs(aj) <= n
    ensures Sum(Installments(q, aj, n)) == q * n + aj
    decreases n
  {
    if n > 0 {
      var x := q + Sign(aj);
      var aj' := aj - Sign(aj);
      var rest := Installments(q, aj', n - 1);
      assert Abs(aj') <= n - 1;
      InstallmentsSum(q, aj', n - 1);
      assert Installments(q, aj, n) == [x] + rest;
      SumConcat([x], rest);
      assert Sum([x]) == x by { assert [x][..0] == []; }
      MulStep(q, n);
    }
  }

  lemma MulStep(q: int, n: nat)
    requires n > 0
    ensures q * n == q * (n - 1) + q
  {
  }

  /**
   * The split adds up to the balance exactly, and no two payments differ by
   * more than one cent; the payments that get the extra cent come first.
   */
  lemma SplitFacts(saldo: int, n: nat)
    requires n > 0
    ensures |Split(saldo, n)| == n
    ensures Sum(Split(saldo, n)) == saldo
    ensures forall i, j :: 0 <= i < n && 0 <= j < n ==> Abs(Split(saldo, n)[i] - Split(saldo, n)[j]) <= 1
    ensures var q := RoundDiv(saldo, n);
      forall i :: 0 <= i < n ==> Split(saldo, n)[i] == q + (if i < Abs(saldo - q * n) then Sign(saldo - q * n) else 0)
  {
    var q := RoundDiv(saldo, n);
    var aj := saldo - q * n;
    InstallmentsShape(q, aj, n);
    InstallmentsSum(q, aj, n);
  }

  /** 100.00 over three payments: 33.34, 33.33, 33.33. */
  lemma SplitExample()
    ensures Split(10000, 3) == [3334, 3333, 3333]
  {
    assert RoundDiv(10000, 3) == 3333;
    InstallmentsShape(3333, 1, 3);
  }

  /** The loop of `recalculatePendingPayments`: each payment gets `q` plus the sign of the remaining adjustment. */
  method SplitInOrder(saldo: int, n: nat) returns (amts: seq<int>)
    requires n > 0
    ensures amts == Split(saldo, n)
  {
    var q := RoundDiv(saldo, n);
    var ajuste := saldo - q * n;
    amts := [];
    var k := 0;
    while k < n
      invariant 0 <= k <= n
      invariant amts + Installments(q, ajuste, n - k) == Split(saldo, n)
    {
      var step := if ajuste > 0 then 1 else if ajuste < 0 then -1 else 0;
      amts := amts + [q + step];
      ajuste := ajuste - step;
      k := k + 1;
    }
  }
}
