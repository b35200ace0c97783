/**
 * Payment-plan generation of an advance: the periodicity-to-months table and
 * the installments `recalculatePaymentPlan` creates for the balance that is
 * not yet covered by pending payments.
 */
module PaymentPlan {
  import opened Common
  import opened Payments

  /** The periodicities with a month interval. */
  const KnownPeriodicities: seq<string> := ["mensual", "bimestral", "trimestral", "anual"]

  /** Months between two installments; every unknown periodicity gives 0. */
  function MonthsFromPeriodicity(p: string): (r: nat)
  {
    if p == "mensual" then 1
    else if p == "bimestral" then 2
    else if p == "trimestral" then 3
    else if p == "anual" then 12
    else 0
  }

  lemma MonthsFromPeriodicityTable(p: string)
    ensures MonthsFromPeriodicity("mensual") == 1 && MonthsFromPeriodicity("bimestral") == 2
    ensures MonthsFromPeriodicity("trimestral") == 3 && MonthsFromPeriodicity("anual") == 12
    ensures MonthsFromPeriodicity(p) == 0 <==> p !in KnownPeriodicities
    ensures MonthsFromPeriodicity(p) in {0, 1, 2, 3, 12}
  {
  }

  /**
   * The generation loop `while (saldo > 0)` ends exactly when each
   * installment is positive, i.e. when the suggested installment is positive
   * or there is nothing left to plan.
   */
  predicate PlanTerminates(saldo: int, sugerido: int)
  {
    saldo <= 0 || sugerido > 0
  }

  /**
   * The installments created for `saldo`: each one `min(saldo, sugerido)`,
   * regular and pending, the first dated `fecha`, each later one
   * `months` months after the previous one, ids counted up from `id`.
   */
  function PlanPayments(id: nat, saldo: int, sugerido: int, fecha: Date, months: nat, cuenta: int): seq<Payment>
    requires PlanTerminates(saldo, sugerido)
    decreases if saldo > 0 then saldo else 0
  {
    if saldo <= 0 then []
    else
      var m := Min(saldo, sugerido);
      [Payment(id, m, fecha, Regular, Pending, cuenta)] +
      PlanPayments(id + 1, saldo - m, sugerido, AddMonths(fecha, months), months, cuenta)
  }

  /** Each created installment: its id, amount, spacing, kind and state; and how many there are. */
  lemma {:induction false} PlanShape(id: nat, saldo: int, sugerido: int, fecha: Date, months: nat, cuenta: int)
    requires PlanTerminates(saldo, sugerido)
    ensures var r := PlanPayments(id, saldo, sugerido, fecha, months, cuenta);
      && (r == [] <==> saldo <= 0)
      && (saldo > 0 ==> (|r| - 1) * sugerido < saldo <= |r| * sugerido)
      && forall k :: 0 <= k < |r| ==>
           && r[k].id == id + k
           && r[k].fecha == Date(fecha.month + k * months, fecha.day)
           && r[k].tipo == Regular && r[k].estado == Pending && r[k].cuentaDestino == cuenta
           && 0 < r[k].importe <= sugerido
           && r[k].importe == Min(saldo - k * sugerido, sugerido)
    decreases if saldo > 0 then saldo else 0
  {
    var r := PlanPayments(id, saldo, sugerido, fecha, months, cuenta);
    if saldo > 0 {
      var m := Min(saldo, sugerido);
      var f' := AddMonths(fecha, months);
      var rest := PlanPayments(id + 1, saldo - m, sugerido, f', months, cuenta);
      PlanShape(id + 1, saldo - m, sugerido, f', months, cuenta);
      assert r == [Payment(id, m, fecha, Regular, Pending, cuenta)] + rest;
      if m == saldo {
        assert rest == [];
      } else {
        assert m == sugerido;
        assert |r| * sugerido == |rest| * sugerido + sugerido;
        forall k | 1 <= k < |r|
          ensures r[k].importe == Min(saldo - k * sugerido, sugerido)
          ensures r[k].fecha == Date(fecha.month + k * months, fecha.day)
        {
          assert r[k] == rest[k - 1];
          assert saldo - m - (k - 1) * sugerido == saldo - k * sugerido;
          assert f'.month + (k - 1) * months == fecha.month + k * months;
        }
      }
    }
  }

  /** The created installments add up to the balance they cover (nothing when it is not positive). */
  lemma {:induction false} PlanSum(id: nat, saldo: int, sugerido: int, fecha: Date, months: nat, cuenta: int)
    requires PlanTerminates(saldo, sugerido)
    ensures SumPending(PlanPayments(id, saldo, sugerido, fecha, months, cuenta)) == Max(saldo, 0)
    decreases if saldo > 0 then saldo else 0
  {
    if saldo > 0 {
      var m := Min(saldo, sugerido);
      var head := Payment(id, m, fecha, Regular, Pending, cuenta);
      var rest := PlanPayments(id + 1, saldo - m, sugerido, AddMonths(fecha, months), months, cuenta);
      PlanSum(id + 1, saldo - m, sugerido, AddMonths(fecha, months), months, cuenta);
      SumPendingConcat([head], rest);
      assert SumPending([head]) == m by { assert [head][..0] == []; }
    }
  }

  lemma MulMonotone(i: nat, j: nat, m: nat)
    requires i <= j
    ensures i * m <= j * m
  {
    assert j * m == i * m + (j - i) * m;
  }

  /** Installments never run backwards in time, so appending them keeps a list in date order. */
  lemma PlanOrdered(id: nat, saldo: int, sugerido: int, fecha: Date, months: nat, cuenta: int)
    requires PlanTerminates(saldo, sugerido)
    ensures DateOrdered(PlanPayments(id, saldo, sugerido, fecha, months, cuenta))
    ensures forall k :: 0 <= k < |PlanPayments(id, saldo, sugerido, fecha, months, cuenta)| ==>
              !Before(PlanPayments(id, saldo, sugerido, fecha, months, cuenta)[k].fecha, fecha)
  {
    var r := PlanPayments(id, saldo, sugerido, fecha, months, cuenta);
    PlanShape(id, saldo, sugerido, fecha, months, cuenta);
    forall i, j | 0 <= i < j < |r| ensures !Before(r[j].fecha, r[i].fecha) {
      MulMonotone(i, j, months);
      assert r[i].fecha.day == r[j].fecha.day;
    }
    forall k | 0 <= k < |r| ensures !Before(r[k].fecha, fecha) {
      MulMonotone(0, k, months);
    }
  }

  /** 1000.00 with a suggested installment of 300.00, monthly from January: 300, 300, 300 and 100, a month apart. */
  lemma PlanExample(cuenta: int)
    ensures var r := PlanPayments(1, 100000, 30000, Date(2025 * 12, 1), 1, cuenta);
      && Amounts(r) == [30000, 30000, 30000, 10000]
      && r[3].fecha == Date(2025 * 12 + 3, 1)
  {
    var r := PlanPayments(1, 100000, 30000, Date(2025 * 12, 1), 1, cuenta);
    PlanShape(1, 100000, 30000, Date(2025 * 12, 1), 1, cuenta);
    assert |r| == 4;
    assert Amounts(r) == [30000, 30000, 30000, 10000];
  }
}
