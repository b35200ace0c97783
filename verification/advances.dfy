/**
 * The advance ("anticipo") ledger: one advance row and its payments, and the
 * operations of the advance engine over them. Each operation that changes
 * state is a method of `AdvanceLedger`; what it computes is stated by the
 * pure functions of this module, about which the lemmas below prove the
 * engine's promises.
 */
module Advances {
  import opened Common
  import opened Payments
  import opened PaymentPlan
  import Redistribution
  import ProRata

  datatype AdvanceState = Active | Completed        // 'activo' | 'completado'

  /**
   * An advance row. Amounts are cents; the suggested installment is `None`
   * when the column is NULL, and an absent periodicity is "", falsy as in
   * the source.
   */
  datatype Advance = Advance(
    importeTotal: int,
    pagoSugerido: Option<int>,
    fechaInicio: Option<Date>,
    fechaFinPrevista: Option<Date>,
    estado: AdvanceState,
    periodicidad: string,
    cuentaOrigen: int)

  datatype Outcome = Done | Failed(reason: string)

  /** A suggested installment that is truthy: present and not 0. */
  predicate Truthy(sug: Option<int>)
  {
    sug.Some? && sug.value != 0
  }

  /** The suggested installment as the plan loop uses it: a NULL one compares and subtracts as 0. */
  function PlanSugerido(sug: Option<int>): (n: int)
    ensures sug.Some? ==> n == sug.value
    ensures sug.None? ==> n == 0
  {
    if sug.Some? then sug.value else 0
  }

  const AdvanceNotFound := "Anticipo no encontrado"
  const PaymentNotFound := "Pago no encontrado"
  const EmptyIdList := "IN () is not valid SQL"
  /** The driver refuses an `undefined` bind parameter, such as the date of a payment that was never found. */
  const UndefinedBind := "Bind parameters must not contain undefined"

  // ---------------------------------------------------------------------
  // Status transitions of a payment and their effect on the advance
  // ---------------------------------------------------------------------

  /** A payment becomes paid: its amount is debited, and a zero balance completes the advance. */
  function Debit(adv: Advance, importe: int): (r: Advance)
    ensures r.importeTotal == adv.importeTotal - importe
    ensures r.estado == (if r.importeTotal == 0 then Completed else adv.estado)
    ensures r == adv.(importeTotal := r.importeTotal, estado := r.estado)
  {
    var t := adv.importeTotal - importe;
    adv.(importeTotal := t, estado := if t == 0 then Completed else adv.estado)
  }

  /** A paid payment goes back to pending: its amount is credited, and a completed advance with a positive balance reopens. */
  function Credit(adv: Advance, importe: int): (r: Advance)
    ensures r.importeTotal == adv.importeTotal + importe
    ensures r.estado == (if r.importeTotal > 0 && adv.estado == Completed then Active else adv.estado)
    ensures r == adv.(importeTotal := r.importeTotal, estado := r.estado)
  {
    var t := adv.importeTotal + importe;
    adv.(importeTotal := t, estado := if t > 0 && adv.estado == Completed then Active else adv.estado)
  }

  /**
   * The balance side of an edit of a payment: `wasPaid` is the stored state,
   * `estado` the new one; `importe` is the new amount and `prevImporte` the
   * stored one.
   */
  function StatusChange(adv: Advance, wasPaid: bool, estado: PaymentState, importe: int, prevImporte: int): Advance
  {
    if estado == Paid && !wasPaid then Debit(adv, importe)
    else if wasPaid && estado == Pending then Credit(adv, prevImporte)
    else adv
  }

  /** An edit that keeps the payment's state leaves the advance alone. */
  lemma StatusSameState(adv: Advance, estado: PaymentState, importe: int, prevImporte: int)
    ensures StatusChange(adv, estado == Paid, estado, importe, prevImporte) == adv
  {
  }

  /**
   * Paying a pending payment and then setting it back to pending with the
   * same amount restores the balance; an advance that was active is active
   * again unless its balance is not positive.
   */
  lemma StatusRoundTrip(adv: Advance, importe: int, other: int)
    ensures var paid := StatusChange(adv, false, Paid, importe, other);
      var back := StatusChange(paid, true, Pending, other, importe);
      && back.importeTotal == adv.importeTotal
      && (adv.estado == Active && adv.importeTotal > 0 ==> back.estado == Active)
      && back == adv.(estado := back.estado)
  {
  }

  /** Paying completes the advance exactly when the balance reaches zero (or it was completed already). */
  lemma DebitCompletes(adv: Advance, importe: int)
    ensures Debit(adv, importe).estado == Completed <==> adv.importeTotal - importe == 0 || adv.estado == Completed
  {
  }

  /** Reverting a payment reopens the advance exactly when it was completed and the balance becomes positive. */
  lemma CreditReopens(adv: Advance, importe: int)
    ensures Credit(adv, importe).estado == Active <==>
              (adv.estado == Completed && adv.importeTotal + importe > 0) || adv.estado == Active
  {
  }

  /** The status invariant the advance is meant to keep: a completed advance has no positive balance. */
  predicate StatusConsistent(adv: Advance)
  {
    adv.estado == Completed ==> adv.importeTotal <= 0
  }

  /** Debiting a non-negative amount and crediting keep the status invariant. */
  lemma TransitionsKeepConsistent(adv: Advance, importe: int)
    requires StatusConsistent(adv)
    ensures importe >= 0 ==> StatusConsistent(Debit(adv, importe))
    ensures StatusConsistent(Credit(adv, importe))
  {
  }

  /** The balance side of a payment deletion as `deletePago` writes it: the amount is credited, the status is left alone. */
  function DeletionCreditAsWritten(adv: Advance, importe: int): (r: Advance)
    ensures r.importeTotal == adv.importeTotal + importe && r.estado == adv.estado
  {
    adv.(importeTotal := adv.importeTotal + importe)
  }

  /** Deleting a paid payment of a completed advance leaves it completed with a positive balance. */
  lemma DeletionLeavesCompleted()
    ensures var adv := Advance(0, Some(30000), None, None, Completed, "mensual", 1);
      && StatusConsistent(adv)
      && !StatusConsistent(DeletionCreditAsWritten(adv, 30000))
      && StatusConsistent(Credit(adv, 30000))
  {
  }

  /** Deleting a paid payment of 300.00 from an advance with 700.00 outstanding brings the balance back to 1000.00. */
  lemma DeletionCreditExample(adv: Advance)
    requires adv.importeTotal == 70000
    ensures Credit(adv, 30000).importeTotal == 100000
  {
  }

  // ---------------------------------------------------------------------
  // Plan regeneration
  // ---------------------------------------------------------------------

  /** The arguments of a plan regeneration; 0, None and "" are the falsy values. */
  datatype PlanTerms = PlanTerms(importe: int, sugerido: int, fecha: Option<Date>, periodicidad: string)

  /** When any argument is falsy, all four are taken from the advance row instead. */
  function EffectiveTerms(given: PlanTerms, adv: Advance): (t: PlanTerms)
    ensures given.importe != 0 && given.sugerido != 0 && given.fecha.Some? && given.periodicidad != "" ==> t == given
    ensures given.importe == 0 || given.sugerido == 0 || given.fecha.None? || given.periodicidad == "" ==>
              t == PlanTerms(adv.importeTotal, PlanSugerido(adv.pagoSugerido), adv.fechaInicio, adv.periodicidad)
  {
    if given.importe == 0 || given.sugerido == 0 || given.fecha.None? || given.periodicidad == "" then
      PlanTerms(adv.importeTotal, PlanSugerido(adv.pagoSugerido), adv.fechaInicio, adv.periodicidad)
    else given
  }

  /** `new Date(null)`: the epoch, 1 January 1970. */
  const Epoch := Date(1970 * 12, 1)

  /**
   * The due date of the first new installment: the start date when the
   * advance has no payments, otherwise `months` after the last one.
   */
  function FirstDue(s: seq<Payment>, start: Option<Date>, months: nat): (d: Date)
    ensures s == [] ==> d == (if start.Some? then start.value else Epoch)
    ensures s != [] ==> d == AddMonths(s[|s| - 1].fecha, months)
  {
    if s == [] then (if start.Some? then start.value else Epoch)
    else AddMonths(s[|s| - 1].fecha, months)
  }

  /** Every payment of a date-ordered list is due no later than its last one, hence no later than `FirstDue`. */
  lemma FirstDueAfterAll(s: seq<Payment>, start: Option<Date>, months: nat)
    requires DateOrdered(s)
    ensures forall i :: 0 <= i < |s| ==> !Before(FirstDue(s, start, months), s[i].fecha)
  {
  }

  /** Appending a list due no earlier than `d` to a list due no later than `d` keeps date order. */
  lemma AppendOrdered(a: seq<Payment>, b: seq<Payment>, d: Date)
    requires DateOrdered(a) && DateOrdered(b)
    requires forall i :: 0 <= i < |a| ==> !Before(d, a[i].fecha)
    requires forall j :: 0 <= j < |b| ==> !Before(b[j].fecha, d)
    ensures DateOrdered(a + b)
  {
    forall i, j | 0 <= i < j < |a + b| ensures !Before((a + b)[j].fecha, (a + b)[i].fecha) {
      if j >= |a| && i < |a| {
        assert (a + b)[j] == b[j - |a|] && (a + b)[i] == a[i];
      }
    }
  }

  /** The plan appended by a regeneration keeps the payments in date order with fresh, distinct ids. */
  lemma PlanAppendValid(s: seq<Payment>, nextId: nat, saldo: int, sugerido: int, start: Option<Date>, months: nat, cuenta: int)
    requires DateOrdered(s) && DistinctIds(s) && IdsBelow(s, nextId)
    requires PlanTerminates(saldo, sugerido)
    ensures var plan := PlanPayments(nextId, saldo, sugerido, FirstDue(s, start, months), months, cuenta);
      DateOrdered(s + plan) && DistinctIds(s + plan) && IdsBelow(s + plan, nextId + |plan|)
  {
    var d := FirstDue(s, start, months);
    var plan := PlanPayments(nextId, saldo, sugerido, d, months, cuenta);
    PlanShape(nextId, saldo, sugerido, d, months, cuenta);
    PlanOrdered(nextId, saldo, sugerido, d, months, cuenta);
    FirstDueAfterAll(s, start, months);
    AppendOrdered(s, plan, d);
    var r := s + plan;
    forall i, j | 0 <= i < j < |r| ensures r[i].id != r[j].id {
      if j >= |s| {
        assert r[j] == plan[j - |s|];
        if i >= |s| { assert r[i] == plan[i - |s|]; }
      }
    }
  }

  // ---------------------------------------------------------------------
  // Post-edit redistribution
  // ---------------------------------------------------------------------

  /** The positions of the payments dated after the edited one's old date that are still pending, in date order. */
  function LaterPositions(s: seq<Payment>, prevFecha: Option<Date>): (r: seq<nat>)
    ensures Redistribution.InRange(r, |s|)
    ensures forall k: int :: k in r <==> 0 <= k < |s| && LaterPending(s[k], prevFecha)
  {
    var r := Positions(s, p => LaterPending(p, prevFecha));
    assert forall i :: 0 <= i < |r| ==> r[i] in r;
    r
  }

  /** The redistribution changes candidate positions only. */
  lemma RedistributeFrame(amt: seq<int>, cand: seq<nat>, sug: Option<int>, diff: int)
    requires Redistribution.InRange(cand, |amt|)
    ensures forall k :: 0 <= k < |amt| && k !in cand ==> Redistribution.Redistribute(amt, cand, sug, diff)[k] == amt[k]
  {
    if diff > 0 && cand != [] {
      Redistribution.RedistributeSurplus(amt, cand, sug, diff);
    } else if diff < 0 && cand != [] {
      Redistribution.RedistributeDeficitFrame(amt, cand, sug, diff);
    }
  }

  /**
   * The difference moved onto the later pending payments: only those can
   * change, and only in amount.
   */
  function MoveDifference(s: seq<Payment>, sug: Option<int>, diff: int, prevFecha: Option<Date>): (m: seq<Payment>)
    ensures |m| == |s|
    ensures forall i :: 0 <= i < |s| ==> m[i] == s[i].(importe := m[i].importe)
    ensures forall i :: 0 <= i < |s| && !LaterPending(s[i], prevFecha) ==> m[i] == s[i]
    ensures LastPending(m) == LastPending(s)
  {
    var cand := LaterPositions(s, prevFecha);
    var amt := Amounts(s);
    var m := WithAmounts(s, Redistribution.Redistribute(amt, cand, sug, diff));
    RedistributeFrame(amt, cand, sug, diff);
    SameStatesSameLast(s, m);
    m
  }

  /**
   * What `recalculatePostEditPayments` does to the payments once the advance
   * is found: nothing when there is no difference or no later pending
   * payment; otherwise the difference is moved onto the later pending
   * payments and the last pending payment absorbs any discrepancy with the
   * balance `total`. Only amounts change, and only those of the later
   * pending payments and of the last pending one; afterwards the pending
   * payments are within one cent of `total` unless the last one had to be
   * floored at one cent.
   */
  function PostEdit(s: seq<Payment>, total: int, sug: Option<int>, diff: int, prevFecha: Option<Date>): (r: seq<Payment>)
    ensures |r| == |s|
    ensures forall i :: 0 <= i < |s| ==> r[i] == s[i].(importe := r[i].importe)
    ensures forall i :: 0 <= i < |s| && !LaterPending(s[i], prevFecha) && Some(i) != LastPending(s) ==> r[i] == s[i]
    ensures diff == 0 || LaterPositions(s, prevFecha) == [] ==> r == s
    ensures diff != 0 && LaterPositions(s, prevFecha) != [] ==>
              && LastPending(s).Some?
              && (total - 1 <= SumPending(r) <= total + 1 || r[LastPending(s).value].importe == 1)
  {
    var cand := LaterPositions(s, prevFecha);
    if diff == 0 || cand == [] then s
    else
      assert cand[0] in cand;
      var m := MoveDifference(s, sug, diff, prevFecha);
      ReconcileWithin(m, total, LastPending(s).value);
      Reconcile(m, total)
  }

  /** The amount freed by an edit (`previousImporte - newImporte`): positive when the payment shrank. */
  function Difference(prev: int, nuevo: int): (d: int)
    ensures d == 0 <==> prev == nuevo
    ensures d > 0 <==> nuevo < prev
  {
    prev - nuevo
  }

  /** Changing amounts only keeps which payment is the last pending one. */
  lemma SameStatesSameLast(s: seq<Payment>, t: seq<Payment>)
    requires |t| == |s| && forall i :: 0 <= i < |s| ==> t[i] == s[i].(importe := t[i].importe)
    ensures LastPending(t) == LastPending(s)
  {
    if s != [] {
      SameStatesSameLast(s[..|s| - 1], t[..|t| - 1]);
    }
  }

  // ---------------------------------------------------------------------
  // Pro-rata recalculation of the pending payments
  // ---------------------------------------------------------------------

  /** The amounts of the pending payments, in list order. */
  function PendingAmounts(s: seq<Payment>): (r: seq<int>)
    ensures |r| <= |s|
  {
    if s == [] then []
    else PendingAmounts(s[..|s| - 1]) + (if IsPending(s[|s| - 1]) then [s[|s| - 1].importe] else [])
  }

  /** The pending sum is the sum of the pending amounts. */
  lemma {:induction false} SumPendingAmounts(s: seq<Payment>)
    ensures SumPending(s) == Sum(PendingAmounts(s))
    decreases |s|
  {
    if s != [] {
      var last := s[|s| - 1];
      var tail := if IsPending(last) then [last.importe] else [];
      SumPendingAmounts(s[..|s| - 1]);
      SumConcat(PendingAmounts(s[..|s| - 1]), tail);
      assert Sum(tail) == PendingPart(last) by {
        if IsPending(last) { assert tail[..0] == []; }
      }
    }
  }

  /** The same payments with the pending ones given the amounts `amts`, in order. */
  function ReplacePending(s: seq<Payment>, amts: seq<int>): (r: seq<Payment>)
    requires |amts| == |PendingAmounts(s)|
    ensures |r| == |s|
    ensures forall i :: 0 <= i < |s| ==> r[i] == s[i].(importe := r[i].importe)
    ensures forall i :: 0 <= i < |s| && !IsPending(s[i]) ==> r[i] == s[i]
  {
    if s == [] then []
    else
      var init := s[..|s| - 1];
      var last := s[|s| - 1];
      if IsPending(last) then ReplacePending(init, amts[..|amts| - 1]) + [last.(importe := amts[|amts| - 1])]
      else ReplacePending(init, amts) + [last]
  }

  /** The pending payments receive exactly the amounts `amts`, in order. */
  lemma {:induction false} ReplacePendingAmounts(s: seq<Payment>, amts: seq<int>)
    requires |amts| == |PendingAmounts(s)|
    ensures PendingAmounts(ReplacePending(s, amts)) == amts
    decreases |s|
  {
    if s != [] {
      var init := s[..|s| - 1];
      var last := s[|s| - 1];
      var r := ReplacePending(s, amts);
      if IsPending(last) {
        var a := amts[..|amts| - 1];
        calc {
          PendingAmounts(r);
        ==  { assert IsPending(r[|r| - 1]) && r[|r| - 1].importe == amts[|amts| - 1]; }
          PendingAmounts(r[..|r| - 1]) + [amts[|amts| - 1]];
        ==  { assert r[..|r| - 1] == ReplacePending(init, a); }
          PendingAmounts(ReplacePending(init, a)) + [amts[|amts| - 1]];
        ==  { ReplacePendingAmounts(init, a); }
          a + [amts[|amts| - 1]];
        ==
          amts;
        }
      } else {
        calc {
          PendingAmounts(r);
        ==  { assert !IsPending(r[|r| - 1]); }
          PendingAmounts(r[..|r| - 1]);
        ==  { assert r[..|r| - 1] == ReplacePending(init, amts); }
          PendingAmounts(ReplacePending(init, amts));
        ==  { ReplacePendingAmounts(init, amts); }
          amts;
        }
      }
    }
  }

  /**
   * After the pro-rata recalculation the pending payments carry the split
   * of the balance in order: they add up to the balance exactly and no two
   * differ by more than one cent.
   */
  lemma ProRataOutcome(s: seq<Payment>, total: int)
    requires PendingAmounts(s) != []
    ensures var n := |PendingAmounts(s)|;
      var r := ReplacePending(s, ProRata.Split(total, n));
      && PendingAmounts(r) == ProRata.Split(total, n)
      && SumPending(r) == total
      && (forall i, j :: 0 <= i < n && 0 <= j < n ==> -1 <= PendingAmounts(r)[i] - PendingAmounts(r)[j] <= 1)
  {
    var n := |PendingAmounts(s)|;
    var split := ProRata.Split(total, n);
    ProRata.SplitFacts(total, n);
    var r := ReplacePending(s, split);
    ReplacePendingAmounts(s, split);
    SumPendingAmounts(r);
  }

  /** Payments that differ from `s` at most in their amounts. */
  ghost predicate AmountsOnly(s: seq<Payment>, r: seq<Payment>)
  {
    |r| == |s| && forall i :: 0 <= i < |s| ==> r[i] == s[i].(importe := r[i].importe)
  }

  /** Changing amounts only keeps the ledger invariant. */
  lemma AmountsOnlyValid(s: seq<Payment>, r: seq<Payment>, bound: nat)
    requires AmountsOnly(s, r)
    requires DateOrdered(s) && DistinctIds(s) && IdsBelow(s, bound)
    ensures DateOrdered(r) && DistinctIds(r) && IdsBelow(r, bound)
  {
  }

  /** Adding a payment whose id no listed payment has keeps the ids distinct. */
  lemma InsertDistinct(s: seq<Payment>, p: Payment)
    requires DistinctIds(s) && forall i :: 0 <= i < |s| ==> s[i].id != p.id
    ensures DistinctIds(InsertByDate(s, p))
  {
    var k := InsertPos(s, p.fecha);
    var r := InsertByDate(s, p);
    InsertByDateAt(s, p);
    forall a, b | 0 <= a < b < |r| ensures r[a].id != r[b].id {
      if a != k && b != k {
        assert r[a] == s[if a < k then a else a - 1] && r[b] == s[if b < k then b else b - 1];
      } else if a == k {
        assert r[b] == s[b - 1];
      } else {
        assert r[a] == s[a];
      }
    }
  }

  /** Adding a payment with a fresh id in date order keeps the ledger invariant. */
  lemma InsertFreshValid(s: seq<Payment>, p: Payment, bound: nat)
    requires DateOrdered(s) && DistinctIds(s) && IdsBelow(s, bound) && p.id >= bound
    ensures DateOrdered(InsertByDate(s, p)) && DistinctIds(InsertByDate(s, p)) && IdsBelow(InsertByDate(s, p), p.id + 1)
  {
    InsertByDateOrdered(s, p);
    InsertDistinct(s, p);
    InsertByDateAt(s, p);
  }

  /** Removing a payment keeps the ledger invariant, and no remaining payment has its id. */
  lemma RemoveValid(s: seq<Payment>, k: nat, bound: nat)
    requires k < |s|
    requires DateOrdered(s) && DistinctIds(s) && IdsBelow(s, bound)
    ensures var t := RemoveAt(s, k);
      && DateOrdered(t) && DistinctIds(t) && IdsBelow(t, bound)
      && forall i :: 0 <= i < |t| ==> t[i].id != s[k].id
  {
    var t := RemoveAt(s, k);
    RemoveAtFacts(s, k);
    RemoveAtOrdered(s, k);
    forall a, b | 0 <= a < b < |t| ensures t[a].id != t[b].id {
      assert t[a] == s[if a < k then a else a + 1] && t[b] == s[if b < k then b else b + 1];
    }
    forall i | 0 <= i < |t| ensures t[i].id != s[k].id {
      assert t[i] == s[if i < k then i else i + 1];
    }
  }

  /** Removing the payment at `k` and inserting `p` with its id keeps the ledger invariant. */
  lemma ReplaceValid(s: seq<Payment>, k: nat, p: Payment, bound: nat)
    requires k < |s| && p.id == s[k].id
    requires DateOrdered(s) && DistinctIds(s) && IdsBelow(s, bound)
    ensures var r := InsertByDate(RemoveAt(s, k), p);
      DateOrdered(r) && DistinctIds(r) && IdsBelow(r, bound)
  {
    var t := RemoveAt(s, k);
    RemoveValid(s, k, bound);
    InsertByDateOrdered(t, p);
    InsertDistinct(t, p);
    InsertByDateAt(t, p);
  }

  /** A prefix never has more pending payments than the whole list. */
  lemma {:induction false} PendingAmountsPrefix(s: seq<Payment>, k: nat)
    requires k <= |s|
    ensures |PendingAmounts(s[..k])| <= |PendingAmounts(s)|
    decreases |s| - k
  {
    if k < |s| {
      PendingAmountsPrefix(s, k + 1);
      assert s[..k + 1][..k] == s[..k];
    } else {
      assert s[..k] == s;
    }
  }

  // ---------------------------------------------------------------------
  // Rows written by the advance and payment upserts
  // ---------------------------------------------------------------------

  /** The row `pushAdvance` stores: the given values, completed when the total is zero. */
  function AdvanceRow(importe: int, sug: Option<int>, fechaInicio: Option<Date>, fechaFin: Option<Date>,
                      estado: AdvanceState, cuenta: int, per: string): (r: Advance)
    ensures r.estado == (if importe == 0 then Completed else estado)
    ensures r == Advance(importe, sug, fechaInicio, fechaFin, r.estado, per, cuenta)
  {
    Advance(importe, sug, fechaInicio, fechaFin, if importe == 0 then Completed else estado, per, cuenta)
  }

  /** The plan terms as stored in the advance row. */
  function StoredTerms(adv: Advance): PlanTerms
  {
    PlanTerms(adv.importeTotal, PlanSugerido(adv.pagoSugerido), adv.fechaInicio, adv.periodicidad)
  }

  /** The balance left to plan: the total minus every pending payment, subtracted one by one. */
  method PendingBalance(total: int, s: seq<Payment>) returns (saldo: int)
    ensures saldo == total - SumPending(s)
  {
    saldo := total;
    for i := 0 to |s|
      invariant saldo == total - SumPending(s[..i])
    {
      assert s[..i + 1][..i] == s[..i];
      if s[i].estado == Pending {
        saldo := saldo - s[i].importe;
      }
    }
    assert s[..|s|] == s;
  }

  /**
   * The generation loop of `recalculatePaymentPlan`: while a balance is
   * left, one installment of the suggested amount (or the rest) per period;
   * `last` is the date of the last installment created.
   */
  method GenerateInstallments(id: nat, saldo0: int, sug: int, fecha0: Date, months: nat, cuenta: int)
      returns (created: seq<Payment>, last: Option<Date>)
    requires PlanTerminates(saldo0, sug)
    ensures created == PlanPayments(id, saldo0, sug, fecha0, months, cuenta)
    ensures last == (if created == [] then None else Some(created[|created| - 1].fecha))
  {
    created := [];
    last := None;
    var saldo := saldo0;
    var fecha := fecha0;
    while saldo > 0
      invariant PlanTerminates(saldo, sug)
      invariant created + PlanPayments(id + |created|, saldo, sug, fecha, months, cuenta) == PlanPayments(id, saldo0, sug, fecha0, months, cuenta)
      invariant last == (if created == [] then None else Some(created[|created| - 1].fecha))
      decreases saldo
    {
      var importePago := if saldo > sug then sug else saldo;
      var p := Payment(id + |created|, importePago, fecha, Regular, Pending, cuenta);
      ghost var tail := PlanPayments(id + |created| + 1, saldo - importePago, sug, AddMonths(fecha, months), months, cuenta);
      assert PlanPayments(id + |created|, saldo, sug, fecha, months, cuenta) == [p] + tail;
      assert created + ([p] + tail) == (created + [p]) + tail;
      created := created + [p];
      saldo := saldo - importePago;
      last := Some(fecha);
      fecha := AddMonths(fecha, months);
    }
    assert created == PlanPayments(id, saldo0, sug, fecha0, months, cuenta);
  }

  /** The installments a regeneration with terms `t` appends to `s`, numbered from `nextId`. */
  function Replan(s: seq<Payment>, t: PlanTerms, cuenta: int, nextId: nat): seq<Payment>
    requires PlanTerminates(t.importe - SumPending(s), t.sugerido)
  {
    var months := MonthsFromPeriodicity(t.periodicidad);
    PlanPayments(nextId, t.importe - SumPending(s), t.sugerido, FirstDue(s, t.fecha, months), months, cuenta)
  }

  /**
   * After a regeneration the pending payments cover the total: they add up
   * to it, unless they already exceeded it, in which case nothing is added.
   */
  lemma ReplanCovers(s: seq<Payment>, t: PlanTerms, cuenta: int, nextId: nat)
    requires PlanTerminates(t.importe - SumPending(s), t.sugerido)
    ensures SumPending(s + Replan(s, t, cuenta, nextId)) == Max(t.importe, SumPending(s))
    ensures Replan(s, t, cuenta, nextId) == [] <==> t.importe <= SumPending(s)
  {
    var months := MonthsFromPeriodicity(t.periodicidad);
    var d := FirstDue(s, t.fecha, months);
    SumPendingConcat(s, Replan(s, t, cuenta, nextId));
    PlanSum(nextId, t.importe - SumPending(s), t.sugerido, d, months, cuenta);
    PlanShape(nextId, t.importe - SumPending(s), t.sugerido, d, months, cuenta);
  }

  /** The advance after a regeneration: the expected end date becomes the last new installment's date. */
  function WithPlanEnd(adv: Advance, plan: seq<Payment>): (r: Advance)
    ensures plan == [] ==> r == adv
    ensures plan != [] ==> r == adv.(fechaFinPrevista := Some(plan[|plan| - 1].fecha))
  {
    if plan == [] then adv else adv.(fechaFinPrevista := Some(plan[|plan| - 1].fecha))
  }

  /** What an edit reads before it writes: whether the payment was paid, its amount (0 when absent) and its date. */
  datatype Prior = Prior(wasPaid: bool, importe: int, fecha: Option<Date>)

  function PriorOf(s: seq<Payment>, pid: nat): (r: Prior)
    ensures r.fecha.None? <==> forall i :: 0 <= i < |s| ==> s[i].id != pid
    ensures r.fecha.None? ==> r == Prior(false, 0, None)
    ensures r.fecha.Some? ==>
              exists i :: 0 <= i < |s| && s[i].id == pid && r == Prior(s[i].estado == Paid, s[i].importe, Some(s[i].fecha))
  {
    match IndexOf(s, pid)
    case None => Prior(false, 0, None)
    case Some(k) => Prior(s[k].estado == Paid, s[k].importe, Some(s[k].fecha))
  }

  /** The payments after the UPDATE of an edit: the payment gets the new values and moves to its new date's place. */
  function Edit(s: seq<Payment>, pid: nat, importe: int, fecha: Date, tipo: PaymentKind, estado: PaymentState, cuenta: int): seq<Payment>
  {
    match IndexOf(s, pid)
    case None => s
    case Some(k) =>
      InsertByDate(RemoveAt(s, k), s[k].(importe := importe, fecha := fecha, tipo := tipo, estado := estado, cuentaDestino := cuenta))
  }

  /** An edit replaces the edited payment's pending contribution and keeps every other payment. */
  lemma EditSum(s: seq<Payment>, pid: nat, importe: int, fecha: Date, tipo: PaymentKind, estado: PaymentState, cuenta: int)
    ensures var prior := PriorOf(s, pid);
      var r := Edit(s, pid, importe, fecha, tipo, estado, cuenta);
      && (IndexOf(s, pid).None? ==> r == s)
      && (IndexOf(s, pid).Some? ==>
            && |r| == |s|
            && SumPending(r) == SumPending(s) - (if prior.wasPaid then 0 else prior.importe) + (if estado == Pending then importe else 0))
  {
    match IndexOf(s, pid)
    case None =>
    case Some(k) =>
      var p := s[k].(importe := importe, fecha := fecha, tipo := tipo, estado := estado, cuentaDestino := cuenta);
      RemoveAtFacts(s, k);
  }

  /** A plan of 300.00, 300.00, 300.00 and 100.00, monthly, all pending. */
  function ExamplePlan(c: int): (s: seq<Payment>)
  {
    [Payment(1, 30000, Date(1, 1), Regular, Pending, c), Payment(2, 20000, Date(2, 1), Regular, Pending, c),
     Payment(3, 30000, Date(3, 1), Regular, Pending, c), Payment(4, 10000, Date(4, 1), Regular, Pending, c)]
  }

  /** A strictly increasing sequence of positions spans at least its length. */
  lemma {:induction false} IncreasingSpread(r: seq<nat>)
    requires forall i, j :: 0 <= i < j < |r| ==> r[i] < r[j]
    ensures |r| > 0 ==> r[0] + |r| - 1 <= r[|r| - 1]
    decreases |r|
  {
    if |r| > 1 {
      IncreasingSpread(r[..|r| - 1]);
      assert r[|r| - 2] < r[|r| - 1];
    }
  }

  lemma ExampleLater(c: int)
    ensures LaterPositions(ExamplePlan(c), Some(Date(2, 1))) == [2, 3]
  {
    var s := ExamplePlan(c);
    var cand := LaterPositions(s, Some(Date(2, 1)));
    assert cand == Positions(s, p => LaterPending(p, Some(Date(2, 1))));
    assert forall k: int :: k in cand <==> k == 2 || k == 3;
    assert 2 in cand;
    IncreasingSpread(cand);
    assert cand[0] in cand && cand[|cand| - 1] in cand;
    assert |cand| <= 2;
    assert 3 in cand;
    assert cand[0] == 2 && cand[1] == 3;
  }

  lemma ExampleSum(c: int)
    ensures SumPending(WithAmounts(ExamplePlan(c), [30000, 20000, 30000, 20000])) == 100000
  {
    var moved := WithAmounts(ExamplePlan(c), [30000, 20000, 30000, 20000]);
    assert moved[..1][..0] == [];
    assert SumPending(moved[..1]) == 30000;
    assert moved[..2][..1] == moved[..1];
    assert SumPending(moved[..2]) == 50000;
    assert moved[..3][..2] == moved[..2];
    assert SumPending(moved[..3]) == 80000;
    assert moved[..4][..3] == moved[..3];
    assert moved[..4] == moved;
  }

  /**
   * With a balance of 1000.00, editing the second payment of the example
   * plan down to 200.00 moves the 100.00 onto the smallest later payment.
   */
  lemma PostEditExample(c: int)
    ensures Amounts(PostEdit(ExamplePlan(c), 100000, Some(30000), 10000, Some(Date(2, 1)))) == [30000, 20000, 30000, 20000]
  {
    var s := ExamplePlan(c);
    var moved := WithAmounts(s, [30000, 20000, 30000, 20000]);
    ExampleLater(c);
    ExampleMove(c);
    ExampleSum(c);
    assert PostEdit(s, 100000, Some(30000), 10000, Some(Date(2, 1))) == Reconcile(moved, 100000);
  }

  lemma ExampleMove(c: int)
    ensures MoveDifference(ExamplePlan(c), Some(30000), 10000, Some(Date(2, 1))) == WithAmounts(ExamplePlan(c), [30000, 20000, 30000, 20000])
  {
    var s := ExamplePlan(c);
    ExampleLater(c);
    Redistribution.RedistributeExample();
    assert Amounts(s) == [30000, 20000, 30000, 10000];
    var amts := Redistribution.Redistribute(Amounts(s), LaterPositions(s, Some(Date(2, 1))), Some(30000), 10000);
    assert amts == [30000, 20000, 30000, 20000];
    assert MoveDifference(s, Some(30000), 10000, Some(Date(2, 1))) == WithAmounts(s, amts);
  }

  /** The payment updates of `recalculatePostEditPayments` once the advance is found. */
  method PostEditInOrder(s: seq<Payment>, total: int, sug: Option<int>, diff: int, prevFecha: Option<Date>) returns (r: seq<Payment>)
    requires diff != 0
    ensures r == PostEdit(s, total, sug, diff, prevFecha)
    ensures AmountsOnly(s, r)
  {
    var cand := LaterPositions(s, prevFecha);
    if cand == [] {
      return s;
    }
    var amts := Redistribution.RedistributeDifference(Amounts(s), cand, sug, diff);
    r := WithAmounts(s, amts);
    assert r == MoveDifference(s, sug, diff, prevFecha);
    r := Reconcile(r, total);
  }

  /** The update loop of `recalculatePendingPayments`: the pending payments get `amts`, in date order. */
  method ApplyPendingAmounts(s: seq<Payment>, amts: seq<int>) returns (r: seq<Payment>)
    requires |amts| == |PendingAmounts(s)|
    ensures r == ReplacePending(s, amts)
    ensures AmountsOnly(s, r)
  {
    r := [];
    var j := 0;
    for k := 0 to |s|
      invariant j == |PendingAmounts(s[..k])| && j <= |amts|
      invariant r == ReplacePending(s[..k], amts[..j])
    {
      ReplacePendingSnoc(s, k, amts, j);
      if s[k].estado == Pending {
        r := r + [s[k].(importe := amts[j])];
        j := j + 1;
      } else {
        r := r + [s[k]];
      }
    }
    assert s[..|s|] == s;
    assert amts[..j] == amts;
  }

  /** One more payment of the prefix: a pending one takes the next amount, any other stays as it is. */
  lemma ReplacePendingSnoc(s: seq<Payment>, k: nat, amts: seq<int>, j: nat)
    requires k < |s| && |amts| == |PendingAmounts(s)| && j == |PendingAmounts(s[..k])|
    ensures IsPending(s[k]) ==> j < |amts|
    ensures var j' := if IsPending(s[k]) then j + 1 else j;
      && j' == |PendingAmounts(s[..k + 1])| && j' <= |amts|
      && ReplacePending(s[..k + 1], amts[..j']) ==
           ReplacePending(s[..k], amts[..j]) + [if IsPending(s[k]) then s[k].(importe := amts[j]) else s[k]]
  {
    PendingAmountsPrefix(s, k + 1);
    assert s[..k + 1][..k] == s[..k];
    if IsPending(s[k]) {
      assert amts[..j + 1][..j] == amts[..j];
    }
  }

  // ---------------------------------------------------------------------
  // The ledger
  // ---------------------------------------------------------------------

  /**
   * One advance and its payments as the store holds them: `stored` says
   * whether the advance row exists (a deleted or unknown advance leaves the
   * payment rows it had), `pagos` are its payments in due-date order, and
   * `nextId` is the id the next inserted payment receives.
   */
  class AdvanceLedger {
    var id: nat
    var stored: bool
    var advance: Advance
    var pagos: seq<Payment>
    var nextId: nat

    ghost predicate Valid()
      reads this
    {
      DateOrdered(pagos) && DistinctIds(pagos) && IdsBelow(pagos, nextId)
    }

    /**
     * `recalculatePaymentPlan`: the terms are the given ones, or all four
     * stored ones when any given one is falsy; the balance not covered by
     * pending payments is planned in installments after the last payment,
     * and the expected end date moves to the last new installment.
     */
    method RecalculatePaymentPlan(given: PlanTerms) returns (out: Outcome)
      requires Valid()
      requires stored ==> PlanTerminates(EffectiveTerms(given, advance).importe - SumPending(pagos), EffectiveTerms(given, advance).sugerido)
      modifies this
      ensures Valid() && id == old(id) && stored == old(stored)
      ensures !stored ==> out == Failed(AdvanceNotFound) && advance == old(advance) && pagos == old(pagos) && nextId == old(nextId)
      ensures stored ==>
                var plan := Replan(old(pagos), EffectiveTerms(given, old(advance)), old(advance).cuentaOrigen, old(nextId));
                && out == Done
                && pagos == old(pagos) + plan
                && nextId == old(nextId) + |plan|
                && advance == WithPlanEnd(old(advance), plan)
    {
      if !stored {
        return Failed(AdvanceNotFound);
      }
      ExtendPlan(EffectiveTerms(given, advance));
      out := Done;
    }

    /** The generation part of `recalculatePaymentPlan`, with the terms in effect. */
    method ExtendPlan(t: PlanTerms)
      requires Valid() && stored
      requires PlanTerminates(t.importe - SumPending(pagos), t.sugerido)
      modifies this
      ensures Valid() && id == old(id) && stored
      ensures var plan := Replan(old(pagos), t, old(advance).cuentaOrigen, old(nextId));
        && pagos == old(pagos) + plan
        && nextId == old(nextId) + |plan|
        && advance == WithPlanEnd(old(advance), plan)
    {
      var months := MonthsFromPeriodicity(t.periodicidad);
      var cuenta := advance.cuentaOrigen;
      var saldo := PendingBalance(t.importe, pagos);
      var fecha := if pagos == [] then (if t.fecha.Some? then t.fecha.value else Epoch) else AddMonths(pagos[|pagos| - 1].fecha, months);
      PlanAppendValid(pagos, nextId, saldo, t.sugerido, t.fecha, months, cuenta);
      var created, last := GenerateInstallments(nextId, saldo, t.sugerido, fecha, months, cuenta);
      pagos := pagos + created;
      nextId := nextId + |created|;
      if last.Some? {
        advance := advance.(fechaFinPrevista := last);
      }
    }

    /**
     * The insert path of `pushAdvance`: a new advance row, completed when its
     * total is zero, and its first plan when a periodicity and a suggested
     * installment are given.
     */
    constructor Create(id: nat, importe: int, sug: Option<int>, fechaInicio: Option<Date>, fechaFin: Option<Date>,
                       estado: AdvanceState, cuenta: int, per: string)
      requires per != "" && Truthy(sug) ==> PlanTerminates(importe, sug.value)
      ensures Valid() && this.id == id && stored
      ensures var row := AdvanceRow(importe, sug, fechaInicio, fechaFin, estado, cuenta, per);
        if per != "" && Truthy(sug) then
          var plan := Replan([], PlanTerms(importe, sug.value, fechaInicio, per), cuenta, 1);
          pagos == plan && nextId == 1 + |plan| && advance == WithPlanEnd(row, plan)
        else
          pagos == [] && nextId == 1 && advance == row
    {
      this.id := id;
      stored := true;
      advance := AdvanceRow(importe, sug, fechaInicio, fechaFin, estado, cuenta, per);
      pagos := [];
      nextId := 1;
      new;
      if per != "" && Truthy(sug) {
        var _ := RecalculatePaymentPlan(PlanTerms(importe, sug.value, fechaInicio, per));
      }
    }

    /**
     * The update path of `pushAdvance`: the row is overwritten (nothing
     * happens to a missing row), completed when the total is zero, and the
     * plan is regenerated when a periodicity and a suggested installment are
     * given, which fails for a missing row.
     */
    method PushAdvance(importe: int, sug: Option<int>, fechaInicio: Option<Date>, fechaFin: Option<Date>,
                       estado: AdvanceState, cuenta: int, per: string) returns (out: Outcome)
      requires Valid()
      requires per != "" && Truthy(sug) && stored ==> PlanTerminates(importe - SumPending(pagos), sug.value)
      modifies this
      ensures Valid() && id == old(id) && stored == old(stored)
      ensures var row := if stored then AdvanceRow(importe, sug, fechaInicio, fechaFin, estado, cuenta, per) else old(advance);
        if per != "" && Truthy(sug) && stored then
          var plan := Replan(old(pagos), PlanTerms(importe, sug.value, fechaInicio, per), cuenta, old(nextId));
          out == Done && pagos == old(pagos) + plan && nextId == old(nextId) + |plan| && advance == WithPlanEnd(row, plan)
        else
          && out == (if per != "" && Truthy(sug) then Failed(AdvanceNotFound) else Done)
          && pagos == old(pagos) && nextId == old(nextId) && advance == row
    {
      if stored {
        advance := AdvanceRow(importe, sug, fechaInicio, fechaFin, estado, cuenta, per);
      }
      if per != "" && Truthy(sug) {
        out := RecalculatePaymentPlan(PlanTerms(importe, sug.value, fechaInicio, per));
      } else {
        out := Done;
      }
    }
  
    /**
     * `recalculatePostEditPayments`: after a pending payment's amount went
     * from `prev` to `nuevo`, the difference is moved onto the pending
     * payments dated after `prevFecha` and the last pending payment absorbs
     * what the balance still misses. No difference: nothing happens; a
     * missing advance fails; an absent `prevFecha` (the `undefined` date of
     * a payment id that was not found) fails when the later payments are
     * queried.
     */
    method RecalculatePostEditPayments(prev: int, nuevo: int, prevFecha: Option<Date>) returns (out: Outcome)
      requires Valid()
      modifies this
      ensures Valid() && id == old(id) && stored == old(stored) && advance == old(advance) && nextId == old(nextId)
      ensures if prev == nuevo then out == Done && pagos == old(pagos)
              else if !stored then out == Failed(AdvanceNotFound) && pagos == old(pagos)
              else if prevFecha.None? then out == Failed(UndefinedBind) && pagos == old(pagos)
              else out == Done && pagos == PostEdit(old(pagos), advance.importeTotal, advance.pagoSugerido, Difference(prev, nuevo), prevFecha)
    {
      if prev == nuevo {
        return Done;
      }
      if !stored {
        return Failed(AdvanceNotFound);
      }
      if prevFecha.None? {
        return Failed(UndefinedBind);
      }
      var diferencia := Difference(prev, nuevo);
      ghost var before := pagos;
      pagos := PostEditInOrder(pagos, advance.importeTotal, advance.pagoSugerido, diferencia, prevFecha);
      AmountsOnlyValid(before, pagos, nextId);
      out := Done;
    }

    /**
     * The update path of `pushPago`: the payment row is rewritten; a payment
     * that becomes paid debits the advance, one that goes back to pending
     * credits its previous amount; a pending payment whose amount changed
     * has the difference redistributed over the later pending payments.
     * An unknown payment id updates nothing and reads as unpaid, amount 0,
     * no date, so a new pending amount for it fails on the undefined date.
     */
    method UpdatePago(pid: nat, importe: int, fecha: Date, tipo: PaymentKind, estado: PaymentState, cuenta: int)
        returns (out: Outcome)
      requires Valid()
      modifies this
      ensures Valid() && id == old(id) && stored == old(stored) && nextId == old(nextId)
      ensures var prior := PriorOf(old(pagos), pid);
        var edited := Edit(old(pagos), pid, importe, fecha, tipo, estado, cuenta);
        && advance == (if stored then StatusChange(old(advance), prior.wasPaid, estado, importe, prior.importe) else old(advance))
        && (estado == Pending && prior.importe != importe && !stored ==> out == Failed(AdvanceNotFound) && pagos == edited)
        && (estado == Pending && prior.importe != importe && stored && prior.fecha.None? ==>
              out == Failed(UndefinedBind) && pagos == edited)
        && (estado == Pending && prior.importe != importe && stored && prior.fecha.Some? ==>
              out == Done && pagos == PostEdit(edited, advance.importeTotal, advance.pagoSugerido, Difference(prior.importe, importe), prior.fecha))
        && (estado != Pending || prior.importe == importe ==> out == Done && pagos == edited)
    {
      var prior := RewritePago(pid, importe, fecha, tipo, estado, cuenta);
      if estado == Pending && prior.importe != importe {
        out := RecalculatePostEditPayments(prior.importe, importe, prior.fecha);
      } else {
        out := Done;
      }
    }

    /** The row update and status change of the update path; returns what the payment was before. */
    method RewritePago(pid: nat, importe: int, fecha: Date, tipo: PaymentKind, estado: PaymentState, cuenta: int)
        returns (prior: Prior)
      requires Valid()
      modifies this
      ensures Valid() && id == old(id) && stored == old(stored) && nextId == old(nextId)
      ensures prior == PriorOf(old(pagos), pid)
      ensures pagos == Edit(old(pagos), pid, importe, fecha, tipo, estado, cuenta)
      ensures advance == (if stored then StatusChange(old(advance), prior.wasPaid, estado, importe, prior.importe) else old(advance))
    {
      var k := IndexOf(pagos, pid);
      prior := PriorOf(pagos, pid);
      if k.Some? {
        ReplaceValid(pagos, k.value, pagos[k.value].(importe := importe, fecha := fecha, tipo := tipo, estado := estado, cuentaDestino := cuenta), nextId);
      }
      pagos := Edit(pagos, pid, importe, fecha, tipo, estado, cuenta);
      if stored {
        advance := StatusChange(advance, prior.wasPaid, estado, importe, prior.importe);
      }
    }

    /**
     * The insert path of `pushPago`: the new payment takes its place by date;
     * a paid one debits the advance; an extraordinary one regenerates the
     * plan from the stored terms when the advance exists.
     */
    method InsertPago(importe: int, fecha: Date, tipo: PaymentKind, estado: PaymentState, cuenta: int) returns (out: Outcome)
      requires Valid()
      requires tipo == Extraordinary && stored ==>
                 PlanTerminates(advance.importeTotal - SumPending(pagos) - importe, PlanSugerido(advance.pagoSugerido))
      modifies this
      ensures Valid() && id == old(id) && stored == old(stored) && out == Done
      ensures var inserted := InsertByDate(old(pagos), Payment(old(nextId), importe, fecha, tipo, estado, cuenta));
        var debited := if estado == Paid && stored then Debit(old(advance), importe) else old(advance);
        if tipo == Extraordinary && stored then
          var plan := Replan(inserted, StoredTerms(debited), debited.cuentaOrigen, old(nextId) + 1);
          pagos == inserted + plan && nextId == old(nextId) + 1 + |plan| && advance == WithPlanEnd(debited, plan)
        else
          pagos == inserted && nextId == old(nextId) + 1 && advance == debited
    {
      var p := Payment(nextId, importe, fecha, tipo, estado, cuenta);
      InsertFreshValid(pagos, p, nextId);
      pagos := InsertByDate(pagos, p);
      nextId := nextId + 1;
      if estado == Paid && stored {
        advance := Debit(advance, importe);
      }
      if tipo == Extraordinary && stored {
        out := RecalculatePaymentPlan(StoredTerms(advance));
      } else {
        out := Done;
      }
    }

    /** `pushPago`: an id (0 is falsy) selects the update path, otherwise a payment is inserted. */
    method PushPago(pid: nat, importe: int, fecha: Date, tipo: PaymentKind, estado: PaymentState, cuenta: int) returns (out: Outcome)
      requires Valid()
      requires pid == 0 && tipo == Extraordinary && stored ==>
                 PlanTerminates(advance.importeTotal - SumPending(pagos) - importe, PlanSugerido(advance.pagoSugerido))
      modifies this
      ensures Valid() && id == old(id) && stored == old(stored)
      ensures pid == 0 ==> out == Done && nextId > old(nextId)
      ensures pid != 0 ==>
                && nextId == old(nextId)
                && advance == (if stored then StatusChange(old(advance), PriorOf(old(pagos), pid).wasPaid, estado, importe, PriorOf(old(pagos), pid).importe) else old(advance))
      ensures pid == 0 ==>
                var inserted := InsertByDate(old(pagos), Payment(old(nextId), importe, fecha, tipo, estado, cuenta));
                var debited := if estado == Paid && stored then Debit(old(advance), importe) else old(advance);
                if tipo == Extraordinary && stored then
                  var plan := Replan(inserted, StoredTerms(debited), debited.cuentaOrigen, old(nextId) + 1);
                  pagos == inserted + plan && nextId == old(nextId) + 1 + |plan| && advance == WithPlanEnd(debited, plan)
                else
                  pagos == inserted && nextId == old(nextId) + 1 && advance == debited
      ensures pid != 0 ==>
                var prior := PriorOf(old(pagos), pid);
                var edited := Edit(old(pagos), pid, importe, fecha, tipo, estado, cuenta);
                && (estado == Pending && prior.importe != importe && !stored ==> out == Failed(AdvanceNotFound) && pagos == edited)
                && (estado == Pending && prior.importe != importe && stored && prior.fecha.None? ==>
                      out == Failed(UndefinedBind) && pagos == edited)
                && (estado == Pending && prior.importe != importe && stored && prior.fecha.Some? ==>
                      out == Done && pagos == PostEdit(edited, advance.importeTotal, advance.pagoSugerido, Difference(prior.importe, importe), prior.fecha))
                && (estado != Pending || prior.importe == importe ==> out == Done && pagos == edited)
    {
      if pid != 0 {
        out := UpdatePago(pid, importe, fecha, tipo, estado, cuenta);
      } else {
        out := InsertPago(importe, fecha, tipo, estado, cuenta);
      }
    }

    /**
     * `deletePago`: an unknown id fails; otherwise the payment is removed
     * and, when it was paid, its amount is credited back to the advance,
     * which reopens when it was completed and its balance becomes positive.
     */
    method DeletePago(pid: nat) returns (out: Outcome)
      requires Valid()
      modifies this
      ensures Valid() && id == old(id) && stored == old(stored) && nextId == old(nextId)
      ensures IndexOf(old(pagos), pid).None? ==> out == Failed(PaymentNotFound) && pagos == old(pagos) && advance == old(advance)
      ensures IndexOf(old(pagos), pid).Some? ==>
                var k := IndexOf(old(pagos), pid).value;
                var p := old(pagos)[k];
                && out == Done
                && pagos == RemoveAt(old(pagos), k)
                && SumPending(pagos) == SumPending(old(pagos)) - PendingPart(p)
                && advance == (if p.estado == Paid && stored then Credit(old(advance), p.importe) else old(advance))
    {
      var k := IndexOf(pagos, pid);
      if k.None? {
        return Failed(PaymentNotFound);
      }
      var p := pagos[k.value];
      RemoveValid(pagos, k.value, nextId);
      RemoveAtFacts(pagos, k.value);
      pagos := RemoveAt(pagos, k.value);
      if p.estado == Paid && stored {
        advance := Credit(advance, p.importe);
      }
      out := Done;
    }

    /**
     * `handlePaymentDeletion`: `deletePago`, then the balance left on the
     * advance (0 when the advance row is missing).
     */
    method HandlePaymentDeletion(pid: nat) returns (out: Outcome, saldo: int)
      requires Valid()
      modifies this
      ensures Valid() && id == old(id) && stored == old(stored) && nextId == old(nextId)
      ensures IndexOf(old(pagos), pid).None? ==> out == Failed(PaymentNotFound) && pagos == old(pagos) && advance == old(advance)
      ensures IndexOf(old(pagos), pid).Some? ==>
                var p := old(pagos)[IndexOf(old(pagos), pid).value];
                && out == Done
                && pagos == RemoveAt(old(pagos), IndexOf(old(pagos), pid).value)
                && advance == (if p.estado == Paid && stored then Credit(old(advance), p.importe) else old(advance))
      ensures out == Done ==> saldo == (if stored then advance.importeTotal else 0)
      ensures out == Done && stored ==>
                var p := old(pagos)[IndexOf(old(pagos), pid).value];
                saldo == old(advance).importeTotal + (if p.estado == Paid then p.importe else 0)
    {
      out := DeletePago(pid);
      saldo := 0;
      if out == Done && stored {
        saldo := advance.importeTotal;
      }
    }

    /**
     * `recalculatePendingPayments`: the advance's balance is split evenly
     * over its pending payments in date order, the rounding cents going to
     * the earliest ones. No pending payment: nothing happens (before the
     * advance is looked up); a missing advance fails.
     */
    method RecalculatePendingPayments() returns (out: Outcome)
      requires Valid()
      modifies this
      ensures Valid() && id == old(id) && stored == old(stored) && advance == old(advance) && nextId == old(nextId)
      ensures PendingAmounts(old(pagos)) == [] ==> out == Done && pagos == old(pagos)
      ensures PendingAmounts(old(pagos)) != [] && !stored ==> out == Failed(AdvanceNotFound) && pagos == old(pagos)
      ensures PendingAmounts(old(pagos)) != [] && stored ==>
                out == Done && pagos == ReplacePending(old(pagos), ProRata.Split(advance.importeTotal, |PendingAmounts(old(pagos))|))
    {
      var n := |PendingAmounts(pagos)|;
      if n == 0 {
        return Done;
      }
      if !stored {
        return Failed(AdvanceNotFound);
      }
      var amts := ProRata.SplitInOrder(advance.importeTotal, n);
      ghost var before := pagos;
      pagos := ApplyPendingAmounts(pagos, amts);
      AmountsOnlyValid(before, pagos, nextId);
      out := Done;
    }

    /**
     * `deleteAdvances` for this ledger: a single id is taken as a one-element
     * list; an empty id list is an SQL error; otherwise, when this advance is
     * listed, its payments and its row go.
     */
    method DeleteAdvances(arg: IdArg<nat>) returns (out: Outcome)
      requires Valid()
      modifies this
      ensures Valid() && id == old(id) && advance == old(advance) && nextId == old(nextId)
      ensures AsArray(arg) == [] ==> out == Failed(EmptyIdList) && stored == old(stored) && pagos == old(pagos)
      ensures AsArray(arg) != [] ==> out == Done
      ensures arg.One? ==> out == Done && (arg.id == id ==> !stored && pagos == [])
      ensures AsArray(arg) != [] && id in AsArray(arg) ==> !stored && pagos == []
      ensures AsArray(arg) != [] && id !in AsArray(arg) ==> stored == old(stored) && pagos == old(pagos)
    {
      var ids := AsArray(arg);
      if ids == [] {
        return Failed(EmptyIdList);
      }
      if id in ids {
        pagos := [];
        stored := false;
      }
      out := Done;
    }
  }
}
