/**
 * Payment records of an advance ("anticipos_pagos") and the queries the
 * advance engine runs over them: pending sums, positions selected by a
 * condition, lookups by id, insertion in due-date order, removal, and the
 * closing reconciliation of the post-edit redistribution.
 *
 * A list of payments is kept in due-date order (the order of
 * `ORDER BY fecha ASC`); payments with equal dates keep their list order.
 */
module Payments {
  import opened Common

  /**
   * A due date: `month` is an absolute month index (year * 12 + month),
   * `day` the day of the month. Adding months keeps the day.
   */
  datatype Date = Date(month: int, day: int)

  /** Strict chronological order. */
  predicate Before(a: Date, b: Date)
  {
    a.month < b.month || (a.month == b.month && a.day < b.day)
  }

  function AddMonths(d: Date, k: int): Date
  {
    Date(d.month + k, d.day)
  }

  datatype PaymentKind = Regular | Extraordinary        // 'regular' | 'extraordinario'
  datatype PaymentState = Pending | Paid                // 'pendiente' | 'pagado'

  /** Amounts are integer cents. */
  datatype Payment = Payment(
    id: nat,
    importe: int,
    fecha: Date,
    tipo: PaymentKind,
    estado: PaymentState,
    cuentaDestino: int)

  ghost predicate DateOrdered(s: seq<Payment>)
  {
    forall i, j :: 0 <= i < j < |s| ==> !Before(s[j].fecha, s[i].fecha)
  }

  ghost predicate DistinctIds(s: seq<Payment>)
  {
    forall i, j :: 0 <= i < j < |s| ==> s[i].id != s[j].id
  }

  ghost predicate IdsBelow(s: seq<Payment>, bound: nat)
  {
    forall i :: 0 <= i < |s| ==> s[i].id < bound
  }

  /** What a payment contributes to the pending total. */
  function PendingPart(p: Payment): int
  {
    if p.estado == Pending then p.importe else 0
  }

  /** Sum of the amounts of the pending payments. */
  function SumPending(s: seq<Payment>): int
  {
    if s == [] then 0 else SumPending(s[..|s| - 1]) + PendingPart(s[|s| - 1])
  }

  lemma {:induction false} SumPendingConcat(a: seq<Payment>, b: seq<Payment>)
    ensures SumPending(a + b) == SumPending(a) + SumPending(b)
    decreases |b|
  {
    if b == [] {
      assert a + b == a;
    } else {
      assert (a + b)[..|a + b| - 1] == a + b[..|b| - 1];
      SumPendingConcat(a, b[..|b| - 1]);
    }
  }

  /** Replacing one payment changes the pending sum by the difference of the two contributions. */
  lemma {:induction false} SumPendingUpdate(s: seq<Payment>, k: nat, p: Payment)
    requires k < |s|
    ensures SumPending(s[k := p]) == SumPending(s) - PendingPart(s[k]) + PendingPart(p)
  {
    assert s[k := p] == s[..k] + [p] + s[k + 1..];
    assert s == s[..k] + [s[k]] + s[k + 1..];
    SumPendingConcat(s[..k] + [p], s[k + 1..]);
    SumPendingConcat(s[..k], [p]);
    SumPendingConcat(s[..k] + [s[k]], s[k + 1..]);
    SumPendingConcat(s[..k], [s[k]]);
    assert SumPending([p]) == PendingPart(p) by { assert [p][..0] == []; }
    assert SumPending([s[k]]) == PendingPart(s[k]) by { assert [s[k]][..0] == []; }
  }

  /** The amount of every payment, in list order. */
  function Amounts(s: seq<Payment>): (r: seq<int>)
    ensures |r| == |s| && forall i :: 0 <= i < |s| ==> r[i] == s[i].importe
  {
    seq(|s|, i requires 0 <= i < |s| => s[i].importe)
  }

  /** The same payments with the amounts replaced by `amt`, position by position. */
  function WithAmounts(s: seq<Payment>, amt: seq<int>): (r: seq<Payment>)
    requires |amt| == |s|
    ensures |r| == |s| && forall i :: 0 <= i < |s| ==> r[i] == s[i].(importe := amt[i])
  {
    seq(|s|, i requires 0 <= i < |s| => s[i].(importe := amt[i]))
  }

  /** Positions, in list order, of the payments that satisfy `keep`. */
  function Positions(s: seq<Payment>, keep: Payment -> bool): (r: seq<nat>)
    ensures forall k: int :: k in r <==> 0 <= k < |s| && keep(s[k])
    ensures forall i, j :: 0 <= i < j < |r| ==> r[i] < r[j]
  {
    if s == [] then []
    else
      var r := Positions(s[..|s| - 1], keep);
      assert forall i :: 0 <= i < |r| ==> r[i] in r;
      if keep(s[|s| - 1]) then r + [|s| - 1] else r
  }

  /** The pending payments dated strictly after `after` (none when `after` is absent, as SQL `fecha > NULL`). */
  predicate LaterPending(p: Payment, after: Option<Date>)
  {
    p.estado == Pending && after.Some? && Before(after.value, p.fecha)
  }

  predicate IsPending(p: Payment)
  {
    p.estado == Pending
  }

  /** Position of the payment with the given id. */
  function IndexOf(s: seq<Payment>, id: nat): (r: Option<nat>)
    ensures r.Some? ==> r.value < |s| && s[r.value].id == id
    ensures r.None? ==> forall i :: 0 <= i < |s| ==> s[i].id != id
  {
    if s == [] then None
    else if s[0].id == id then Some(0)
    else match IndexOf(s[1..], id)
      case None => None
      case Some(k) => Some(k + 1)
  }

  /** Position of the chronologically last pending payment (the last pending one in list order). */
  function LastPending(s: seq<Payment>): (r: Option<nat>)
    ensures r.Some? ==> r.value < |s| && s[r.value].estado == Pending &&
                        forall j :: r.value < j < |s| ==> s[j].estado != Pending
    ensures r.None? ==> forall j :: 0 <= j < |s| ==> s[j].estado != Pending
  {
    if s == [] then None
    else if s[|s| - 1].estado == Pending then Some(|s| - 1)
    else LastPending(s[..|s| - 1])
  }

  /** Index before which a payment dated `d` is inserted: after every payment not later than `d`. */
  function InsertPos(s: seq<Payment>, d: Date): (k: nat)
    ensures k <= |s|
    ensures forall i :: 0 <= i < k ==> !Before(d, s[i].fecha)
    ensures k < |s| ==> Before(d, s[k].fecha)
  {
    if s == [] || Before(d, s[0].fecha) then 0 else 1 + InsertPos(s[1..], d)
  }

  /** `s` with `p` inserted after every payment not later than it: one more payment, the same pending sum plus `p`'s part. */
  function InsertByDate(s: seq<Payment>, p: Payment): (r: seq<Payment>)
    ensures |r| == |s| + 1
    ensures multiset(r) == multiset(s) + multiset{p}
    ensures SumPending(r) == SumPending(s) + PendingPart(p)
  {
    var k := InsertPos(s, p.fecha);
    assert s == s[..k] + s[k..];
    assert s[..k] + [p] + s[k..] == s[..k] + ([p] + s[k..]);
    SumPendingConcat(s[..k] + [p], s[k..]);
    SumPendingConcat(s[..k], [p]);
    SumPendingConcat(s[..k], s[k..]);
    assert SumPending([p]) == PendingPart(p) by { assert [p][..0] == []; }
    s[..k] + [p] + s[k..]
  }

  /** Where each payment ends up after the insertion. */
  lemma InsertByDateAt(s: seq<Payment>, p: Payment)
    ensures var k := InsertPos(s, p.fecha);
      var r := InsertByDate(s, p);
      && |r| == |s| + 1 && r[k] == p
      && (forall i :: 0 <= i < k ==> r[i] == s[i])
      && (forall i :: k < i < |r| ==> r[i] == s[i - 1])
  {
  }

  lemma InsertByDateOrdered(s: seq<Payment>, p: Payment)
    requires DateOrdered(s)
    ensures DateOrdered(InsertByDate(s, p))
  {
    var k := InsertPos(s, p.fecha);
    var r := InsertByDate(s, p);
    assert |r| == |s| + 1;
    assert forall i :: 0 <= i < k ==> r[i] == s[i];
    assert r[k] == p;
    assert forall i :: k < i < |r| ==> r[i] == s[i - 1];
    forall i, j | 0 <= i < j < |r| ensures !Before(r[j].fecha, r[i].fecha) {
      if j < k {
      } else if i > k {
      } else if i == k {
        assert Before(p.fecha, s[k].fecha);
        assert !Before(s[j - 1].fecha, s[k].fecha);
      } else if j == k {
      } else {
      }
    }
  }

  function RemoveAt(s: seq<Payment>, k: nat): seq<Payment>
    requires k < |s|
  {
    s[..k] + s[k + 1..]
  }

  lemma RemoveAtFacts(s: seq<Payment>, k: nat)
    requires k < |s|
    ensures |RemoveAt(s, k)| == |s| - 1
    ensures SumPending(RemoveAt(s, k)) == SumPending(s) - PendingPart(s[k])
    ensures forall i :: 0 <= i < |RemoveAt(s, k)| ==> RemoveAt(s, k)[i] == s[if i < k then i else i + 1]
  {
    assert s == s[..k] + [s[k]] + s[k + 1..];
    SumPendingConcat(s[..k] + [s[k]], s[k + 1..]);
    SumPendingConcat(s[..k], [s[k]]);
    SumPendingConcat(s[..k], s[k + 1..]);
    assert SumPending([s[k]]) == PendingPart(s[k]) by { assert [s[k]][..0] == []; }
  }

  lemma RemoveAtOrdered(s: seq<Payment>, k: nat)
    requires k < |s| && DateOrdered(s)
    ensures DateOrdered(RemoveAt(s, k))
  {
    RemoveAtFacts(s, k);
  }

  /**
   * Closing step of the post-edit redistribution: when the pending payments
   * miss `total` by more than one cent, the last pending payment absorbs the
   * whole discrepancy, but never drops below one cent.
   */
  function Reconcile(s: seq<Payment>, total: int): (r: seq<Payment>)
    ensures |r| == |s|
    ensures forall i :: 0 <= i < |s| && Some(i) != LastPending(s) ==> r[i] == s[i]
    ensures total - 1 <= SumPending(s) <= total + 1 || LastPending(s).None? ==> r == s
    ensures (SumPending(s) < total - 1 || SumPending(s) > total + 1) && LastPending(s).Some? ==>
              var k := LastPending(s).value;
              r[k] == s[k].(importe := r[k].importe) &&
              (s[k].importe + (total - SumPending(s)) >= 1 ==> SumPending(r) == total) &&
              (s[k].importe + (total - SumPending(s)) < 1 ==> r[k].importe == 1)
  {
    var d := total - SumPending(s);
    if Abs(d) > 1 && LastPending(s).Some? then
      var k := LastPending(s).value;
      var r := s[k := s[k].(importe := Max(1, s[k].importe + d))];
      SumPendingUpdate(s, k, r[k]);
      r
    else s
  }

  /** After reconciliation the pending payments are within one cent of `total`, unless the last one is floored at one cent. */
  lemma ReconcileWithin(s: seq<Payment>, total: int, k: nat)
    requires LastPending(s) == Some(k)
    ensures var r := Reconcile(s, total);
      total - 1 <= SumPending(r) <= total + 1 || r[k].importe == 1
  {
  }
}
