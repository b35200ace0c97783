/**
 * The post-edit redistribution of `recalculatePostEditPayments`: when a
 * pending payment's amount changes by `diff` (old minus new, in cents), the
 * difference is moved onto the pending payments dated after it.
 *
 * The amounts of all the advance's payments are one sequence `amt`; the
 * payments that take part are given by their positions `cand` (in date
 * order). Surplus (`diff > 0`): first top up the payments below the
 * suggested installment, smallest first; then spread what is left over all
 * candidates, whole units (100 cents) first, one extra unit to the first
 * ones, then one cent each to the first ones. Deficit (`diff < 0`): first
 * bring the payments above the suggested installment down towards it,
 * largest first; then take what is left from the untouched candidates in the
 * same whole-unit and cent pattern, never below one cent.
 *
 * The suggested installment is read with `parseFloat`, so a NULL one is
 * `NaN`: it is `None` here. Every comparison with `NaN` is false, so then
 * neither phase 1 changes anything and the whole difference goes to the
 * even spread.
 */
module Redistribution {
  import opened Common

  ghost predicate InRange(pos: seq<nat>, n: nat)
  {
    forall i :: 0 <= i < |pos| ==> pos[i] < n
  }

  /** `a` may come before `b`: ascending amounts, or descending ones when `desc`. */
  predicate Precedes(amt: seq<int>, a: nat, b: nat, desc: bool)
    requires a < |amt| && b < |amt|
  {
    if desc then amt[a] >= amt[b] else amt[a] <= amt[b]
  }

  function InsertSorted(p: nat, sorted: seq<nat>, amt: seq<int>, desc: bool): (r: seq<nat>)
    requires p < |amt| && InRange(sorted, |amt|)
    ensures multiset(r) == multiset(sorted) + multiset{p}
    ensures |r| == |sorted| + 1 && InRange(r, |amt|)
    ensures r[0] == p || (sorted != [] && r[0] == sorted[0])
  {
    if sorted == [] || Precedes(amt, p, sorted[0], desc) then [p] + sorted
    else
      assert sorted == [sorted[0]] + sorted[1..];
      [sorted[0]] + InsertSorted(p, sorted[1..], amt, desc)
  }

  /**
   * Positions sorted by their amount. Insertion puts an element before the
   * equal ones that follow it in the input, so the sort is stable, as
   * JavaScript's `Array.prototype.sort` is.
   */
  function SortBy(pos: seq<nat>, amt: seq<int>, desc: bool): (r: seq<nat>)
    requires InRange(pos, |amt|)
    ensures multiset(r) == multiset(pos) && |r| == |pos| && InRange(r, |amt|)
  {
    if pos == [] then []
    else
      assert pos == [pos[0]] + pos[1..];
      InsertSorted(pos[0], SortBy(pos[1..], amt, desc), amt, desc)
  }

  ghost predicate SortedBy(r: seq<nat>, amt: seq<int>, desc: bool)
    requires InRange(r, |amt|)
  {
    forall i, j :: 0 <= i < j < |r| ==> Precedes(amt, r[i], r[j], desc)
  }

  lemma {:induction false} InsertSortedKeepsOrder(p: nat, sorted: seq<nat>, amt: seq<int>, desc: bool)
    requires p < |amt| && InRange(sorted, |amt|) && SortedBy(sorted, amt, desc)
    ensures SortedBy(InsertSorted(p, sorted, amt, desc), amt, desc)
    decreases |sorted|
  {
    var r := InsertSorted(p, sorted, amt, desc);
    if sorted == [] || Precedes(amt, p, sorted[0], desc) {
    } else {
      var rest := InsertSorted(p, sorted[1..], amt, desc);
      InsertSortedKeepsOrder(p, sorted[1..], amt, desc);
      assert r == [sorted[0]] + rest;
      forall j | 1 <= j < |r| ensures Precedes(amt, r[0], r[j], desc) {
        var x := rest[j - 1];
        assert x in multiset(rest);
        assert x == p || x in multiset(sorted[1..]);
        if x != p {
          var m :| 0 <= m < |sorted[1..]| && sorted[1..][m] == x;
          assert sorted[m + 1] == x;
        }
      }
    }
  }

  /** The positions come out in ascending (or, when `desc`, descending) order of amount. */
  lemma {:induction false} SortByOrders(pos: seq<nat>, amt: seq<int>, desc: bool)
    requires InRange(pos, |amt|)
    ensures SortedBy(SortBy(pos, amt, desc), amt, desc)
    decreases |pos|
  {
    if pos != [] {
      SortByOrders(pos[1..], amt, desc);
      InsertSortedKeepsOrder(pos[0], SortBy(pos[1..], amt, desc), amt, desc);
    }
  }

  /** The positions of `s` whose amount is `v`, in their order in `s`. */
  function WithAmount(s: seq<nat>, amt: seq<int>, v: int): (r: seq<nat>)
    requires InRange(s, |amt|)
    ensures |r| <= |s|
  {
    if s == [] then []
    else (if amt[s[0]] == v then [s[0]] else []) + WithAmount(s[1..], amt, v)
  }

  /** Inserting `p` puts it before every element of its amount, and moves no other element of any amount. */
  lemma {:induction false} InsertSortedStable(p: nat, sorted: seq<nat>, amt: seq<int>, desc: bool, v: int)
    requires p < |amt| && InRange(sorted, |amt|)
    ensures WithAmount(InsertSorted(p, sorted, amt, desc), amt, v)
         == (if amt[p] == v then [p] else []) + WithAmount(sorted, amt, v)
    decreases |sorted|
  {
    var r := InsertSorted(p, sorted, amt, desc);
    var fp := if amt[p] == v then [p] else [];
    if sorted == [] || Precedes(amt, p, sorted[0], desc) {
      assert r == [p] + sorted && r[1..] == sorted;
      assert WithAmount(r, amt, v) == fp + WithAmount(sorted, amt, v);
    } else {
      var s0 := sorted[0];
      var f0 := if amt[s0] == v then [s0] else [];
      var rest := InsertSorted(p, sorted[1..], amt, desc);
      assert amt[s0] != amt[p];
      assert r == [s0] + rest && r[1..] == rest;
      InsertSortedStable(p, sorted[1..], amt, desc, v);
      calc {
        WithAmount(r, amt, v);
        f0 + WithAmount(rest, amt, v);
        f0 + (fp + WithAmount(sorted[1..], amt, v));
        { assert f0 == [] || fp == []; }
        fp + (f0 + WithAmount(sorted[1..], amt, v));
        fp + WithAmount(sorted, amt, v);
      }
    }
  }

  /**
   * The sort is stable: the positions with any one amount come out in the
   * order they went in, as with JavaScript's `Array.prototype.sort`. Among
   * equal amounts the earlier payment is topped up or trimmed first.
   */
  lemma {:induction false} SortByStable(pos: seq<nat>, amt: seq<int>, desc: bool, v: int)
    requires InRange(pos, |amt|)
    ensures WithAmount(SortBy(pos, amt, desc), amt, v) == WithAmount(pos, amt, v)
    decreases |pos|
  {
    if pos != [] {
      SortByStable(pos[1..], amt, desc, v);
      InsertSortedStable(pos[0], SortBy(pos[1..], amt, desc), amt, desc, v);
    }
  }

  /** The amounts being rewritten, the positions already rewritten, and the running counter. */
  datatype Work = Work(amt: seq<int>, touched: set<nat>, left: int)

  /**
   * Surplus, phase 1, one payment: while surplus `left` remains, a payment
   * below `sug` is raised by as much as it needs to reach `sug`, or by all
   * that is left.
   */
  function TopUpStep(w: Work, j: nat, sug: int): (r: Work)
    requires j < |w.amt|
    ensures |r.amt| == |w.amt|
  {
    if w.left > 0 && w.amt[j] < sug then
      var inc := Min(w.left, sug - w.amt[j]);
      Work(w.amt[j := w.amt[j] + inc], w.touched + {j}, w.left - inc)
    else w
  }

  /** Surplus, phase 1: the payments at `ord`, in turn. */
  function TopUp(w: Work, ord: seq<nat>, sug: int): (r: Work)
    requires InRange(ord, |w.amt|)
    ensures |r.amt| == |w.amt|
    decreases |ord|
  {
    if ord == [] then w else TopUp(TopUpStep(w, ord[0], sug), ord[1..], sug)
  }

  /** What phase 1 adds to the payments is exactly what it uses of the surplus. */
  lemma {:induction false} TopUpConserves(w: Work, ord: seq<nat>, sug: int)
    requires InRange(ord, |w.amt|)
    ensures Sum(TopUp(w, ord, sug).amt) + TopUp(w, ord, sug).left == Sum(w.amt) + w.left
    decreases |ord|
  {
    if ord != [] {
      var w' := TopUpStep(w, ord[0], sug);
      if w' != w {
        SumUpdate(w.amt, ord[0], w'.amt[ord[0]]);
      }
      TopUpConserves(w', ord[1..], sug);
    }
  }

  /** The surplus only shrinks, and never below zero. */
  lemma {:induction false} TopUpLeft(w: Work, ord: seq<nat>, sug: int)
    requires InRange(ord, |w.amt|)
    ensures TopUp(w, ord, sug).left <= w.left
    ensures w.left >= 0 ==> TopUp(w, ord, sug).left >= 0
    decreases |ord|
  {
    if ord != [] {
      TopUpLeft(TopUpStep(w, ord[0], sug), ord[1..], sug);
    }
  }

  /**
   * Phase 1 never lowers a payment; it raises only payments at `ord` that
   * were below `sug`, and never above `sug`.
   */
  lemma {:induction false} TopUpChanges(w: Work, ord: seq<nat>, sug: int)
    requires InRange(ord, |w.amt|)
    ensures forall k :: 0 <= k < |w.amt| ==> TopUp(w, ord, sug).amt[k] >= w.amt[k]
    ensures forall k :: 0 <= k < |w.amt| && TopUp(w, ord, sug).amt[k] != w.amt[k] ==>
              k in ord && w.amt[k] < sug && TopUp(w, ord, sug).amt[k] <= sug
    decreases |ord|
  {
    if ord != [] {
      var w' := TopUpStep(w, ord[0], sug);
      TopUpChanges(w', ord[1..], sug);
      assert forall k :: k in ord[1..] ==> k in ord;
    }
  }

  /** Surplus is left over only when every payment at `ord` has reached `sug`. */
  lemma {:induction false} TopUpGreedy(w: Work, ord: seq<nat>, sug: int)
    requires InRange(ord, |w.amt|)
    ensures TopUp(w, ord, sug).left > 0 ==> forall k :: k in ord ==> TopUp(w, ord, sug).amt[k] >= sug
    decreases |ord|
  {
    if ord != [] {
      var j := ord[0];
      var w' := TopUpStep(w, j, sug);
      var r := TopUp(w', ord[1..], sug);
      TopUpGreedy(w', ord[1..], sug);
      TopUpLeft(w', ord[1..], sug);
      TopUpChanges(w', ord[1..], sug);
      if r.left > 0 {
        assert w'.amt[j] >= sug;
        assert forall k :: k in ord ==> k == j || k in ord[1..];
      }
    }
  }

  /** Once no surplus is left, phase 1 changes nothing more (the source's `break`). */
  lemma {:induction false} TopUpExhausted(w: Work, ord: seq<nat>, sug: int)
    requires InRange(ord, |w.amt|) && w.left <= 0
    ensures TopUp(w, ord, sug) == w
    decreases |ord|
  {
    if ord != [] {
      TopUpExhausted(w, ord[1..], sug);
    }
  }

  /**
   * Deficit, phase 1, one payment: lower it towards `sug` until `target`
   * cents have been taken in all; `left` counts what has been taken so far.
   */
  function TrimStep(w: Work, j: nat, sug: int, target: int): (r: Work)
    requires j < |w.amt|
    ensures |r.amt| == |w.amt|
  {
    var red := Min(target - w.left, w.amt[j] - sug);
    if red <= 0 then w else Work(w.amt[j := w.amt[j] - red], w.touched + {j}, w.left + red)
  }

  /** Deficit, phase 1: the payments at `ord`, in turn. */
  function Trim(w: Work, ord: seq<nat>, sug: int, target: int): (r: Work)
    requires InRange(ord, |w.amt|)
    ensures |r.amt| == |w.amt|
    decreases |ord|
  {
    if ord == [] then w else Trim(TrimStep(w, ord[0], sug, target), ord[1..], sug, target)
  }

  /** What phase 1 takes from the payments is exactly what it counts as taken. */
  lemma {:induction false} TrimConserves(w: Work, ord: seq<nat>, sug: int, target: int)
    requires InRange(ord, |w.amt|)
    ensures Sum(Trim(w, ord, sug, target).amt) + Trim(w, ord, sug, target).left == Sum(w.amt) + w.left
    decreases |ord|
  {
    if ord != [] {
      var j := ord[0];
      var w' := TrimStep(w, j, sug, target);
      var red := Min(target - w.left, w.amt[j] - sug);
      if red > 0 {
        assert w'.amt == w.amt[j := w.amt[j] - red] && w'.left == w.left + red;
        SumUpdate(w.amt, j, w.amt[j] - red);
      }
      TrimConserves(w', ord[1..], sug, target);
    }
  }

  /** The amount taken only grows, and never past `target`. */
  lemma {:induction false} TrimTaken(w: Work, ord: seq<nat>, sug: int, target: int)
    requires InRange(ord, |w.amt|)
    ensures Trim(w, ord, sug, target).left >= w.left
    ensures w.left <= target ==> Trim(w, ord, sug, target).left <= target
    decreases |ord|
  {
    if ord != [] {
      TrimTaken(TrimStep(w, ord[0], sug, target), ord[1..], sug, target);
    }
  }

  /**
   * Phase 1 never raises a payment; it lowers only payments at `ord` that
   * were above `sug`, and never below `sug`.
   */
  lemma {:induction false} TrimChanges(w: Work, ord: seq<nat>, sug: int, target: int)
    requires InRange(ord, |w.amt|)
    ensures forall k :: 0 <= k < |w.amt| ==> Trim(w, ord, sug, target).amt[k] <= w.amt[k]
    ensures forall k :: 0 <= k < |w.amt| && Trim(w, ord, sug, target).amt[k] != w.amt[k] ==>
              k in ord && w.amt[k] > sug && Trim(w, ord, sug, target).amt[k] >= sug
    decreases |ord|
  {
    if ord != [] {
      TrimChanges(TrimStep(w, ord[0], sug, target), ord[1..], sug, target);
      assert forall k :: k in ord[1..] ==> k in ord;
    }
  }

  /** Every changed payment is marked touched, and only payments at `ord` get marked. */
  lemma {:induction false} TrimTouched(w: Work, ord: seq<nat>, sug: int, target: int)
    requires InRange(ord, |w.amt|)
    ensures w.touched <= Trim(w, ord, sug, target).touched
    ensures forall k :: k in Trim(w, ord, sug, target).touched ==> k in w.touched || k in ord
    ensures forall k :: 0 <= k < |w.amt| && Trim(w, ord, sug, target).amt[k] != w.amt[k] ==>
              k in Trim(w, ord, sug, target).touched
    decreases |ord|
  {
    if ord != [] {
      TrimTouched(TrimStep(w, ord[0], sug, target), ord[1..], sug, target);
      assert forall k :: k in ord[1..] ==> k in ord;
    }
  }

  /** Phase 1 stops short of `target` only when every payment at `ord` is down to `sug`. */
  lemma {:induction false} TrimShort(w: Work, ord: seq<nat>, sug: int, target: int)
    requires InRange(ord, |w.amt|)
    ensures Trim(w, ord, sug, target).left < target ==>
              forall k :: k in ord ==> Trim(w, ord, sug, target).amt[k] <= sug
    decreases |ord|
  {
    if ord != [] {
      var j := ord[0];
      var w' := TrimStep(w, j, sug, target);
      var r := Trim(w', ord[1..], sug, target);
      TrimShort(w', ord[1..], sug, target);
      TrimTaken(w', ord[1..], sug, target);
      TrimChanges(w', ord[1..], sug, target);
      if r.left < target {
        assert w'.amt[j] <= sug;
        assert forall k :: k in ord ==> k == j || k in ord[1..];
      }
    }
  }

  /** Once the whole deficit is taken, phase 1 changes nothing more (the source's `break`). */
  lemma {:induction false} TrimSettled(w: Work, ord: seq<nat>, sug: int, target: int)
    requires InRange(ord, |w.amt|) && w.left == target
    ensures Trim(w, ord, sug, target) == w
    decreases |ord|
  {
    if ord != [] {
      TrimSettled(w, ord[1..], sug, target);
    }
  }

  /**
   * What the `i`-th payment of the even spread receives (or gives up), in
   * cents: `per` whole units, one more unit for the first `extraUnits`
   * payments, one more cent for the first `cents` payments.
   */
  function Share(i: nat, per: int, extraUnits: int, cents: int): int
  {
    per * 100 + (if i < extraUnits then 100 else 0) + (if i < cents then 1 else 0)
  }

  /** Total of the shares of the first `n` payments. */
  function ShareTotal(n: nat, per: int, extraUnits: int, cents: int): int
  {
    if n == 0 then 0 else ShareTotal(n - 1, per, extraUnits, cents) + Share(n - 1, per, extraUnits, cents)
  }

  /** The shares of `n` payments add up to `n * per` units, `min(extraUnits, n)` units and `min(cents, n)` cents. */
  lemma {:induction false} ShareTotalClosed(n: nat, per: int, extraUnits: nat, cents: nat)
    ensures ShareTotal(n, per, extraUnits, cents) == 100 * per * n + 100 * Min(extraUnits, n) + Min(cents, n)
  {
    if n > 0 {
      ShareTotalClosed(n - 1, per, extraUnits, cents);
      assert 100 * per * n == 100 * per * (n - 1) + 100 * per;
    }
  }

  /** A payment's new amount in the spread: up by the share, or down by it but not below one cent. */
  function SpreadValue(a: int, share: int, down: bool): int
  {
    if down then Max(1, a - share) else a + share
  }

  /** The even spread over `pos[i..]`. */
  function Spread(amt: seq<int>, pos: seq<nat>, i: nat, per: int, extraUnits: int, cents: int, down: bool): (r: seq<int>)
    requires i <= |pos| && InRange(pos, |amt|)
    ensures |r| == |amt|
    decreases |pos| - i
  {
    if i == |pos| then amt
    else
      var j := pos[i];
      Spread(amt[j := SpreadValue(amt[j], Share(i, per, extraUnits, cents), down)], pos, i + 1, per, extraUnits, cents, down)
  }

  /** Only the payments at `pos[i..]` change, and downwards each of them ends with at least one cent. */
  lemma {:induction false} SpreadFrame(amt: seq<int>, pos: seq<nat>, i: nat, per: int, extraUnits: int, cents: int, down: bool)
    requires i <= |pos| && InRange(pos, |amt|)
    ensures forall k :: 0 <= k < |amt| && k !in pos[i..] ==> Spread(amt, pos, i, per, extraUnits, cents, down)[k] == amt[k]
    ensures down ==> forall k :: k in pos[i..] ==> Spread(amt, pos, i, per, extraUnits, cents, down)[k] >= 1
    decreases |pos| - i
  {
    if i < |pos| {
      var j := pos[i];
      var amt' := amt[j := SpreadValue(amt[j], Share(i, per, extraUnits, cents), down)];
      SpreadFrame(amt', pos, i + 1, per, extraUnits, cents, down);
      assert forall k :: k in pos[i..] ==> k == j || k in pos[i + 1..];
      assert forall k :: k in pos[i + 1..] ==> k in pos[i..];
    }
  }

  /** Upwards the spread adds exactly the shares of `pos[i..]`. */
  lemma {:induction false} SpreadUpSum(amt: seq<int>, pos: seq<nat>, i: nat, per: int, extraUnits: int, cents: int)
    requires i <= |pos| && InRange(pos, |amt|)
    ensures Sum(Spread(amt, pos, i, per, extraUnits, cents, false))
         == Sum(amt) + ShareTotal(|pos|, per, extraUnits, cents) - ShareTotal(i, per, extraUnits, cents)
    decreases |pos| - i
  {
    if i < |pos| {
      var j := pos[i];
      var v := SpreadValue(amt[j], Share(i, per, extraUnits, cents), false);
      SumUpdate(amt, j, v);
      SpreadUpSum(amt[j := v], pos, i + 1, per, extraUnits, cents);
      assert ShareTotal(i + 1, per, extraUnits, cents) == ShareTotal(i, per, extraUnits, cents) + Share(i, per, extraUnits, cents);
    }
  }

  /** Upwards, with non-negative shares, no payment goes down. */
  lemma {:induction false} SpreadUpRaises(amt: seq<int>, pos: seq<nat>, i: nat, per: nat, extraUnits: int, cents: int)
    requires i <= |pos| && InRange(pos, |amt|)
    ensures forall k :: 0 <= k < |amt| ==> Spread(amt, pos, i, per, extraUnits, cents, false)[k] >= amt[k]
    decreases |pos| - i
  {
    if i < |pos| {
      var j := pos[i];
      SpreadUpRaises(amt[j := SpreadValue(amt[j], Share(i, per, extraUnits, cents), false)], pos, i + 1, per, extraUnits, cents);
    }
  }

  /** Downwards, with non-negative shares, the spread takes at most the shares of `pos[i..]`. */
  lemma {:induction false} SpreadDownSum(amt: seq<int>, pos: seq<nat>, i: nat, per: nat, extraUnits: int, cents: int)
    requires i <= |pos| && InRange(pos, |amt|)
    ensures Sum(Spread(amt, pos, i, per, extraUnits, cents, true))
         >= Sum(amt) - (ShareTotal(|pos|, per, extraUnits, cents) - ShareTotal(i, per, extraUnits, cents))
    decreases |pos| - i
  {
    if i < |pos| {
      var j := pos[i];
      var v := SpreadValue(amt[j], Share(i, per, extraUnits, cents), true);
      SumUpdate(amt, j, v);
      SpreadDownSum(amt[j := v], pos, i + 1, per, extraUnits, cents);
      assert ShareTotal(i + 1, per, extraUnits, cents) == ShareTotal(i, per, extraUnits, cents) + Share(i, per, extraUnits, cents);
    }
  }

  /** Downwards, when the payments at `pos[i..]` hold at least one cent, the total never grows. */
  lemma {:induction false} SpreadDownNoGain(amt: seq<int>, pos: seq<nat>, i: nat, per: nat, extraUnits: int, cents: int)
    requires i <= |pos| && InRange(pos, |amt|)
    requires forall k :: k in pos[i..] ==> amt[k] >= 1
    ensures Sum(Spread(amt, pos, i, per, extraUnits, cents, true)) <= Sum(amt)
    decreases |pos| - i
  {
    if i < |pos| {
      var j := pos[i];
      var v := SpreadValue(amt[j], Share(i, per, extraUnits, cents), true);
      assert amt[j] >= 1 && v <= amt[j];
      SumUpdate(amt, j, v);
      assert forall k :: k in pos[i + 1..] ==> k in pos[i..];
      SpreadDownNoGain(amt[j := v], pos, i + 1, per, extraUnits, cents);
    }
  }

  /**
   * The whole-unit-then-cents spread of `total` cents over `pos`:
   * `floor(units / N)` units each, one more unit for the first
   * `units mod N`, one more cent for the first `total mod 100`.
   */
  function EvenSpread(amt: seq<int>, pos: seq<nat>, total: int, down: bool): (r: seq<int>)
    requires |pos| > 0 && InRange(pos, |amt|)
    ensures |r| == |amt|
  {
    var units := total / 100;
    Spread(amt, pos, 0, units / |pos|, units % |pos|, total % 100, down)
  }

  /** The shares of a spread of `total` over `n` payments add up to `total`, less the cents beyond one per payment. */
  lemma EvenSpreadTotal(total: nat, n: nat)
    requires n > 0
    ensures var units := total / 100;
      ShareTotal(n, units / n, units % n, total % 100) == total - (total % 100 - Min(total % 100, n))
  {
    var units := total / 100;
    var q, m := units / n, units % n;
    ShareTotalClosed(n, q, m, total % 100);
    assert units == q * n + m;
    assert total == 100 * units + total % 100;
    assert 100 * q * n + 100 * m == 100 * units;
  }

  /** Upwards, a non-negative `total` is handed out whole, except the cents beyond one per payment. */
  lemma EvenSpreadUpSum(amt: seq<int>, pos: seq<nat>, total: nat)
    requires |pos| > 0 && InRange(pos, |amt|)
    ensures Sum(EvenSpread(amt, pos, total, false)) == Sum(amt) + total - (total % 100 - Min(total % 100, |pos|))
  {
    var units := total / 100;
    var per, extra, cents := units / |pos|, units % |pos|, total % 100;
    SpreadUpSum(amt, pos, 0, per, extra, cents);
    assert ShareTotal(0, per, extra, cents) == 0;
    EvenSpreadTotal(total, |pos|);
  }

  /** Upwards, no payment goes down and only the payments at `pos` change. */
  lemma EvenSpreadUpFrame(amt: seq<int>, pos: seq<nat>, total: nat)
    requires |pos| > 0 && InRange(pos, |amt|)
    ensures forall k :: 0 <= k < |amt| ==> EvenSpread(amt, pos, total, false)[k] >= amt[k]
    ensures forall k :: 0 <= k < |amt| && k !in pos ==> EvenSpread(amt, pos, total, false)[k] == amt[k]
  {
    var units := total / 100;
    var per, extra, cents := units / |pos|, units % |pos|, total % 100;
    SpreadUpRaises(amt, pos, 0, per, extra, cents);
    SpreadFrame(amt, pos, 0, per, extra, cents, false);
    assert pos[0..] == pos;
  }

  /** Downwards, at most `total` is taken, and nothing is gained when the payments at `pos` hold a cent or more. */
  lemma EvenSpreadDownSum(amt: seq<int>, pos: seq<nat>, total: nat)
    requires |pos| > 0 && InRange(pos, |amt|)
    ensures Sum(EvenSpread(amt, pos, total, true)) >= Sum(amt) - total
    ensures (forall k :: k in pos ==> amt[k] >= 1) ==> Sum(EvenSpread(amt, pos, total, true)) <= Sum(amt)
  {
    var units := total / 100;
    var per, extra, cents := units / |pos|, units % |pos|, total % 100;
    SpreadDownSum(amt, pos, 0, per, extra, cents);
    assert ShareTotal(0, per, extra, cents) == 0;
    EvenSpreadTotal(total, |pos|);
    assert pos[0..] == pos;
    if forall k :: k in pos ==> amt[k] >= 1 {
      SpreadDownNoGain(amt, pos, 0, per, extra, cents);
    }
  }

  /** Downwards, only the payments at `pos` change, and each of them keeps at least one cent. */
  lemma EvenSpreadDownFrame(amt: seq<int>, pos: seq<nat>, total: nat)
    requires |pos| > 0 && InRange(pos, |amt|)
    ensures forall k :: 0 <= k < |amt| && k !in pos ==> EvenSpread(amt, pos, total, true)[k] == amt[k]
    ensures forall k :: k in pos ==> EvenSpread(amt, pos, total, true)[k] >= 1
  {
    var units := total / 100;
    var per, extra, cents := units / |pos|, units % |pos|, total % 100;
    SpreadFrame(amt, pos, 0, per, extra, cents, true);
    assert pos[0..] == pos;
  }

  /**
   * Phase 1 of the surplus case, run on the candidates sorted by ascending
   * amount; with a `NaN` suggested installment no payment is below it.
   */
  function SurplusTopUp(amt: seq<int>, cand: seq<nat>, sug: Option<int>, diff: int): (w: Work)
    requires InRange(cand, |amt|)
    ensures |w.amt| == |amt|
  {
    if sug.Some? then TopUp(Work(amt, {}, diff), SortBy(cand, amt, false), sug.value)
    else Work(amt, {}, diff)
  }

  /** The candidates whose amount is above `sug`, in date order (`filter(p => p.importe > sug)`). */
  function AboveIn(cand: seq<nat>, amt: seq<int>, sug: int): (r: seq<nat>)
    requires InRange(cand, |amt|)
    ensures InRange(r, |amt|)
    ensures forall k :: k in r <==> k in cand && amt[k] > sug
  {
    if cand == [] then []
    else if amt[cand[0]] > sug then [cand[0]] + AboveIn(cand[1..], amt, sug)
    else AboveIn(cand[1..], amt, sug)
  }

  /** The candidates above `sug`, sorted by descending amount. */
  function AboveSuggested(amt: seq<int>, cand: seq<nat>, sug: int): (r: seq<nat>)
    requires InRange(cand, |amt|)
    ensures InRange(r, |amt|)
  {
    SortBy(AboveIn(cand, amt, sug), amt, true)
  }

  lemma AboveSuggestedFrom(amt: seq<int>, cand: seq<nat>, sug: int)
    requires InRange(cand, |amt|)
    ensures forall k :: k in AboveSuggested(amt, cand, sug) ==> k in cand && amt[k] > sug
  {
    var r := AboveSuggested(amt, cand, sug);
    forall k | k in r ensures k in cand && amt[k] > sug {
      assert k in multiset(r);
      assert k in AboveIn(cand, amt, sug);
    }
  }

  /**
   * Deficit phase 1 from scratch over `ord`: it takes what it counts as
   * taken, between nothing and `target`; it lowers only payments at `ord`
   * that were above `sug`, never below `sug`, and marks each of them touched.
   */
  function TrimAll(amt: seq<int>, ord: seq<nat>, sug: int, target: nat): (w: Work)
    requires InRange(ord, |amt|)
    ensures |w.amt| == |amt|
    ensures Sum(w.amt) + w.left == Sum(amt)
    ensures 0 <= w.left <= target
    ensures forall k :: 0 <= k < |amt| && w.amt[k] != amt[k] ==>
              k in ord && k in w.touched && amt[k] > sug && sug <= w.amt[k] < amt[k]
  {
    var w0 := Work(amt, {}, 0);
    TrimConserves(w0, ord, sug, target);
    TrimTaken(w0, ord, sug, target);
    TrimChanges(w0, ord, sug, target);
    TrimTouched(w0, ord, sug, target);
    Trim(w0, ord, sug, target)
  }

  /**
   * Phase 1 of the deficit case, on the candidates above `sug` by descending
   * amount; with a `NaN` suggested installment no payment is above it.
   */
  function DeficitTrim(amt: seq<int>, cand: seq<nat>, sug: Option<int>, diff: int): (w: Work)
    requires InRange(cand, |amt|) && diff < 0
    ensures |w.amt| == |amt|
    ensures Sum(w.amt) + w.left == Sum(amt)
    ensures 0 <= w.left <= -diff
    ensures forall k :: 0 <= k < |amt| && w.amt[k] != amt[k] ==>
              k in cand && k in w.touched && sug.Some? && amt[k] > sug.value && sug.value <= w.amt[k] < amt[k]
  {
    if sug.Some? then
      AboveSuggestedFrom(amt, cand, sug.value);
      TrimAll(amt, AboveSuggested(amt, cand, sug.value), sug.value, -diff)
    else Work(amt, {}, 0)
  }

  /** The candidates phase 1 of the deficit case left untouched, in date order. */
  function Untouched(cand: seq<nat>, touched: set<nat>, n: nat): (r: seq<nat>)
    requires InRange(cand, n)
    ensures InRange(r, n)
    ensures forall k :: k in r <==> k in cand && k !in touched
  {
    if cand == [] then []
    else if cand[0] !in touched then [cand[0]] + Untouched(cand[1..], touched, n)
    else Untouched(cand[1..], touched, n)
  }

  /** Surplus: phase 1, then the spread of what phase 1 left over across all candidates. */
  function SurplusResult(amt: seq<int>, cand: seq<nat>, sug: Option<int>, diff: int): (r: seq<int>)
    requires InRange(cand, |amt|) && cand != []
    ensures |r| == |amt|
  {
    var w := SurplusTopUp(amt, cand, sug, diff);
    if w.left > 0 then EvenSpread(w.amt, cand, w.left, false) else w.amt
  }

  /**
   * Deficit: phase 1, then, when more than one cent is still to be taken,
   * the spread of the rest across the candidates phase 1 left untouched.
   */
  function DeficitResult(amt: seq<int>, cand: seq<nat>, sug: Option<int>, diff: int): (r: seq<int>)
    requires InRange(cand, |amt|) && diff < 0
    ensures |r| == |amt|
  {
    var w := DeficitTrim(amt, cand, sug, diff);
    var free := Untouched(cand, w.touched, |amt|);
    if -diff - w.left > 1 && free != [] then EvenSpread(w.amt, free, -diff - w.left, true) else w.amt
  }

  /** The new amounts of all payments after moving `diff` onto the candidates. */
  function Redistribute(amt: seq<int>, cand: seq<nat>, sug: Option<int>, diff: int): (r: seq<int>)
    requires InRange(cand, |amt|)
    ensures |r| == |amt|
  {
    if diff > 0 && cand != [] then SurplusResult(amt, cand, sug, diff)
    else if diff < 0 && cand != [] then DeficitResult(amt, cand, sug, diff)
    else amt
  }

  /** Surplus phase 1 as the loop over the payments by ascending amount, leaving once the surplus is used up. */
  method TopUpInOrder(amt0: seq<int>, ord: seq<nat>, sug: int, diff: int) returns (amt: seq<int>, left: int)
    requires InRange(ord, |amt0|)
    ensures amt == TopUp(Work(amt0, {}, diff), ord, sug).amt
    ensures left == TopUp(Work(amt0, {}, diff), ord, sug).left
  {
    amt, left := amt0, diff;
    ghost var touched: set<nat> := {};
    var k := 0;
    while k < |ord|
      invariant 0 <= k <= |ord| && |amt| == |amt0|
      invariant TopUp(Work(amt, touched, left), ord[k..], sug) == TopUp(Work(amt0, {}, diff), ord, sug)
    {
      if left <= 0 {
        TopUpExhausted(Work(amt, touched, left), ord[k..], sug);
        break;
      }
      var j := ord[k];
      assert ord[k..][0] == j && ord[k..][1..] == ord[k + 1..];
      if amt[j] < sug {
        var inc := Min(left, sug - amt[j]);
        amt := amt[j := amt[j] + inc];
        touched := touched + {j};
        left := left - inc;
      }
      k := k + 1;
    }
  }

  /**
   * Deficit phase 1 as the loop over the payments above `sug` by descending
   * amount: a payment with nothing to give is skipped, and the loop is left
   * once the whole deficit is taken.
   */
  method TrimInOrder(amt0: seq<int>, ord: seq<nat>, sug: int, target: nat) returns (amt: seq<int>, touched: set<nat>, taken: int)
    requires InRange(ord, |amt0|)
    ensures Work(amt, touched, taken) == Trim(Work(amt0, {}, 0), ord, sug, target)
  {
    amt, touched, taken := amt0, {}, 0;
    var k := 0;
    while k < |ord|
      invariant 0 <= k <= |ord| && |amt| == |amt0|
      invariant Trim(Work(amt, touched, taken), ord[k..], sug, target) == Trim(Work(amt0, {}, 0), ord, sug, target)
    {
      var j := ord[k];
      assert ord[k..][0] == j && ord[k..][1..] == ord[k + 1..];
      var red := Min(target - taken, amt[j] - sug);
      if red > 0 {
        amt := amt[j := amt[j] - red];
        touched := touched + {j};
        taken := taken + red;
        if taken == target {
          TrimSettled(Work(amt, touched, taken), ord[k + 1..], sug, target);
          break;
        }
      }
      k := k + 1;
    }
  }

  /**
   * The even spread as the loop over `pos`: `resto` counts down the extra
   * units still to hand out.
   */
  method SpreadEvenly(amt0: seq<int>, pos: seq<nat>, total: int, down: bool) returns (amt: seq<int>)
    requires |pos| > 0 && InRange(pos, |amt0|)
    ensures amt == EvenSpread(amt0, pos, total, down)
  {
    var n := |pos|;
    var units := total / 100;
    var per := units / n;
    var resto := units - per * n;
    var cents := total % 100;
    amt := amt0;
    for i := 0 to n
      invariant |amt| == |amt0|
      invariant resto == Max(units % n - i, 0)
      invariant Spread(amt, pos, i, per, units % n, cents, down) == EvenSpread(amt0, pos, total, down)
    {
      var share := per * 100;
      if resto > 0 {
        share := share + 100;
        resto := resto - 1;
      }
      if i < cents {
        share := share + 1;
      }
      var j := pos[i];
      if down {
        amt := amt[j := Max(1, amt[j] - share)];
      } else {
        amt := amt[j := amt[j] + share];
      }
    }
  }

  /** The surplus case, computed by the loops above. */
  method SurplusInOrder(amt0: seq<int>, cand: seq<nat>, sug: Option<int>, diff: int) returns (amt: seq<int>)
    requires InRange(cand, |amt0|) && cand != []
    ensures amt == SurplusResult(amt0, cand, sug, diff)
  {
    var left;
    if sug.Some? {
      amt, left := TopUpInOrder(amt0, SortBy(cand, amt0, false), sug.value, diff);
    } else {
      amt, left := amt0, diff;
    }
    if left > 0 {
      amt := SpreadEvenly(amt, cand, left, false);
    }
  }

  /** The deficit case, computed by the loops above. */
  method DeficitInOrder(amt0: seq<int>, cand: seq<nat>, sug: Option<int>, diff: int) returns (amt: seq<int>)
    requires InRange(cand, |amt0|) && diff < 0
    ensures amt == DeficitResult(amt0, cand, sug, diff)
  {
    var touched, taken;
    if sug.Some? {
      amt, touched, taken := TrimInOrder(amt0, AboveSuggested(amt0, cand, sug.value), sug.value, -diff);
    } else {
      amt, touched, taken := amt0, {}, 0;
    }
    assert Work(amt, touched, taken) == DeficitTrim(amt0, cand, sug, diff);
    var rest := -diff - taken;
    if rest > 1 {
      var free := Untouched(cand, touched, |amt0|);
      if free != [] {
        amt := SpreadEvenly(amt, free, rest, true);
      }
    }
  }

  /** Both cases of the post-edit redistribution. */
  method RedistributeDifference(amt0: seq<int>, cand: seq<nat>, sug: Option<int>, diff: int) returns (amt: seq<int>)
    requires InRange(cand, |amt0|)
    ensures amt == Redistribute(amt0, cand, sug, diff)
  {
    if diff > 0 && cand != [] {
      amt := SurplusInOrder(amt0, cand, sug, diff);
    } else if diff < 0 && cand != [] {
      amt := DeficitInOrder(amt0, cand, sug, diff);
    } else {
      amt := amt0;
    }
  }

  /**
   * Surplus: no payment goes down, only candidates change, and the payments
   * gain `diff` in all, less the cents of the spread that do not fit one per
   * candidate; with 99 or more candidates nothing is lost.
   */
  lemma RedistributeSurplus(amt: seq<int>, cand: seq<nat>, sug: Option<int>, diff: int)
    requires InRange(cand, |amt|) && diff > 0 && cand != []
    ensures var r := Redistribute(amt, cand, sug, diff);
      var left := SurplusTopUp(amt, cand, sug, diff).left;
      && |r| == |amt|
      && (forall k :: 0 <= k < |amt| ==> r[k] >= amt[k])
      && (forall k :: 0 <= k < |amt| && k !in cand ==> r[k] == amt[k])
      && Sum(r) == Sum(amt) + diff - (if left > 0 then left % 100 - Min(left % 100, |cand|) else 0)
      && Sum(amt) + diff - 98 <= Sum(r) <= Sum(amt) + diff
      && (|cand| >= 99 ==> Sum(r) == Sum(amt) + diff)
  {
    var w := SurplusTopUp(amt, cand, sug, diff);
    if sug.Some? {
      var ord := SortBy(cand, amt, false);
      var w0 := Work(amt, {}, diff);
      TopUpConserves(w0, ord, sug.value);
      TopUpLeft(w0, ord, sug.value);
      TopUpChanges(w0, ord, sug.value);
      assert forall k :: k in ord ==> k in cand by {
        forall k | k in ord ensures k in cand {
          assert k in multiset(ord);
        }
      }
    }
    if w.left > 0 {
      EvenSpreadUpSum(w.amt, cand, w.left);
      EvenSpreadUpFrame(w.amt, cand, w.left);
    }
  }

  /** With a numeric suggested installment, surplus left after phase 1 means every candidate reached it. */
  lemma RedistributeSurplusGreedy(amt: seq<int>, cand: seq<nat>, sug: int, diff: int)
    requires InRange(cand, |amt|) && diff > 0 && cand != []
    ensures SurplusTopUp(amt, cand, Some(sug), diff).left > 0 ==>
              forall k :: k in cand ==> SurplusTopUp(amt, cand, Some(sug), diff).amt[k] >= sug
  {
    var ord := SortBy(cand, amt, false);
    TopUpGreedy(Work(amt, {}, diff), ord, sug);
    assert forall k :: k in cand ==> k in ord by {
      forall k | k in cand ensures k in ord {
        assert k in multiset(cand);
      }
    }
  }

  /**
   * Deficit, where the payments change: only candidates; a payment changed
   * in phase 1 was above `sug` and stays at or above it; phase 2 leaves the
   * payments phase 1 changed alone, and a payment it changes keeps at least
   * one cent.
   */
  lemma RedistributeDeficitFrame(amt: seq<int>, cand: seq<nat>, sug: Option<int>, diff: int)
    requires InRange(cand, |amt|) && diff < 0 && cand != []
    ensures var r := Redistribute(amt, cand, sug, diff);
      var w := DeficitTrim(amt, cand, sug, diff);
      && |r| == |amt|
      && (forall k :: 0 <= k < |amt| && k !in cand ==> r[k] == amt[k])
      && (forall k :: 0 <= k < |amt| && w.amt[k] != amt[k] ==> sug.Some? && amt[k] > sug.value && w.amt[k] >= sug.value)
      && (forall k :: 0 <= k < |amt| && k in w.touched ==> r[k] == w.amt[k])
      && (forall k :: 0 <= k < |amt| && r[k] != w.amt[k] ==> r[k] >= 1)
  {
    var r := Redistribute(amt, cand, sug, diff);
    var w := DeficitTrim(amt, cand, sug, diff);
    var free := Untouched(cand, w.touched, |amt|);
    assert r == DeficitResult(amt, cand, sug, diff);
    DeficitSpreadFrame(amt, cand, sug, diff);
    DeficitSpreadFloor(amt, cand, sug, diff);
    forall k | 0 <= k < |amt| && k !in cand ensures r[k] == amt[k] {
      assert k !in free;
    }
    forall k | 0 <= k < |amt| && k in w.touched ensures r[k] == w.amt[k] {
      assert k !in free;
    }
  }

  /** Deficit phase 2 changes only the candidates phase 1 left untouched. */
  lemma DeficitSpreadFrame(amt: seq<int>, cand: seq<nat>, sug: Option<int>, diff: int)
    requires InRange(cand, |amt|) && diff < 0
    ensures var r := DeficitResult(amt, cand, sug, diff);
      var w := DeficitTrim(amt, cand, sug, diff);
      forall k :: 0 <= k < |amt| && k !in Untouched(cand, w.touched, |amt|) ==> r[k] == w.amt[k]
  {
    var w := DeficitTrim(amt, cand, sug, diff);
    var free := Untouched(cand, w.touched, |amt|);
    if -diff - w.left > 1 && free != [] {
      assert DeficitResult(amt, cand, sug, diff) == EvenSpread(w.amt, free, -diff - w.left, true);
      EvenSpreadDownFrame(w.amt, free, -diff - w.left);
    }
  }

  /** A payment deficit phase 2 changes keeps at least one cent. */
  lemma DeficitSpreadFloor(amt: seq<int>, cand: seq<nat>, sug: Option<int>, diff: int)
    requires InRange(cand, |amt|) && diff < 0
    ensures var r := DeficitResult(amt, cand, sug, diff);
      var w := DeficitTrim(amt, cand, sug, diff);
      forall k :: 0 <= k < |amt| && r[k] != w.amt[k] ==> r[k] >= 1
  {
    var w := DeficitTrim(amt, cand, sug, diff);
    var free := Untouched(cand, w.touched, |amt|);
    if -diff - w.left > 1 && free != [] {
      var r := EvenSpread(w.amt, free, -diff - w.left, true);
      assert DeficitResult(amt, cand, sug, diff) == r;
      EvenSpreadDownFrame(w.amt, free, -diff - w.left);
      forall k | 0 <= k < |amt| && r[k] != w.amt[k] ensures r[k] >= 1 {
        assert k in free;
      }
    }
  }

  /**
   * Deficit, in total: the payments lose at most `-diff`, exactly `-diff`
   * when phase 1 absorbs it, and never gain when every candidate holds at
   * least one cent.
   */
  lemma RedistributeDeficitSum(amt: seq<int>, cand: seq<nat>, sug: Option<int>, diff: int)
    requires InRange(cand, |amt|) && diff < 0 && cand != []
    ensures Sum(Redistribute(amt, cand, sug, diff)) >= Sum(amt) + diff
    ensures DeficitTrim(amt, cand, sug, diff).left == -diff ==> Sum(Redistribute(amt, cand, sug, diff)) == Sum(amt) + diff
    ensures (forall k :: k in cand ==> amt[k] >= 1) ==> Sum(Redistribute(amt, cand, sug, diff)) <= Sum(amt)
  {
    var r := Redistribute(amt, cand, sug, diff);
    var w := DeficitTrim(amt, cand, sug, diff);
    var free := Untouched(cand, w.touched, |amt|);
    var rest := -diff - w.left;
    if rest > 1 && free != [] {
      assert r == EvenSpread(w.amt, free, rest, true);
      EvenSpreadDownSum(w.amt, free, rest);
      if forall k :: k in cand ==> amt[k] >= 1 {
        forall k | k in free ensures w.amt[k] >= 1 {
          assert k in cand;
        }
      }
    } else {
      assert r == w.amt;
    }
  }

  /**
   * Editing the second of four payments (300, 300, 300, 100) down to 200
   * with a suggested installment of 300: the 100 after it absorbs the
   * whole 100 and the total stays 1000.
   */
  lemma RedistributeExample()
    ensures Redistribute([30000, 20000, 30000, 10000], [2, 3], Some(30000), 10000) == [30000, 20000, 30000, 20000]
  {
    var amt := [30000, 20000, 30000, 10000];
    assert SortBy([3], amt, false) == [3];
    assert SortBy([2, 3], amt, false) == [3, 2];
    var w0 := Work(amt, {}, 10000);
    var w1 := Work(amt[3 := 20000], {3}, 0);
    assert TopUpStep(w0, 3, 30000) == w1;
    assert TopUp(w0, [3, 2], 30000) == TopUp(w1, [2], 30000);
    assert TopUp(w1, [2], 30000) == TopUp(w1, [], 30000);
  }

  /** With no touched payment, every candidate is left for phase 2, in date order. */
  lemma {:induction false} UntouchedAll(cand: seq<nat>, n: nat)
    requires InRange(cand, n)
    ensures Untouched(cand, {}, n) == cand
    decreases |cand|
  {
    if cand != [] {
      UntouchedAll(cand[1..], n);
    }
  }

  /**
   * A NULL suggested installment (`NaN`): neither phase 1 moves anything,
   * so a surplus is spread whole over the candidates, and a deficit of more
   * than one cent is taken whole from all of them, in the whole-unit and
   * cent pattern.
   */
  lemma RedistributeWithoutSuggested(amt: seq<int>, cand: seq<nat>, diff: int)
    requires InRange(cand, |amt|) && cand != []
    ensures diff > 0 ==> Redistribute(amt, cand, None, diff) == EvenSpread(amt, cand, diff, false)
    ensures diff < 0 ==> Redistribute(amt, cand, None, diff) == (if -diff > 1 then EvenSpread(amt, cand, -diff, true) else amt)
  {
    UntouchedAll(cand, |amt|);
  }

  /**
   * Later pending payments of 100.00 and 50.00, a NULL suggested
   * installment, and the edited payment raised by 60.00: nothing is trimmed
   * first, and each gives up 30.00.
   */
  lemma NullSuggestedExample()
    ensures Redistribute([10000, 5000], [0, 1], None, -6000) == [7000, 2000]
  {
    RedistributeWithoutSuggested([10000, 5000], [0, 1], -6000);
    var pos := [0, 1];
    assert Spread([10000, 5000], pos, 0, 30, 0, 0, true) == Spread([7000, 5000], pos, 1, 30, 0, 0, true);
    assert Spread([7000, 5000], pos, 1, 30, 0, 0, true) == Spread([7000, 2000], pos, 2, 30, 0, 0, true);
  }
}
