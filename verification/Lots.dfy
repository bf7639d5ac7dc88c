/** Open lots of one side of one instrument, in opening order, and the cumulative
    cost that a first-in first-out queue has to charge.  Shared by the execution
    ledger and by the Bybit report. */
module Lots {
  import opened RealArith

  /** `action` is the audit identifier of the opening execution, "" when there is none. */
  datatype Lot = Lot(qty: real, price: real, time: int, action: string)

  /** Price of a quantity.  Proofs that do not split a product hide its definition. */
  function Cost(qty: real, price: real): real {
    qty * price
  }

  lemma CostSplits(a: real, b: real, price: real)
    ensures Cost(a + b, price) == Cost(a, price) + Cost(b, price)
    ensures Cost(a - b, price) == Cost(a, price) - Cost(b, price)
    ensures Cost(0.0, price) == 0.0
  {
  }

  ghost predicate Positive(lots: seq<Lot>) {
    forall i :: 0 <= i < |lots| ==> lots[i].qty > 0.0
  }

  ghost function Total(lots: seq<Lot>): real {
    if lots == [] then 0.0 else lots[0].qty + Total(lots[1..])
  }

  /** Cost of the whole queue. */
  ghost function Value(lots: seq<Lot>): real {
    if lots == [] then 0.0 else Cost(lots[0].qty, lots[0].price) + Value(lots[1..])
  }

  /** Piecewise-linear cumulative cost: the price of the first `x` units of `lots`. */
  ghost function CostOf(lots: seq<Lot>, x: real): real {
    if lots == [] then 0.0
    else if x <= lots[0].qty then Cost(x, lots[0].price)
    else Cost(lots[0].qty, lots[0].price) + CostOf(lots[1..], x - lots[0].qty)
  }

  /** What is left of `lots` once the first `x` units are gone. */
  ghost function After(lots: seq<Lot>, x: real): seq<Lot> {
    if lots == [] then []
    else if x < lots[0].qty then [lots[0].(qty := lots[0].qty - x)] + lots[1..]
    else After(lots[1..], x - lots[0].qty)
  }

  lemma {:induction false} TotalAppend(a: seq<Lot>, b: seq<Lot>)
    ensures Total(a + b) == Total(a) + Total(b)
    ensures Value(a + b) == Value(a) + Value(b)
  {
    hide Cost;
    if a == [] {
      assert a + b == b;
    } else {
      assert (a + b)[1..] == a[1..] + b;
      TotalAppend(a[1..], b);
    }
  }

  lemma {:induction false} TotalNonNegative(lots: seq<Lot>)
    requires Positive(lots)
    ensures Total(lots) >= 0.0
    ensures lots != [] ==> Total(lots) > 0.0
  {
    if lots != [] { TotalNonNegative(lots[1..]); }
  }

  /** Dropping quantity keeps lots positive and removes exactly that quantity. */
  lemma {:induction false} AfterTotal(lots: seq<Lot>, x: real)
    requires Positive(lots) && 0.0 <= x <= Total(lots)
    ensures Positive(After(lots, x))
    ensures Total(After(lots, x)) == Total(lots) - x
  {
    if lots != [] && x >= lots[0].qty {
      AfterTotal(lots[1..], x - lots[0].qty);
    }
  }

  lemma {:induction false} AfterAfter(lots: seq<Lot>, x: real, y: real)
    requires Positive(lots) && 0.0 <= x && 0.0 <= y && x + y <= Total(lots)
    ensures After(After(lots, x), y) == After(lots, x + y)
  {
    if lots == [] {
    } else if x < lots[0].qty {
      var front := [lots[0].(qty := lots[0].qty - x)] + lots[1..];
      assert front[1..] == lots[1..];
    } else {
      AfterAfter(lots[1..], x - lots[0].qty, y);
    }
  }

  lemma CostShiftFirst(lots: seq<Lot>, x: real, y: real)
    requires lots != [] && 0.0 <= x < lots[0].qty && 0.0 <= y
    ensures CostOf(After(lots, x), y) == CostOf(lots, x + y) - CostOf(lots, x)
  {
    hide Cost;
    var q, p := lots[0].qty, lots[0].price;
    var front := [lots[0].(qty := q - x)] + lots[1..];
    assert After(lots, x) == front && front[1..] == lots[1..];
    CostSplits(x, y, p);
    CostSplits(q, x, p);
    if x + y > q {
      assert y - (q - x) == x + y - q;
    }
  }

  /** The cost function restarted after `x` units is the original one shifted by `x`. */
  lemma {:induction false} CostShift(lots: seq<Lot>, x: real, y: real)
    requires Positive(lots) && 0.0 <= x && 0.0 <= y && x + y <= Total(lots)
    ensures CostOf(After(lots, x), y) == CostOf(lots, x + y) - CostOf(lots, x)
  {
    hide Cost;
    if lots == [] {
    } else if x < lots[0].qty {
      CostShiftFirst(lots, x, y);
    } else {
      var d := x - lots[0].qty;
      var head := Cost(lots[0].qty, lots[0].price);
      CostShift(lots[1..], d, y);
      CostZero(lots[1..]);
      assert CostOf(lots, x) == head + CostOf(lots[1..], d);
      assert x + y - lots[0].qty == d + y;
      assert CostOf(lots, x + y) == head + CostOf(lots[1..], d + y);
    }
  }

  lemma CostZero(lots: seq<Lot>)
    requires Positive(lots)
    ensures CostOf(lots, 0.0) == 0.0
  {
    if lots != [] { CostSplits(0.0, 0.0, lots[0].price); }
  }

  /** A later opening changes neither the cost nor the position of earlier units. */
  lemma {:induction false} AppendBehind(lots: seq<Lot>, l: Lot, x: real)
    requires Positive(lots) && l.qty > 0.0 && 0.0 <= x <= Total(lots)
    ensures CostOf(lots + [l], x) == CostOf(lots, x)
    ensures After(lots + [l], x) == After(lots, x) + [l]
  {
    hide Cost;
    if lots == [] {
      assert lots + [l] == [l];
      CostSplits(0.0, 0.0, l.price);
      assert [l.(qty := l.qty - x)] + [l][1..] == [l];
    } else {
      assert (lots + [l])[1..] == lots[1..] + [l];
      if x < lots[0].qty {
        assert After(lots + [l], x) == After(lots, x) + [l];
      } else {
        AppendBehind(lots[1..], l, x - lots[0].qty);
      }
    }
  }

  // ---------------------------------------------------------------- draining

  /** The variables of a closing loop: what is still queued and wanted, and what
      has been matched so far. */
  datatype Draining = Draining(queue: seq<Lot>, remaining: real, cost: real, matched: real,
                               times: seq<int>, actions: seq<string>)

  function Start(queue: seq<Lot>, qty: real): Draining {
    Draining(queue, qty, 0.0, 0.0, [], [])
  }

  /** One round of the loop: take from the oldest lot, drop it once only dust is left. */
  function DrainStep(d: Draining, eps: real): Draining
    requires d.queue != []
  {
    var lot := d.queue[0];
    var take := Min(d.remaining, lot.qty);
    Draining(
      if lot.qty - take <= eps then d.queue[1..] else [lot.(qty := lot.qty - take)] + d.queue[1..],
      d.remaining - take, d.cost + Cost(take, lot.price), d.matched + take,
      d.times + [lot.time], d.actions + [lot.action])
  }

  function Drain(d: Draining, eps: real): Draining
    requires eps >= 0.0
    decreases |d.queue|, if d.remaining > eps then 1 else 0
  {
    if d.remaining <= eps || d.queue == [] then d else Drain(DrainStep(d, eps), eps)
  }

  /** Quantity that the loop threw away as dust. */
  ghost function Dust(before: Draining, after: Draining): real {
    Total(before.queue) - Total(after.queue) - (after.matched - before.matched)
  }

  /** Largest total of dust that dropping lots may have lost. */
  ghost function Slack(eps: real, dropped: int): real {
    eps * dropped as real
  }

  lemma SlackAdds(eps: real, n: int, m: int)
    ensures Slack(eps, n + m) == Slack(eps, n) + Slack(eps, m)
    ensures Slack(eps, 0) == 0.0 && Slack(eps, 1) == eps
    ensures eps >= 0.0 && n >= 0 ==> Slack(eps, n) >= 0.0
  {
    assert (n + m) as real == n as real + m as real;
  }

  lemma AfterZero(lots: seq<Lot>)
    requires Positive(lots)
    ensures After(lots, 0.0) == lots
  {
  }

  /** The closing loop against the cumulative cost: from `d` to `r` it matched all that was
      wanted or all that was there (up to `eps`), charged exactly the cost of that first
      slice, and left the queue behind the slice and at most `eps` of dust per dropped lot. */
  ghost predicate ChargesFirstSlice(d: Draining, r: Draining, eps: real) {
    var m := r.matched - d.matched;
    && 0.0 <= m <= Min(d.remaining, Total(d.queue)) <= m + eps
    && r.remaining == d.remaining - m
    && r.cost - d.cost == CostOf(d.queue, m)
    && Positive(r.queue) && |r.queue| <= |d.queue|
    && 0.0 <= Dust(d, r) <= eps
    && Dust(d, r) <= Slack(eps, |d.queue| - |r.queue|)
    && m + Dust(d, r) <= Total(d.queue)
    && r.queue == After(d.queue, m + Dust(d, r))
  }

  lemma DrainNothing(d: Draining, eps: real)
    requires eps >= 0.0 && Positive(d.queue) && d.remaining >= 0.0
    requires d.remaining <= eps || d.queue == []
    ensures ChargesFirstSlice(d, d, eps)
  {
    hide Cost, Slack;
    TotalNonNegative(d.queue);
    CostZero(d.queue);
    AfterZero(d.queue);
    SlackAdds(eps, 0, 0);
  }

  lemma DrainWithinLot(d: Draining, eps: real)
    requires eps >= 0.0 && Positive(d.queue) && d.queue != []
    requires 0.0 <= d.remaining < d.queue[0].qty
    ensures ChargesFirstSlice(d, DrainStep(d, eps), eps)
  {
    hide Cost, Slack;
    SlackAdds(eps, 0, 1);
    var q, s := d.queue, DrainStep(d, eps);
    var rest := q[1..];
    TotalNonNegative(rest);
    AfterZero(rest);
    assert Total(q) == q[0].qty + Total(rest);
    assert s.matched - d.matched == d.remaining;
    var left := q[0].qty - d.remaining;
    if left > eps {
      assert s.queue == [q[0].(qty := left)] + rest;
      assert s.queue[1..] == rest;
      assert Dust(d, s) == 0.0;
    } else {
      assert Dust(d, s) == left;
      assert After(q, q[0].qty) == After(rest, 0.0);
    }
  }

  lemma DrainWholeLot(d: Draining, r: Draining, eps: real)
    requires eps >= 0.0 && Positive(d.queue) && d.queue != []
    requires d.remaining >= d.queue[0].qty
    requires ChargesFirstSlice(DrainStep(d, eps), r, eps)
    ensures ChargesFirstSlice(d, r, eps)
  {
    hide Cost, Slack;
    var q, s := d.queue, DrainStep(d, eps);
    var rest := q[1..];
    assert s.queue == rest;
    assert Total(q) == q[0].qty + Total(rest);
    var m := r.matched - s.matched;
    assert r.matched - d.matched == q[0].qty + m;
    assert Dust(d, r) == Dust(s, r);
    CostZero(rest);
    assert CostOf(q, q[0].qty + m) == Cost(q[0].qty, q[0].price) + CostOf(rest, m);
    assert After(q, q[0].qty + (m + Dust(s, r))) == After(rest, m + Dust(s, r));
    SlackAdds(eps, |rest| - |r.queue|, 1);
  }

  lemma {:induction false} DrainRefines(d: Draining, eps: real)
    requires eps >= 0.0 && Positive(d.queue) && d.remaining >= 0.0
    ensures ChargesFirstSlice(d, Drain(d, eps), eps)
    decreases |d.queue|
  {
    hide ChargesFirstSlice, Cost;
    if d.remaining <= eps || d.queue == [] {
      DrainNothing(d, eps);
    } else if d.remaining < d.queue[0].qty {
      assert Drain(DrainStep(d, eps), eps) == DrainStep(d, eps);
      DrainWithinLot(d, eps);
    } else {
      DrainRefines(DrainStep(d, eps), eps);
      DrainWholeLot(d, Drain(d, eps), eps);
    }
  }

  ghost function Times(lots: seq<Lot>): seq<int> {
    if lots == [] then [] else [lots[0].time] + Times(lots[1..])
  }

  ghost function Actions(lots: seq<Lot>): seq<string> {
    if lots == [] then [] else [lots[0].action] + Actions(lots[1..])
  }

  ghost predicate PricedWithin(lots: seq<Lot>, lo: real, hi: real) {
    forall i :: 0 <= i < |lots| ==> lo <= lots[i].price <= hi
  }

  /** How many rounds the loop makes. */
  ghost function Visits(d: Draining, eps: real): nat
    requires eps >= 0.0
    decreases |d.queue|, if d.remaining > eps then 1 else 0
  {
    if d.remaining <= eps || d.queue == [] then 0 else 1 + Visits(DrainStep(d, eps), eps)
  }

  lemma Regroup<X>(a: seq<X>, x: X, b: seq<X>)
    ensures (a + [x]) + b == a + ([x] + b)
  {
  }

  lemma RecordsOneMore(d: Draining, eps: real, n: nat)
    requires eps >= 0.0 && d.remaining > eps && d.queue != [] && n < |d.queue|
    requires Drain(DrainStep(d, eps), eps).times == DrainStep(d, eps).times + Times(d.queue[1..][..n])
    requires Drain(DrainStep(d, eps), eps).actions == DrainStep(d, eps).actions + Actions(d.queue[1..][..n])
    ensures Drain(d, eps).times == d.times + Times(d.queue[..n + 1])
    ensures Drain(d, eps).actions == d.actions + Actions(d.queue[..n + 1])
  {
    hide Cost, Times, Actions;
    PrefixStep(d.queue, n);
    Regroup(d.times, d.queue[0].time, Times(d.queue[1..][..n]));
    Regroup(d.actions, d.queue[0].action, Actions(d.queue[1..][..n]));
  }

  /** The loop visits a prefix of the queue and records its lots in order ... */
  lemma {:induction false} DrainRecordsPrefix(d: Draining, eps: real)
    requires eps >= 0.0 && Positive(d.queue) && d.remaining >= 0.0
    ensures Visits(d, eps) <= |d.queue|
    ensures Drain(d, eps).times == d.times + Times(d.queue[..Visits(d, eps)])
    ensures Drain(d, eps).actions == d.actions + Actions(d.queue[..Visits(d, eps)])
    decreases |d.queue|
  {
    hide Cost;
    if d.remaining <= eps || d.queue == [] {
      assert d.queue[..0] == [];
    } else {
      var s := DrainStep(d, eps);
      if d.remaining < d.queue[0].qty {
        assert Drain(s, eps) == s && Visits(s, eps) == 0;
        assert d.queue[1..][..0] == [];
      } else {
        assert s.queue == d.queue[1..];
        DrainRecordsPrefix(s, eps);
      }
      RecordsOneMore(d, eps, Visits(s, eps));
    }
  }

  /** ... and what it matches reaches into the last lot it visited and not beyond. */
  lemma {:induction false} DrainMatchesPrefix(d: Draining, eps: real)
    requires eps >= 0.0 && Positive(d.queue) && d.remaining >= 0.0
    ensures var k, m := Visits(d, eps), Drain(d, eps).matched - d.matched;
      && k <= |d.queue|
      && (if k == 0 then m == 0.0 else Total(d.queue[..k - 1]) < m <= Total(d.queue[..k]))
    decreases |d.queue|
  {
    hide Cost;
    if d.remaining > eps && d.queue != [] {
      var q, s := d.queue, DrainStep(d, eps);
      if d.remaining < q[0].qty {
        assert Drain(s, eps) == s && Visits(s, eps) == 0;
        assert q[..1] == [q[0]];
        assert q[..0] == [];
      } else {
        DrainMatchesPrefix(s, eps);
        var n := Visits(s, eps);
        PrefixStep(q, n);
        if n > 0 { PrefixStep(q, n - 1); } else { assert q[..0] == []; }
      }
    }
  }

  lemma PrefixStep(q: seq<Lot>, n: nat)
    requires n < |q|
    ensures Times(q[..n + 1]) == [q[0].time] + Times(q[1..][..n])
    ensures Actions(q[..n + 1]) == [q[0].action] + Actions(q[1..][..n])
    ensures Total(q[..n + 1]) == q[0].qty + Total(q[1..][..n])
  {
    assert q[..n + 1][1..] == q[1..][..n];
  }

  /** The average price of a slice lies between the least and greatest price in it. */
  lemma {:induction false} CostWithinPrices(lots: seq<Lot>, x: real, k: nat, lo: real, hi: real)
    requires Positive(lots) && k <= |lots| && 0.0 <= x <= Total(lots[..k])
    requires PricedWithin(lots[..k], lo, hi)
    ensures Cost(x, lo) <= CostOf(lots, x) <= Cost(x, hi)
  {
    hide Cost;
    if k == 0 {
      CostZero(lots);
      CostSplits(0.0, 0.0, lo);
      CostSplits(0.0, 0.0, hi);
    } else {
      PrefixStep(lots, k - 1);
      var first := lots[0];
      assert lo <= lots[..k][0].price <= hi;
      if x <= first.qty {
        CostOrdered(x, lo, first.price);
        CostOrdered(x, first.price, hi);
      } else {
        var y := x - first.qty;
        assert lots[1..][..k - 1] == lots[..k][1..];
        CostWithinPrices(lots[1..], y, k - 1, lo, hi);
        CostOrdered(first.qty, lo, first.price);
        CostOrdered(first.qty, first.price, hi);
        CostSplits(first.qty, y, lo);
        CostSplits(first.qty, y, hi);
      }
    }
  }

  lemma CostOrdered(x: real, p: real, q: real)
    requires x >= 0.0 && p <= q
    ensures Cost(x, p) <= Cost(x, q)
  {
  }
}
