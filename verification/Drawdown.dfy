/** One-pass drawdowns against their pairwise definitions.  A curve starts with its
    baseline: the zero of a P&L chart, or the capital of a simulation. */
module Drawdown {
  import opened RealArith

  // ------------------------------------------------------- specification

  ghost predicate IsPeak(curve: seq<real>, peak: real) {
    && (exists i :: 0 <= i < |curve| && curve[i] == peak)
    && (forall i :: 0 <= i < |curve| ==> curve[i] <= peak)
  }

  ghost predicate DropsBy(curve: seq<real>, i: int, j: int, d: real) {
    0 <= i <= j < |curve| && curve[i] - curve[j] == d
  }

  /** `d` is the largest fall from an earlier point of the curve to a later one. */
  ghost predicate IsMaxDrop(curve: seq<real>, d: real) {
    && (exists i, j :: DropsBy(curve, i, j, d))
    && (forall i, j :: 0 <= i <= j < |curve| ==> curve[i] - curve[j] <= d)
  }

  function Percent(from: real, to: real): real
    requires from > 0.0
  {
    (from - to) / from * 100.0
  }

  ghost predicate FallsBy(curve: seq<real>, i: int, j: int, d: real) {
    0 <= i <= j < |curve| && curve[i] > 0.0 && Percent(curve[i], curve[j]) == d
  }

  /** `d` is the largest relative fall, in percent, from an earlier positive point. */
  ghost predicate IsMaxFall(curve: seq<real>, d: real) {
    && (exists i, j :: FallsBy(curve, i, j, d))
    && (forall i, j :: 0 <= i <= j < |curve| && curve[i] > 0.0 ==> Percent(curve[i], curve[j]) <= d)
  }

  // ------------------------------------------------------- one more point

  lemma Baseline(x: real)
    ensures IsPeak([x], x) && IsMaxDrop([x], 0.0)
    ensures x > 0.0 ==> IsMaxFall([x], 0.0)
  {
    assert [x][0] == x;
    assert DropsBy([x], 0, 0, 0.0);
    if x > 0.0 {
      QuotientIs(0.0, x, 0.0);
      assert FallsBy([x], 0, 0, 0.0);
    }
  }

  lemma PeakExtends(curve: seq<real>, peak: real, e: real)
    requires IsPeak(curve, peak)
    ensures IsPeak(curve + [e], Max(peak, e))
  {
    var more := curve + [e];
    var i :| 0 <= i < |curve| && curve[i] == peak;
    assert more[i] == peak && more[|curve|] == e;
  }

  lemma DropExtends(curve: seq<real>, peak: real, d: real, e: real)
    requires IsPeak(curve, peak) && IsMaxDrop(curve, d)
    ensures IsMaxDrop(curve + [e], Max(d, Max(peak, e) - e))
  {
    var more := curve + [e];
    var n := |curve|;
    PeakExtends(curve, peak, e);
    var p :| 0 <= p < |more| && more[p] == Max(peak, e);
    assert DropsBy(more, p, n, Max(peak, e) - e);
    var i, j :| DropsBy(curve, i, j, d);
    assert DropsBy(more, i, j, d);
  }

  /** A higher start makes the same fall to a non-negative point relatively larger. */
  lemma PercentGrows(from: real, peak: real, to: real)
    requires 0.0 < from <= peak && to >= 0.0
    ensures Percent(from, to) <= Percent(peak, to)
  {
    Complement(from, to);
    Complement(peak, to);
    QuotientShrinks(from, peak, to);
  }

  lemma Complement(a: real, x: real)
    requires a > 0.0
    ensures (a - x) / a == 1.0 - x / a
  {
    var q := x / a;
    assert q * a == x;
    assert (1.0 - q) * a == a - x;
    QuotientIs(a - x, a, 1.0 - q);
  }

  lemma QuotientShrinks(a: real, b: real, x: real)
    requires 0.0 < a <= b && x >= 0.0
    ensures x / b <= x / a
  {
    var q := x / b;
    QuotientBetween(x, b, 0.0, q);
    QuotientIs(x, b, q);
    ProductSign(q, b - a);
    assert q * (b - a) == q * b - q * a;
    QuotientBetween(x, a, q, q);
  }

  lemma FallExtends(curve: seq<real>, peak: real, d: real, e: real)
    requires IsPeak(curve, peak) && IsMaxFall(curve, d) && peak > 0.0 && e >= 0.0
    ensures IsMaxFall(curve + [e], Max(d, Percent(Max(peak, e), e)))
  {
    var more := curve + [e];
    var n := |curve|;
    PeakExtends(curve, peak, e);
    var p :| 0 <= p < |more| && more[p] == Max(peak, e);
    assert FallsBy(more, p, n, Percent(Max(peak, e), e));
    var i, j :| FallsBy(curve, i, j, d);
    assert FallsBy(more, i, j, d);
    forall a, b | 0 <= a <= b < |more| && more[a] > 0.0
      ensures Percent(more[a], more[b]) <= Max(d, Percent(Max(peak, e), e))
    {
      if b == n {
        PercentGrows(more[a], Max(peak, e), e);
      } else {
        assert Percent(curve[a], curve[b]) <= d;
      }
    }
  }

  // ------------------------------------------------------- running totals

  /** The cumulative sums of `pnls`, with the zero baseline in front. */
  ghost function Prefixes(pnls: seq<real>): (curve: seq<real>)
    ensures |curve| == |pnls| + 1
  {
    if pnls == [] then [0.0]
    else
      var curve := Prefixes(pnls[..|pnls| - 1]);
      curve + [curve[|pnls| - 1] + pnls[|pnls| - 1]]
  }

  lemma PrefixesStep(pnls: seq<real>, i: nat)
    requires i < |pnls|
    ensures Prefixes(pnls[..i + 1]) == Prefixes(pnls[..i]) + [Prefixes(pnls[..i])[i] + pnls[i]]
  {
    assert pnls[..i + 1][..i] == pnls[..i];
  }

  /** The absolute figure of the verified-performance report. */
  method MaxDrawdown(pnls: seq<real>) returns (maxDrawdown: real)
    ensures IsMaxDrop(Prefixes(pnls), maxDrawdown)
  {
    var equity, peak := 0.0, 0.0;
    maxDrawdown := 0.0;
    Baseline(0.0);
    assert Prefixes(pnls[..0]) == [0.0];
    hide IsPeak, IsMaxDrop, Prefixes;
    for i := 0 to |pnls|
      invariant equity == Prefixes(pnls[..i])[i]
      invariant IsPeak(Prefixes(pnls[..i]), peak)
      invariant IsMaxDrop(Prefixes(pnls[..i]), maxDrawdown)
    {
      PrefixesStep(pnls, i);
      ghost var curve := Prefixes(pnls[..i]);
      PeakExtends(curve, peak, equity + pnls[i]);
      DropExtends(curve, peak, maxDrawdown, equity + pnls[i]);
      equity := equity + pnls[i];
      peak := Max(peak, equity);
      var drawdown := peak - equity;
      maxDrawdown := Max(maxDrawdown, drawdown);
    }
    assert pnls[..|pnls|] == pnls;
  }

  /** The profit chart's figures for a curve: its peak, the day that first reaches it (-1
      when no day rises above the zero baseline) and its largest drop. */
  ghost predicate Charted(curve: seq<real>, peak: real, peakDay: int, maxDrawdown: real) {
    && IsPeak(curve, peak) && IsMaxDrop(curve, maxDrawdown)
    && -1 <= peakDay < |curve| - 1 && curve[peakDay + 1] == peak
    && forall i :: 0 <= i <= peakDay ==> curve[i] < peak
  }

  lemma ChartedStep(curve: seq<real>, peak: real, peakDay: int, maxDrawdown: real, e: real)
    requires Charted(curve, peak, peakDay, maxDrawdown)
    ensures var higher := Max(peak, e);
      Charted(curve + [e], higher, if e > peak then |curve| - 1 else peakDay, Max(maxDrawdown, higher - e))
  {
    PeakExtends(curve, peak, e);
    DropExtends(curve, peak, maxDrawdown, e);
  }

  method DailyDrawdown(daily: seq<real>) returns (peak: real, peakDay: int, running: real, maxDrawdown: real)
    ensures running == Prefixes(daily)[|daily|]
    ensures Charted(Prefixes(daily), peak, peakDay, maxDrawdown)
  {
    peak, peakDay, running, maxDrawdown := 0.0, -1, 0.0, 0.0;
    Baseline(0.0);
    assert Prefixes(daily[..0]) == [0.0];
    hide Charted, Prefixes, IsPeak, IsMaxDrop, Percent;
    for i := 0 to |daily|
      invariant running == Prefixes(daily[..i])[i]
      invariant Charted(Prefixes(daily[..i]), peak, peakDay, maxDrawdown)
    {
      PrefixesStep(daily, i);
      ChartedStep(Prefixes(daily[..i]), peak, peakDay, maxDrawdown, running + daily[i]);
      running := running + daily[i];
      if running > peak { peak, peakDay := running, i; }
      maxDrawdown := Max(maxDrawdown, peak - running);
    }
    assert daily[..|daily|] == daily;
  }
}
