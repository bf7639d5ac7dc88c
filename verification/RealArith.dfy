/** Small facts about products and quotients of reals, each stated over variables only. */
module RealArith {

  function Min(a: real, b: real): real {
    if a <= b then a else b
  }

  function Max(a: real, b: real): (m: real)
    ensures m >= a && m >= b && (m == a || m == b)
  {
    if a >= b then a else b
  }

  function Abs(x: real): real {
    if x < 0.0 then -x else x
  }

  function MinInt(a: int, b: int): int {
    if a <= b then a else b
  }

  /** The nearest integer, and of two the even one. */
  function HalfEven(x: real): int {
    var n := x.Floor;
    var rest := x - n as real;
    if rest < 0.5 || (rest == 0.5 && n % 2 == 0) then n else n + 1
  }

  function RoundTo4(x: real): (r: real)
    ensures x - 0.00005 <= r <= x + 0.00005
  {
    HalfEven(x * 10000.0) as real / 10000.0
  }

  lemma RoundsToGrid(x: real)
    ensures exists n: int {:trigger n as real} :: RoundTo4(x) == n as real / 10000.0
  {
    var n := HalfEven(x * 10000.0);
    assert RoundTo4(x) == n as real / 10000.0;
  }

  lemma ProductSign(a: real, b: real)
    ensures a >= 0.0 && b >= 0.0 ==> a * b >= 0.0
    ensures a > 0.0 && b > 0.0 ==> a * b > 0.0
  {
  }

  lemma Distribute(a: real, b: real, x: real)
    ensures (a + b) * x == a * x + b * x
    ensures (a - b) * x == a * x - b * x
  {
  }

  lemma Scaled(a: real, b: real, x: real)
    requires x > 0.0
    ensures a <= b <==> a * x <= b * x
    ensures a < b <==> a * x < b * x
  {
    Distribute(b, a, x);
    ProductSign(b - a, x);
    Distribute(a, b, x);
    ProductSign(a - b, x);
  }

  lemma QuotientIs(n: real, d: real, q: real)
    requires d > 0.0
    ensures n / d == q <==> q * d == n
  {
    assert n / d * d == n;
    Scaled(q, n / d, d);
    Scaled(n / d, q, d);
  }

  lemma QuotientBetween(n: real, d: real, lo: real, hi: real)
    requires d > 0.0
    ensures lo <= n / d <==> lo * d <= n
    ensures n / d <= hi <==> n <= hi * d
    ensures n / d < hi <==> n < hi * d
    ensures lo < n / d <==> lo * d < n
  {
    assert n / d * d == n;
    Scaled(lo, n / d, d);
    Scaled(n / d, hi, d);
  }

  /** A weighted error stays within the weighted bound. */
  lemma WeightedError(w: real, a: real, b: real, h: real)
    requires w >= 0.0 && -h <= a <= h && -h <= b <= h
    ensures -(h * (w + 1.0)) <= w * a + b <= h * (w + 1.0)
  {
    ProductSign(w, h - a);
    ProductSign(w, h + a);
    assert w * (h - a) == w * h - w * a;
    assert w * (h + a) == w * h + w * a;
    assert h * (w + 1.0) == w * h + h;
  }

  /** `m` whole ticks just below `x`. */
  lemma TickBelow(x: real, tick: real, m: real)
    requires tick > 0.0 && m <= x / tick < m + 1.0
    ensures x - tick < m * tick <= x
  {
    QuotientBetween(x, tick, m, m + 1.0);
    Distribute(m, 1.0, tick);
  }

  /** `m` whole ticks just above `x`. */
  lemma TickAbove(x: real, tick: real, m: real)
    requires tick > 0.0 && m - 1.0 < x / tick <= m
    ensures x <= m * tick < x + tick
  {
    QuotientBetween(x, tick, m - 1.0, m);
    Distribute(m, 1.0, tick);
  }

  /** Whole steps of `step` in `x`, rounded toward zero. */
  function WholeSteps(x: real, step: real): real
    requires step > 0.0
  {
    var n := x / step;
    (if n >= 0.0 then n.Floor else -((-n).Floor)) as real * step
  }

  /** Whole steps that are positive never exceed what was rounded, by less than one step. */
  lemma StepsRoundDown(x: real, step: real)
    requires step > 0.0 && WholeSteps(x, step) > 0.0
    ensures x - step < WholeSteps(x, step) <= x
  {
    var n := x / step;
    if n >= 0.0 {
      TickBelow(x, step, n.Floor as real);
    } else {
      ProductSign((-n).Floor as real, step);
    }
  }

  lemma WholeStepsAreWhole(x: real, step: real)
    requires step > 0.0
    ensures exists n: int {:trigger n as real} :: WholeSteps(x, step) == n as real * step
  {
    var n := x / step;
    var m := if n >= 0.0 then n.Floor else -((-n).Floor);
    assert WholeSteps(x, step) == m as real * step;
  }
}
