/** Sizing and planned levels of a simulated or paper entry.  `round` stands for rounding
    to eight decimals: any function that stays within half a unit of the eighth place. */
module PaperExecution {
  import opened Wrappers
  import opened RealArith

  datatype Decision = BUY | SELL | HOLD

  datatype Plan = Plan(side: Decision, quantity: real, notional: real, stopLoss: real, takeProfit: real,
                       riskAmount: real)

  datatype Sizing = Sizing(riskPct: real, stopMultiplier: real, targetRr: real, maxNotionalPct: real)

  const HALF_UNIT := 0.000000005

  ghost predicate Rounds(round: real -> real) {
    forall x :: x - HALF_UNIT <= round(x) <= x + HALF_UNIT
  }

  /** A missing or zero ATR falls back to one percent of the price. */
  function StopDistance(price: real, atr: Option<real>, multiplier: real): real {
    var range := if atr.Some? && atr.value != 0.0 then atr.value else price * 0.01;
    Max(range * multiplier, price * 0.005)
  }

  function Reward(distance: real, rr: real): real {
    distance * rr
  }

  function Outlay(quantity: real, price: real): real {
    quantity * price
  }

  function Share(amount: real, pct: real): real {
    amount * (pct / 100.0)
  }

  function RawQuantity(price: real, equity: real, cash: real, atr: Option<real>, z: Sizing): real
    requires price > 0.0
  {
    var distance := StopDistance(price, atr, z.stopMultiplier);
    Min(Share(equity, z.riskPct) / distance, Share(cash, z.maxNotionalPct) / price)
  }

  function BuildExecutionPlan(decision: Decision, price: real, equity: real, cash: real,
                              atr: Option<real>, z: Sizing, round: real -> real): Result<Plan, string>
  {
    if decision == HOLD then Error("only BUY or SELL signals can be executed")
    else if price <= 0.0 || equity <= 0.0 || cash <= 0.0 then
      Error("price, equity and available cash must be positive")
    else if z.stopMultiplier <= 0.0 || z.targetRr <= 0.0 || !(0.0 < z.maxNotionalPct <= 100.0) then
      Error("invalid strategy sizing parameters")
    else
      var risk := Share(equity, z.riskPct);
      var distance := StopDistance(price, atr, z.stopMultiplier);
      var quantity := RawQuantity(price, equity, cash, atr, z);
      if quantity <= 0.0 then Error("calculated position size is zero")
      else
        var reward := Reward(distance, z.targetRr);
        var stop := if decision == BUY then price - distance else price + distance;
        var target := if decision == BUY then price + reward else price - reward;
        Ok(Plan(decision, round(quantity), round(Outlay(quantity, price)), round(stop), round(target), round(risk)))
  }

  /** With positive settings the sizing call fails exactly for a HOLD or when price, equity
      or cash is not positive. */
  lemma PlanSucceedsIff(decision: Decision, price: real, equity: real, cash: real,
                        atr: Option<real>, z: Sizing, round: real -> real)
    requires z.riskPct > 0.0 && z.stopMultiplier > 0.0 && z.targetRr > 0.0 && 0.0 < z.maxNotionalPct <= 100.0
    ensures BuildExecutionPlan(decision, price, equity, cash, atr, z, round).Ok?
       <==> decision != HOLD && price > 0.0 && equity > 0.0 && cash > 0.0
  {
    if price > 0.0 && equity > 0.0 && cash > 0.0 {
      var distance := StopDistance(price, atr, z.stopMultiplier);
      ProductSign(equity, z.riskPct / 100.0);
      ProductSign(cash, z.maxNotionalPct / 100.0);
      assert Share(equity, z.riskPct) > 0.0 && Share(cash, z.maxNotionalPct) > 0.0;
      QuotientBetween(Share(equity, z.riskPct), distance, 0.0, 0.0);
      QuotientBetween(Share(cash, z.maxNotionalPct), price, 0.0, 0.0);
    }
  }

  /** A raw position never costs more than the allowed share of the cash, and never risks
      more than the allowed share of the equity over its stop distance. */
  lemma RawQuantityIsBounded(price: real, equity: real, cash: real, atr: Option<real>, z: Sizing)
    requires price > 0.0
    ensures var q := RawQuantity(price, equity, cash, atr, z);
      && q * price <= Share(cash, z.maxNotionalPct)
      && q * StopDistance(price, atr, z.stopMultiplier) <= Share(equity, z.riskPct)
  {
    var d := StopDistance(price, atr, z.stopMultiplier);
    var q := RawQuantity(price, equity, cash, atr, z);
    QuotientBetween(Share(equity, z.riskPct), d, q, q);
    QuotientBetween(Share(cash, z.maxNotionalPct), price, q, q);
  }

  /** The figures of a plan, each rounded: the share of the equity at risk, the quantity and what it
      costs, and levels on the right sides, the target farther by the reward ratio. */
  lemma PlanFigures(decision: Decision, price: real, equity: real, cash: real, atr: Option<real>, z: Sizing,
                    round: real -> real)
    requires BuildExecutionPlan(decision, price, equity, cash, atr, z, round).Ok?
    ensures var p := BuildExecutionPlan(decision, price, equity, cash, atr, z, round).value;
      var d, q := StopDistance(price, atr, z.stopMultiplier), RawQuantity(price, equity, cash, atr, z);
      && p.side == decision && decision != HOLD && q > 0.0 && d > 0.0
      && p.quantity == round(q) && p.notional == round(Outlay(q, price))
      && p.riskAmount == round(Share(equity, z.riskPct))
      && p.stopLoss == round(if decision == BUY then price - d else price + d)
      && p.takeProfit == round(if decision == BUY then price + Reward(d, z.targetRr) else price - Reward(d, z.targetRr))
  {
    assert StopDistance(price, atr, z.stopMultiplier) > 0.0;
    hide RawQuantity, StopDistance, Reward, Share, Outlay;
  }

  lemma PlanProducts(distance: real, rr: real, amount: real, pct: real, quantity: real, price: real)
    ensures Reward(distance, rr) == distance * rr && Share(amount, pct) == amount * (pct / 100.0)
    ensures Outlay(quantity, price) == quantity * price
  {
  }

  /** The stop distance is the measured range (one percent of the price without one) times the
      multiplier, and at least half a percent of the price. */
  lemma DistanceFigures(price: real, atr: Option<real>, multiplier: real)
    ensures var d := StopDistance(price, atr, multiplier);
      var wide := (if atr.Some? && atr.value != 0.0 then atr.value else price * 0.01) * multiplier;
      d >= wide && d >= price * 0.005 && (d == wide || d == price * 0.005)
  {
  }
}
