/** From a planned entry to the two prices a broker holds: planned levels, levels moved to
    the verified fill, and levels rounded to the instrument's tick. */
module ProtectionLevels {
  import opened Wrappers
  import opened PaperExecution
  import opened RealArith

  /** The saved audit of an entry.  `fill` is the fill price when a full fill is verified;
      `reference` is the planned price when the request saved it. */
  datatype Entry = Entry(paperExecuted: bool, side: Decision, fill: Option<real>, stop: real, target: real,
                         reference: Option<real>, savedRr: real)

  datatype Levels = Levels(fill: real, reference: real, stopDistance: real, targetDistance: real,
                           stop: real, target: real)

  function Sign(side: Decision): real {
    if side == BUY then 1.0 else if side == SELL then -1.0 else 0.0
  }

  /** The planned price that splits the saved levels in the saved reward/risk ratio. */
  function InferredReference(stop: real, target: real, rr: real): real
    requires rr > 0.0
  {
    (rr * stop + target) / (rr + 1.0)
  }

  function FillAnchoredLevels(e: Entry): Result<Levels, string> {
    if !e.paperExecuted then Error("PROTECTION_VERIFIED_PAPER_ENTRY_REQUIRED")
    else if e.fill == None then Error("PROTECTION_FILL_PRICE_UNVERIFIED")
    else if e.reference == None && e.savedRr <= 0.0 then Error("PROTECTION_PLANNED_REFERENCE_UNVERIFIED")
    else
      var fill, sign := e.fill.value, Sign(e.side);
      var reference := if e.reference.Some? then e.reference.value
                       else InferredReference(e.stop, e.target, e.savedRr);
      var stopDistance, targetDistance := sign * (reference - e.stop), sign * (e.target - reference);
      if sign == 0.0 || reference <= 0.0 || e.stop <= 0.0 || e.target <= 0.0
         || stopDistance <= 0.0 || targetDistance <= 0.0
      then Error("PROTECTION_PLANNED_DISTANCES_INVALID")
      else
        var stop, target := fill - sign * stopDistance, fill + sign * targetDistance;
        if Min(stop, target) <= 0.0 then Error("PROTECTION_FILL_LEVELS_INVALID")
        else Ok(Levels(fill, reference, stopDistance, targetDistance, stop, target))
  }

  function Up(x: real): int {
    -((-x).Floor)
  }

  function Ticks(n: int, tick: real): real {
    n as real * tick
  }

  /** Rounding moves both prices toward the entry. */
  function ProtectionPrices(long: bool, stop: real, target: real, tick: real): Result<(real, real), string> {
    if stop <= 0.0 || target <= 0.0 || tick <= 0.0 then Error("INVALID_PROTECTION_PRICES")
    else if long then Ok((Ticks(Up(stop / tick), tick), Ticks((target / tick).Floor, tick)))
    else Ok((Ticks((stop / tick).Floor, tick), Ticks(Up(target / tick), tick)))
  }

  // ------------------------------------------------------------- properties

  lemma InferredSplit(stop: real, target: real, rr: real)
    requires rr > 0.0
    ensures var r := InferredReference(stop, target, rr);
      target - r == rr * (r - stop)
  {
    var r := InferredReference(stop, target, rr);
    QuotientIs(rr * stop + target, rr + 1.0, r);
    assert r * (rr + 1.0) == rr * r + r;
    assert rr * (r - stop) == rr * r - rr * stop;
  }

  lemma WeightedLevels(price: real, a: real, b: real, rr: real, move: real)
    ensures rr * (price - move + a) + (price + Reward(move, rr) + b) == price * (rr + 1.0) + (rr * a + b)
  {
    assert rr * (price - move + a) == rr * price - rr * move + rr * a;
    assert rr * move == Reward(move, rr);
    assert price * (rr + 1.0) == rr * price + price;
  }

  /** The inferred reference is the planned price up to the rounding `h` of the saved levels. */
  lemma InferredNearPlanned(price: real, stop: real, target: real, rr: real, move: real, h: real)
    requires rr > 0.0 && h >= 0.0
    requires price - move - h <= stop <= price - move + h
    requires price + Reward(move, rr) - h <= target <= price + Reward(move, rr) + h
    ensures price - h <= InferredReference(stop, target, rr) <= price + h
  {
    var a, b := stop - (price - move), target - (price + Reward(move, rr));
    WeightedLevels(price, a, b, rr, move);
    WeightedError(rr, a, b, h);
    Distribute(price, h, rr + 1.0);
    QuotientBetween(rr * stop + target, rr + 1.0, price - h, price + h);
  }

  /** Signed move from the price to the stop: down for a buy, up for a sell. */
  ghost function Move(decision: Decision, price: real, atr: Option<real>, z: Sizing): real {
    if decision == BUY then StopDistance(price, atr, z.stopMultiplier)
    else -StopDistance(price, atr, z.stopMultiplier)
  }

  /** The saved levels are the planned ones up to rounding. */
  ghost predicate SavedFrom(e: Entry, price: real, move: real, rr: real) {
    && price - move - HALF_UNIT <= e.stop <= price - move + HALF_UNIT
    && price + Reward(move, rr) - HALF_UNIT <= e.target <= price + Reward(move, rr) + HALF_UNIT
  }

  lemma PlanIsSavedFrom(decision: Decision, price: real, equity: real, cash: real, atr: Option<real>,
                        z: Sizing, round: real -> real, p: Plan, e: Entry)
    requires Rounds(round) && BuildExecutionPlan(decision, price, equity, cash, atr, z, round) == Ok(p)
    requires e.stop == p.stopLoss && e.target == p.takeProfit
    ensures SavedFrom(e, price, Move(decision, price, atr, z), z.targetRr)
  {
    var d := StopDistance(price, atr, z.stopMultiplier);
    assert Reward(-d, z.targetRr) == -Reward(d, z.targetRr);
  }

  /** What the inferred levels say about the planned price. */
  ghost predicate Recovers(l: Levels, price: real, rr: real) {
    && price - HALF_UNIT <= l.reference <= price + HALF_UNIT
    && l.targetDistance == rr * l.stopDistance
  }

  lemma SavedIsRecovered(e: Entry, price: real, move: real)
    requires e.reference == None && FillAnchoredLevels(e).Ok? && SavedFrom(e, price, move, e.savedRr)
    ensures Recovers(FillAnchoredLevels(e).value, price, e.savedRr)
  {
    var l := FillAnchoredLevels(e).value;
    InferredNearPlanned(price, e.stop, e.target, e.savedRr, move, HALF_UNIT);
    InferredSplit(e.stop, e.target, e.savedRr);
    if e.side == BUY {
      assert l.targetDistance == e.target - l.reference && l.stopDistance == l.reference - e.stop;
    } else {
      assert l.targetDistance == l.reference - e.target && l.stopDistance == e.stop - l.reference;
      assert e.savedRr * (e.stop - l.reference) == -(e.savedRr * (l.reference - e.stop));
    }
  }

  /** A plan saved without its reference price: the inferred reference is the planned price
      within half a unit of the eighth decimal, and the target distance is exactly the
      reward/risk ratio times the stop distance, for long and short. */
  lemma PlannedLevelsAreRecovered(decision: Decision, price: real, equity: real, cash: real, atr: Option<real>,
                                  z: Sizing, round: real -> real, p: Plan, e: Entry)
    requires Rounds(round) && BuildExecutionPlan(decision, price, equity, cash, atr, z, round) == Ok(p)
    requires e.stop == p.stopLoss && e.target == p.takeProfit && e.reference == None && e.savedRr == z.targetRr
    requires FillAnchoredLevels(e).Ok?
    ensures Recovers(FillAnchoredLevels(e).value, price, z.targetRr)
  {
    PlanIsSavedFrom(decision, price, equity, cash, atr, z, round, p, e);
    SavedIsRecovered(e, price, Move(decision, price, atr, z));
  }

  lemma RoundToTick(x: real, tick: real)
    requires tick > 0.0
    ensures x - tick < Ticks((x / tick).Floor, tick) <= x
    ensures x <= Ticks(Up(x / tick), tick) < x + tick
  {
    var q := x / tick;
    TickBelow(x, tick, q.Floor as real);
    assert Up(q) as real == -((-q).Floor as real);
    TickAbove(x, tick, Up(q) as real);
  }

  /** After anchoring to the fill and rounding to the tick, the distances of both prices from
      the fill never exceed the planned distances and shrink by less than one tick. */
  lemma TicksNeverWiden(e: Entry, tick: real)
    requires FillAnchoredLevels(e).Ok? && tick > 0.0
    ensures var l := FillAnchoredLevels(e).value;
      var prices := ProtectionPrices(e.side == BUY, l.stop, l.target, tick);
      && prices.Ok?
      && var sign := Sign(e.side);
         var stopDistance, targetDistance := sign * (l.fill - prices.value.0), sign * (prices.value.1 - l.fill);
         && l.stopDistance - tick < stopDistance <= l.stopDistance
         && l.targetDistance - tick < targetDistance <= l.targetDistance
  {
    var l := FillAnchoredLevels(e).value;
    RoundToTick(l.stop, tick);
    RoundToTick(l.target, tick);
    if e.side == BUY {
      assert l.stop == l.fill - l.stopDistance && l.target == l.fill + l.targetDistance;
    } else {
      assert l.stop == l.fill + l.stopDistance && l.target == l.fill - l.targetDistance;
    }
  }

  /** Levels are anchored exactly for a filled Paper entry with a known reference that lies strictly
      between its positive levels on the right sides, when the moved levels stay positive; each keeps
      its distance, from the reference to the fill. */
  lemma AnchoredExactly(e: Entry)
    ensures FillAnchoredLevels(e).Ok? <==>
      && e.paperExecuted && e.fill.Some? && (e.reference.Some? || e.savedRr > 0.0)
      && var reference := if e.reference.Some? then e.reference.value
                          else (e.savedRr * e.stop + e.target) / (e.savedRr + 1.0);
         var moved := e.fill.value - reference;
         && 0.0 < e.stop && 0.0 < e.target && 0.0 < reference
         && (e.side == BUY || e.side == SELL)
         && (if e.side == BUY then e.stop < reference < e.target else e.target < reference < e.stop)
         && e.stop + moved > 0.0 && e.target + moved > 0.0
    ensures FillAnchoredLevels(e).Ok? ==>
      var l := FillAnchoredLevels(e).value;
      && l.fill == e.fill.value && (e.reference.Some? ==> l.reference == e.reference.value)
      && l.stop - l.fill == e.stop - l.reference && l.target - l.fill == e.target - l.reference
  {
  }

  /** The prices are whole ticks. */
  lemma PricesAreTicks(long: bool, stop: real, target: real, tick: real)
    requires ProtectionPrices(long, stop, target, tick).Ok?
    ensures var (s, t) := ProtectionPrices(long, stop, target, tick).value;
      (exists n: int {:trigger n as real} :: s == n as real * tick)
      && (exists n: int {:trigger n as real} :: t == n as real * tick)
  {
    var (s, t) := ProtectionPrices(long, stop, target, tick).value;
    var m := if long then Up(stop / tick) else (stop / tick).Floor;
    var n := if long then (target / tick).Floor else Up(target / tick);
    assert s == m as real * tick && t == n as real * tick;
  }
}
