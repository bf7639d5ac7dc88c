/** What every position and trade of the long/short simulator is, in the fields of its bars: when
    and at what price it opens, how large it is, and when, where and why it closes. */
module IbkrTrades {

  import opened Wrappers
  import opened RealArith
  import opened IbkrBacktest
  import P = PaperExecution
  import T = Triggers
  import D = Drawdown

  // ----------------------------------------------------------- the plan

  /** One and a half measured ranges, or of one percent of the price, but no less than half a
      percent. */
  ghost function PlannedDistance(close: real, range: Option<real>): real {
    var width := (if range.Some? && range.value != 0.0 then range.value else close * 0.01) * 1.5;
    if width >= close * 0.005 then width else close * 0.005
  }

  ghost function RangeAt(e: Env, i: nat): Option<real>
    requires WARMUP <= i <= |e.rows|
  {
    if e.measured then e.atr(e.rows[i - 200..i]) else None
  }

  /** The distance between the previous close and the rounded stop of its plan. */
  ghost function StopWidth(e: Env, i: nat, long: bool): real
    requires WARMUP <= i < |e.rows|
  {
    var close := e.rows[i - 1].bar.close;
    var d := PlannedDistance(close, RangeAt(e, i));
    var stop := e.round(if long then close - d else close + d);
    if stop <= close then close - stop else stop - close
  }

  ghost function FillPrice(e: Env, i: nat, long: bool): real
    requires i < |e.rows|
  {
    e.rows[i].bar.open * (if long then 1.0 + e.terms.slip else 1.0 - e.terms.slip)
  }

  /** `n` shares are within the plan, with both commissions within one percent of the cash at risk,
      and within a fifth of the cash. */
  ghost predicate Affords(e: Env, i: nat, long: bool, cash: real, n: int)
    requires WARMUP <= i < |e.rows|
  {
    var close := e.rows[i - 1].bar.close;
    var d := PlannedDistance(close, RangeAt(e, i));
    && close > 0.0 && d > 0.0 && n as real <= e.round(Min(cash * 0.01 / d, cash * 0.2 / close))
    && n as real * (StopWidth(e, i, long) + 2.0 * e.terms.perShare) + 2.0 * e.terms.minimumFee <= e.round(cash * 0.01)
    && n as real * FillPrice(e, i, long) <= cash * 0.2
  }

  ghost predicate Levels(e: Env, i: nat, long: bool, stop: real, target: real)
    requires WARMUP <= i < |e.rows|
  {
    var price, width := FillPrice(e, i, long), StopWidth(e, i, long);
    && stop == (if long then price - width else price + width)
    && target == (if long then price + 2.0 * width else price - 2.0 * width)
  }

  /** The position is what bar `index` opens for an account with this cash: the side of the decision,
      at the bar's opening with slippage, with the plan's distances, and the greatest quantity that is
      affordable. */
  ghost predicate Opened(e: Env, p: Position, cash: real) {
    && WARMUP <= p.index < |e.rows| && p.index in e.stream && p.day == e.rows[p.index].day
    && (p.long <==> e.stream[p.index] == P.BUY) && (!p.long <==> e.stream[p.index] == P.SELL)
    && (e.measured ==> RangeAt(e, p.index).Some?)
    && p.price == FillPrice(e, p.index, p.long) && Levels(e, p.index, p.long, p.stop, p.target)
    && p.stop > 0.0 && p.target > 0.0
    && p.quantity >= 1 && Affords(e, p.index, p.long, cash, p.quantity)
    && !Affords(e, p.index, p.long, cash, p.quantity + 1)
    && p.entryFee == Max(e.terms.minimumFee, p.quantity as real * e.terms.perShare)
    && p.plannedRisk == p.quantity as real * StopWidth(e, p.index, p.long)
  }

  /** The bar's decision can open a position. */
  ghost predicate CanOpen(e: Env, i: nat, cash: real)
    requires WARMUP <= i < |e.rows| && i in e.stream
  {
    var long := e.stream[i] == P.BUY;
    && e.stream[i] != P.HOLD && (e.measured ==> RangeAt(e, i).Some?)
    && Affords(e, i, long, cash, 1)
    && StopWidth(e, i, long) < FillPrice(e, i, long)
    && (!long ==> 2.0 * StopWidth(e, i, long) < FillPrice(e, i, long))
  }

  lemma DistanceIs(close: real, range: Option<real>)
    requires close > 0.0
    ensures P.StopDistance(close, range, 1.5) == PlannedDistance(close, range) > 0.0
  {
  }

  /** The plan of a bar, in its own figures. */
  lemma PlanIs(e: Env, i: nat, cash: real)
    requires ValidEnv(e) && WARMUP <= i < |e.rows| && cash > 0.0 && i in e.stream && e.stream[i] != P.HOLD
    ensures var close := e.rows[i - 1].bar.close;
      var long, d := e.stream[i] == P.BUY, PlannedDistance(close, RangeAt(e, i));
      var plan := P.BuildExecutionPlan(e.stream[i], close, cash, cash, RangeAt(e, i), SIZING, e.round);
      && close > 0.0 && d > 0.0 && plan.Ok?
      && plan.value.stopLoss == e.round(if long then close - d else close + d)
      && plan.value.riskAmount == e.round(cash * 0.01)
      && plan.value.quantity == e.round(Min(cash * 0.01 / d, cash * 0.2 / close))
  {
    var close, range := e.rows[i - 1].bar.close, RangeAt(e, i);
    assert ValidRow(e.rows[i - 1]);
    DistanceIs(close, range);
    P.PlanSucceedsIff(e.stream[i], close, cash, cash, range, SIZING, e.round);
    SharesAre(cash);
    hide PlannedDistance, P.StopDistance, P.Share;
  }

  lemma SharesAre(cash: real)
    ensures P.Share(cash, SIZING.riskPct) == cash * 0.01 && P.Share(cash, SIZING.maxNotionalPct) == cash * 0.2
  {
  }

  lemma FloorFits(x: real, n: int)
    ensures n <= x.Floor <==> n as real <= x
  {
  }

  /** The budget quantity is the greatest whole number that fits the risk. */
  lemma BudgetIs(t: Terms, risk: real, width: real, n: int)
    requires width + 2.0 * t.perShare > 0.0 && n >= 1
    ensures n <= BudgetQuantity(t, risk, width) <==> n as real * (width + 2.0 * t.perShare) + 2.0 * t.minimumFee <= risk
  {
    var d := width + 2.0 * t.perShare;
    QuotientBetween(risk - 2.0 * t.minimumFee, d, n as real, 0.0);
    FloorFits((risk - 2.0 * t.minimumFee) / d, n);
  }

  lemma ShareFits(cash: real, price: real, n: int)
    requires price > 0.0
    ensures n <= ShareQuantity(cash, price) <==> n as real * price <= cash * 0.2
  {
    var amount := cash * SIZING.maxNotionalPct / 100.0;
    assert amount == cash * 0.2;
    QuotientBetween(amount, price, n as real, 0.0);
    FloorFits(amount / price, n);
  }

  function Quantity(t: Terms, plan: P.Plan, width: real, price: real, cash: real): int
    requires width + 2.0 * t.perShare > 0.0 && price > 0.0
  {
    MinInt(MinInt(plan.quantity.Floor, BudgetQuantity(t, plan.riskAmount, width)),
           ShareQuantity(cash, price))
  }

  /** A quantity is affordable exactly up to the one the simulator takes. */
  lemma QuantityIs(e: Env, i: nat, long: bool, plan: P.Plan, cash: real, n: int)
    requires ValidEnv(e) && WARMUP <= i < |e.rows| && e.rows[i - 1].bar.close > 0.0 && n >= 1
    requires var close := e.rows[i - 1].bar.close;
      var d := PlannedDistance(close, RangeAt(e, i));
      && d > 0.0 && plan.riskAmount == e.round(cash * 0.01)
      && plan.quantity == e.round(Min(cash * 0.01 / d, cash * 0.2 / close))
    requires StopWidth(e, i, long) >= 0.0 && FillPrice(e, i, long) > 0.0
    ensures n <= Quantity(e.terms, plan, StopWidth(e, i, long), FillPrice(e, i, long), cash)
       <==> Affords(e, i, long, cash, n)
  {
    hide StopWidth, FillPrice, PlannedDistance, BudgetQuantity, ShareQuantity;
    FloorFits(plan.quantity, n);
    BudgetIs(e.terms, plan.riskAmount, StopWidth(e, i, long), n);
    ShareFits(cash, FillPrice(e, i, long), n);
  }

  lemma WidthIs(e: Env, i: nat, long: bool, stop: real)
    requires WARMUP <= i < |e.rows|
    requires var close := e.rows[i - 1].bar.close;
      var d := PlannedDistance(close, RangeAt(e, i));
      stop == e.round(if long then close - d else close + d)
    ensures var close := e.rows[i - 1].bar.close;
      StopWidth(e, i, long) == Max(close - stop, stop - close) >= 0.0
  {
    hide PlannedDistance;
  }

  lemma FillIs(e: Env, i: nat, long: bool)
    requires ValidEnv(e) && i < |e.rows|
    ensures e.rows[i].bar.open > 0.0 && FillPrice(e, i, long) == EntryPrice(e.terms, e.rows[i], long)
  {
    assert ValidRow(e.rows[i]);
  }

  ghost function StopAt(long: bool, price: real, width: real): real {
    if long then price - width else price + width
  }

  ghost function TargetAt(long: bool, price: real, width: real): real {
    if long then price + 2.0 * width else price - 2.0 * width
  }

  /** What the plan becomes: a position exactly when one share is affordable and both levels are
      positive, of the simulator's quantity. */
  lemma SizedIs(t: Terms, plan: P.Plan, long: bool, close: real, i: nat, row: Row, cash: real, width: real, price: real)
    requires row.bar.open > 0.0 && 0.0 <= t.slip < 1.0 && t.perShare > 0.0 && price > 0.0
    requires width == Max(close - plan.stopLoss, plan.stopLoss - close) >= 0.0
    requires price == EntryPrice(t, row, long)
    ensures var q := Quantity(t, plan, width, price, cash);
      Sized(t, plan, long, close, i, row, cash) ==
        if q >= 1 && width < (if long then price else price - width)
        then Some(Position(i, row.day, long, q, price, StopAt(long, price, width), TargetAt(long, price, width),
                           Fee(t, q), Risk(q, width)))
        else None
  {
    hide Fee, Risk, BudgetQuantity, ShareQuantity, EntryPrice;
    var distance := Max(close - plan.stopLoss, plan.stopLoss - close);
    assert distance * SIZING.targetRr == 2.0 * width;
    var stop, target := price - Signed(long, distance), price + Signed(long, distance * SIZING.targetRr);
    assert stop == StopAt(long, price, width) && target == TargetAt(long, price, width);
  }

  /** The simulator's position at bar `i`, in the bar's figures. */
  lemma EntryIsSized(e: Env, i: nat, cash: real) returns (q: int)
    requires ValidEnv(e) && WARMUP <= i < |e.rows| && i in e.stream && cash > 0.0 && e.stream[i] != P.HOLD
    requires e.measured ==> RangeAt(e, i).Some?
    ensures var long := e.stream[i] == P.BUY;
      var width, price := StopWidth(e, i, long), FillPrice(e, i, long);
      && width >= 0.0 && price > 0.0
      && (forall n: int :: n >= 1 ==> (n <= q <==> Affords(e, i, long, cash, n)))
      && Entry(e, i, cash) ==
        if q >= 1 && width < (if long then price else price - width)
        then Some(Position(i, e.rows[i].day, long, q, price, StopAt(long, price, width), TargetAt(long, price, width),
                           Fee(e.terms, q), Risk(q, width)))
        else None
  {
    hide Fee, Risk, StopWidth, FillPrice, Sized, PlannedDistance, StopAt, TargetAt;
    var side, close := e.stream[i], e.rows[i - 1].bar.close;
    var long := side == P.BUY;
    PlanIs(e, i, cash);
    var plan := P.BuildExecutionPlan(side, close, cash, cash, RangeAt(e, i), SIZING, e.round).value;
    hide P.BuildExecutionPlan;
    WidthIs(e, i, long, plan.stopLoss);
    FillIs(e, i, long);
    SizedIs(e.terms, plan, long, close, i, e.rows[i], cash, StopWidth(e, i, long), FillPrice(e, i, long));
    q := Quantity(e.terms, plan, StopWidth(e, i, long), FillPrice(e, i, long), cash);
    forall n: int | n >= 1 ensures n <= q <==> Affords(e, i, long, cash, n) {
      QuantityIs(e, i, long, plan, cash, n);
    }
    hide Quantity, Affords;
  }

  /** Bar `i` opens a position exactly when its decision can, and then the one that it should. */
  lemma EntryOpens(e: Env, i: nat, cash: real)
    requires ValidEnv(e) && WARMUP <= i < |e.rows| && i in e.stream && cash > 0.0
    ensures Entry(e, i, cash).Some? <==> CanOpen(e, i, cash)
    ensures Entry(e, i, cash).Some? ==> Entry(e, i, cash).value.index == i && Opened(e, Entry(e, i, cash).value, cash)
  {
    if e.stream[i] != P.HOLD && (e.measured ==> RangeAt(e, i).Some?) {
      var q := EntryIsSized(e, i, cash);
      hide StopWidth, FillPrice, Affords, Entry, RangeAt, PlannedDistance;
      if Entry(e, i, cash).Some? { OpenedAsSized(e, i, cash, q); }
    } else if e.stream[i] == P.HOLD {
      HoldOpensNothing(e, i, cash);
    }
  }

  lemma OpenedAsSized(e: Env, i: nat, cash: real, q: int)
    requires WARMUP <= i < |e.rows| && i in e.stream && e.stream[i] != P.HOLD && (e.measured ==> RangeAt(e, i).Some?)
    requires var long := e.stream[i] == P.BUY;
      var width, price := StopWidth(e, i, long), FillPrice(e, i, long);
      && 0.0 <= width < (if long then price else price - width) && q >= 1
      && Affords(e, i, long, cash, q) && !Affords(e, i, long, cash, q + 1)
    ensures var long := e.stream[i] == P.BUY;
      var width, price := StopWidth(e, i, long), FillPrice(e, i, long);
      Opened(e, Position(i, e.rows[i].day, long, q, price, StopAt(long, price, width), TargetAt(long, price, width),
                         Fee(e.terms, q), Risk(q, width)), cash)
  {
    hide StopWidth, FillPrice, Affords, RangeAt;
  }

  lemma HoldOpensNothing(e: Env, i: nat, cash: real)
    requires ValidEnv(e) && WARMUP <= i < |e.rows| && i in e.stream && cash > 0.0 && e.stream[i] == P.HOLD
    ensures Entry(e, i, cash) == None
  {
  }

  // ----------------------------------------------------------- exits

  /** The account leaves at the opening, whatever the rest of the bar does. */
  ghost predicate Scheduled(e: Env, i: nat)
    requires i < |e.rows|
  {
    e.intraday && e.rows[i].minute >= 945
  }

  ghost predicate Beyond(long: bool, x: real, stop: real) {
    if long then x <= stop else x >= stop
  }

  ghost predicate Reached(long: bool, x: real, target: real) {
    if long then x >= target else x <= target
  }

  /** The bar's price that is worst for the position, and the one that is best. */
  ghost function Worst(b: T.Bar, long: bool): real {
    if long then b.low else b.high
  }

  ghost function Best(b: T.Bar, long: bool): real {
    if long then b.high else b.low
  }

  /** Nothing of the bar calls for an exit. */
  ghost predicate Untouched(e: Env, p: Position, i: nat) {
    && i < |e.rows| && !Scheduled(e, i)
    && var b := e.rows[i].bar;
       && !Beyond(p.long, b.open, p.stop) && !Reached(p.long, b.open, p.target)
       && !Beyond(p.long, Worst(b, p.long), p.stop) && !Reached(p.long, Best(b, p.long), p.target)
  }

  /** Why and at which level bar `i` ends the position. */
  ghost predicate Ends(e: Env, p: Position, i: nat, level: real, reason: ExitReason)
    requires i < |e.rows|
  {
    var b := e.rows[i].bar;
    var inside := !Beyond(p.long, b.open, p.stop) && !Reached(p.long, b.open, p.target);
    match reason
    case Level(GapStop) => Beyond(p.long, b.open, p.stop) && level == b.open
    case Level(GapTarget) =>
      !Beyond(p.long, b.open, p.stop) && Reached(p.long, b.open, p.target) && level == p.target
    case Level(Stop) =>
      inside && !Scheduled(e, i) && level == p.stop
      && Beyond(p.long, Worst(b, p.long), p.stop) && !Reached(p.long, Best(b, p.long), p.target)
    case Level(StopFirst) =>
      inside && !Scheduled(e, i) && level == p.stop
      && Beyond(p.long, Worst(b, p.long), p.stop) && Reached(p.long, Best(b, p.long), p.target)
    case Level(Target) =>
      inside && !Scheduled(e, i) && level == p.target
      && !Beyond(p.long, Worst(b, p.long), p.stop) && Reached(p.long, Best(b, p.long), p.target)
    case SessionEnd => inside && Scheduled(e, i) && level == b.open
  }

  /** The trade closed the position at such a level, less slippage, for the rounded P&L of its
      quantity and both commissions. */
  ghost predicate Exited(e: Env, t: Trade) {
    && t.exitIndex < |e.rows| && t.entry.index <= t.exitIndex && t.exitDay == e.rows[t.exitIndex].day
    && exists level: real :: Ends(e, t.entry, t.exitIndex, level, t.reason) && IsClosed(e, t, level)
  }

  ghost predicate IsClosed(e: Env, t: Trade, level: real) {
    t.exitPrice == Slipped(level, t.entry.long, e.terms.slip) && t.pnl == e.round(Net(t.entry, t.exitPrice, e.terms))
  }

  ghost function Slipped(level: real, long: bool, slip: real): real {
    level * (if long then 1.0 - slip else 1.0 + slip)
  }

  /** What a position earns from its price to another, less both commissions. */
  ghost function Net(p: Position, price: real, t: Terms): real {
    var shares := p.quantity as real;
    (if p.long then shares * (price - p.price) else shares * (p.price - price))
    - p.entryFee - Max(t.minimumFee, shares * t.perShare)
  }

  lemma OutcomeIs(e: Env, i: nat, p: Position)
    requires i < |e.rows|
    ensures Outcome(e, i, p) == None ==> Untouched(e, p, i)
    ensures Outcome(e, i, p).Some? ==> Ends(e, p, i, Outcome(e, i, p).value.0, Outcome(e, i, p).value.1)
  {
  }

  lemma ExitPriceIs(e: Env, p: Position, level: real)
    ensures ExitPrice(e, p, level) == Slipped(level, p.long, e.terms.slip)
  {
    if p.long {
      assert 1.0 - Signed(p.long, e.terms.slip) == 1.0 - e.terms.slip;
    } else {
      assert 1.0 - Signed(p.long, e.terms.slip) == 1.0 + e.terms.slip;
    }
  }

  lemma UnroundedIs(e: Env, p: Position, price: real)
    ensures Unrounded(e, p, price) == Net(p, price, e.terms)
  {
    var shares := p.quantity as real;
    assert shares * (p.price - price) == -(shares * (price - p.price));
  }

  lemma ExitIsClosed(e: Env, p: Position, i: nat, level: real, reason: ExitReason)
    requires i < |e.rows| && p.index <= i && Ends(e, p, i, level, reason)
    ensures var price := ExitPrice(e, p, level);
      Exited(e, Trade(p, i, e.rows[i].day, price, reason, e.round(Unrounded(e, p, price))))
  {
    hide Ends, ExitPrice, Unrounded, Slipped, Net;
    var price := ExitPrice(e, p, level);
    ExitPriceIs(e, p, level);
    UnroundedIs(e, p, price);
    assert IsClosed(e, Trade(p, i, e.rows[i].day, price, reason, e.round(Unrounded(e, p, price))), level);
  }

  // ----------------------------------------------------------- whole runs

  /** The position was opened before bar `n` by a flat account, as it should be. */
  ghost predicate OpenedIn(e: Env, p: Position, n: nat)
    requires ValidEnv(e) && n <= |e.rows|
  {
    && p.index < n && Before(e, p.index).position == None && Before(e, p.index).cash > 0.0
    && (e.intraday ==> e.rows[p.index].minute < 900) && Opened(e, p, Before(e, p.index).cash)
  }

  ghost predicate UntouchedUntil(e: Env, p: Position, n: nat) {
    forall i :: p.index <= i < n ==> Untouched(e, p, i)
  }

  ghost predicate Genuine(e: Env, s: Sim, n: nat)
    requires ValidEnv(e) && n <= |e.rows|
  {
    && (s.position.Some? ==> OpenedIn(e, s.position.value, n))
    && (forall t :: t in s.trades ==>
        OpenedIn(e, t.entry, n) && Exited(e, t) && UntouchedUntil(e, t.entry, t.exitIndex) && t.exitIndex < n)
  }

  ghost predicate Waiting(e: Env, s: Sim, n: nat) {
    s.position.Some? ==> UntouchedUntil(e, s.position.value, n)
  }

  lemma EntryIsGenuine(e: Env, i: nat)
    requires ValidEnv(e) && WARMUP <= i < |e.rows|
    requires Genuine(e, Before(e, i), i) && Waiting(e, Before(e, i), i)
    ensures var s := TryEntry(e, Before(e, i), i);
      Genuine(e, s, i + 1) && Waiting(e, s, i) && s.trades == Before(e, i).trades
  {
    var s := Before(e, i);
    EntryIs(e, s, i);
    if s.position == None && i in e.stream && s.cash > 0.0 { EntryOpens(e, i, s.cash); }
    hide TryEntry, Entry, Before, Opened, Exited, Untouched, CanOpen;
  }

  lemma ExitMeans(e: Env, s: Sim, i: nat)
    requires i < |e.rows| && s.position.Some? && s.position.value.index <= i
    ensures var t, p := TryExit(e, s, i), s.position.value;
      if t == s then Untouched(e, p, i)
      else
        && t.position == None && |t.trades| == |s.trades| + 1 && t.trades[..|s.trades|] == s.trades
        && var x := t.trades[|s.trades|]; x.entry == p && x.exitIndex == i && Exited(e, x)
  {
    hide Exited, Ends, Untouched, ExitPrice, Unrounded, Gross, Fee, Outcome;
    var p := s.position.value;
    OutcomeIs(e, i, p);
    if Outcome(e, i, p).Some? { ExitIsClosed(e, p, i, Outcome(e, i, p).value.0, Outcome(e, i, p).value.1); }
  }

  lemma ExitIsGenuine(e: Env, s: Sim, i: nat)
    requires ValidEnv(e) && i < |e.rows| && Genuine(e, s, i + 1) && Waiting(e, s, i)
    ensures Genuine(e, TryExit(e, s, i), i + 1) && Waiting(e, TryExit(e, s, i), i + 1)
  {
    hide TryExit, OpenedIn, Exited, Untouched, ValidEnv;
    if s.position == None {
      FlatStays(e, s, i);
    } else {
      assert s.position.value.index <= i by { OpenedBefore(e, s.position.value, i + 1); }
      ExitMeans(e, s, i);
      var t := TryExit(e, s, i);
      if t != s { assert t.trades == s.trades + [t.trades[|s.trades|]]; }
    }
  }

  lemma FlatStays(e: Env, s: Sim, i: nat)
    requires i < |e.rows| && s.position == None
    ensures TryExit(e, s, i) == s
  {
  }

  lemma OpenedBefore(e: Env, p: Position, n: nat)
    requires ValidEnv(e) && n <= |e.rows| && OpenedIn(e, p, n)
    ensures p.index < n
  {
  }

  /** In every run each position, held or closed, is the one its bar should open; each trade closes
      at the first bar that calls for it, at the level and for the P&L that it should; and a held one
      is untouched so far. */
  lemma {:induction false} EveryPositionIsGenuine(e: Env, n: nat)
    requires ValidEnv(e) && n <= |e.rows|
    ensures Genuine(e, Before(e, n), n) && Waiting(e, Before(e, n), n)
  {
    hide Genuine, Waiting, TryEntry, TryExit, ValidEnv, Bar, Mark;
    if n <= WARMUP {
      StartIsGenuine(e, n);
    } else {
      var i := n - 1;
      EveryPositionIsGenuine(e, i);
      EntryIsGenuine(e, i);
      var entered := TryEntry(e, Before(e, i), i);
      ExitIsGenuine(e, entered, i);
      BarIs(e, Before(e, i), i);
      MarkIsGenuine(e, TryExit(e, entered, i), e.rows[i].bar.close, n);
    }
  }

  lemma StartIsGenuine(e: Env, n: nat)
    requires ValidEnv(e) && n <= |e.rows|
    ensures Genuine(e, Start(e), n) && Waiting(e, Start(e), n)
  {
  }

  lemma MarkIsGenuine(e: Env, s: Sim, close: real, n: nat)
    requires ValidEnv(e) && n <= |e.rows| && s.peak > 0.0 && Genuine(e, s, n) && Waiting(e, s, n)
    ensures Genuine(e, Mark(s, close), n) && Waiting(e, Mark(s, close), n)
  {
    hide OpenedIn, Exited, Untouched, Equity;
  }

  /** A flat account with cash takes every eligible decision that can open a position, and counts any
      other eligible one as skipped; without an eligible decision nothing happens. */
  lemma EligibleBarsOpen(e: Env, i: nat)
    requires ValidEnv(e) && WARMUP <= i < |e.rows| && Before(e, i).position == None
    ensures var s, t := Before(e, i), Before(e, i + 1);
      var eligible := i in e.stream && s.cash > 0.0 && (e.intraday ==> e.rows[i].minute < 900);
      if eligible && CanOpen(e, i, s.cash) then
        && t.skipped == s.skipped
        && ((t.position.Some? && t.position.value.index == i && t.trades == s.trades)
            || (t.position == None && |t.trades| == |s.trades| + 1 && t.trades[|s.trades|].entry.index == i))
      else
        && t.position == None && t.trades == s.trades && t.cash == s.cash && t.fees == s.fees
        && t.skipped == s.skipped + if eligible then 1 else 0
  {
    var s := Before(e, i);
    EntryIs(e, s, i);
    BarIs(e, s, i);
    if i in e.stream && s.cash > 0.0 { EntryOpens(e, i, s.cash); }
    hide Entry, CanOpen, Opened, TryEntry, Outcome, Unrounded, Gross, Fee, ExitPrice, Equity;
  }

  // ----------------------------------------------------------- drawdown

  /** Cash, and what the open position is worth above its price at a bar's close. */
  ghost function MarkedAt(s: Sim, close: real): real {
    s.cash + if s.position == None then 0.0
             else
               var p := s.position.value;
               if p.long then p.quantity as real * (close - p.price) else p.quantity as real * (p.price - close)
  }

  /** The capital, and the account marked at the close of each bar. */
  ghost function Curve(e: Env, n: nat): (curve: seq<real>)
    requires ValidEnv(e) && n <= |e.rows|
    ensures |curve| > 0
  {
    if n <= WARMUP then [e.capital] else Curve(e, n - 1) + [MarkedAt(Before(e, n), e.rows[n - 1].bar.close)]
  }

  ghost predicate PeakTo(curve: seq<real>, i: nat, p: real) {
    i < |curve| && D.IsPeak(curve[..i + 1], p)
  }

  /** The point lies this many percent below the highest one up to it. */
  ghost predicate FallsTo(curve: seq<real>, i: nat, d: real) {
    i < |curve| && exists p :: PeakTo(curve, i, p) && p > 0.0 && d == (p - curve[i]) / p * 100.0
  }

  ghost predicate Tracks(curve: seq<real>, peak: real, drawdown: real) {
    && D.IsPeak(curve, peak) && peak > 0.0
    && (exists i: nat :: FallsTo(curve, i, drawdown)) && (forall i: nat, d :: FallsTo(curve, i, d) ==> d <= drawdown)
  }

  lemma OnePeak(curve: seq<real>, p: real, q: real)
    requires D.IsPeak(curve, p) && D.IsPeak(curve, q)
    ensures p == q
  {
  }

  lemma TracksStart(capital: real)
    requires capital > 0.0
    ensures Tracks([capital], capital, 0.0)
  {
    assert [capital][..1] == [capital] && D.IsPeak([capital], capital) by { D.Baseline(capital); }
    assert PeakTo([capital], 0, capital) && (capital - capital) / capital * 100.0 == 0.0;
    assert FallsTo([capital], 0, 0.0);
    forall i: nat, d | FallsTo([capital], i, d) ensures d <= 0.0 {
      var p :| PeakTo([capital], i, p) && p > 0.0 && d == (p - [capital][i]) / p * 100.0;
      OnePeak([capital], p, capital);
    }
  }

  lemma TracksMore(curve: seq<real>, peak: real, drawdown: real, x: real)
    requires Tracks(curve, peak, drawdown)
    ensures var higher := Max(peak, x);
      Tracks(curve + [x], higher, Max(drawdown, (higher - x) / higher * 100.0))
  {
    var more, higher, n := curve + [x], Max(peak, x), |curve|;
    var fall := (higher - x) / higher * 100.0;
    D.PeakExtends(curve, peak, x);
    assert more[..n + 1] == more;
    assert PeakTo(more, n, higher) && more[n] == x;
    assert FallsTo(more, n, fall);
    hide D.IsPeak;
    forall i: nat, d | FallsTo(more, i, d) ensures d <= Max(drawdown, fall) {
      if i < n {
        var p :| PeakTo(more, i, p) && p > 0.0 && d == (p - more[i]) / p * 100.0;
        assert more[..i + 1] == curve[..i + 1] && more[i] == curve[i];
        assert PeakTo(curve, i, p);
        assert FallsTo(curve, i, d);
      } else {
        var p :| PeakTo(more, i, p) && p > 0.0 && d == (p - more[i]) / p * 100.0;
        assert more[..i + 1] == more;
        OnePeak(more, p, higher);
      }
    }
    var j: nat :| FallsTo(curve, j, drawdown);
    var q :| PeakTo(curve, j, q) && q > 0.0 && drawdown == (q - curve[j]) / q * 100.0;
    assert more[..j + 1] == curve[..j + 1] && more[j] == curve[j];
    assert PeakTo(more, j, q);
    assert FallsTo(more, j, drawdown);
  }

  lemma MarkIs(e: Env, s: Sim, i: nat)
    requires ValidEnv(e) && WARMUP <= i < |e.rows| && s.peak > 0.0
    ensures var t := Bar(e, s, i);
      var x := MarkedAt(t, e.rows[i].bar.close);
      t.peak == Max(s.peak, x) && t.maxDrawdown == Max(s.maxDrawdown, (t.peak - x) / t.peak * 100.0)
  {
    var u := TryExit(e, TryEntry(e, s, i), i);
    assert u.peak == s.peak && u.maxDrawdown == s.maxDrawdown by { hide Entry, Outcome, Unrounded, ExitPrice, Fee; }
    BarIs(e, s, i);
    hide TryExit, TryEntry;
    var close := e.rows[i].bar.close;
    EquityIs(u, close);
    EquityIs(Bar(e, s, i), close);
  }

  lemma EquityIs(s: Sim, close: real)
    ensures Equity(s, close) == MarkedAt(s, close)
  {
    if s.position.Some? {
      var shares, price := s.position.value.quantity as real, s.position.value.price;
      assert shares * (price - close) == -(shares * (close - price));
    }
  }

  /** After every bar the peak is the highest marked equity, capital included, and the drawdown the
      largest percentage by which a point lies below the highest one before it. */
  lemma {:induction false} DrawdownIsTracked(e: Env, n: nat)
    requires ValidEnv(e) && n <= |e.rows|
    ensures Tracks(Curve(e, n), Before(e, n).peak, Before(e, n).maxDrawdown)
  {
    hide Tracks, Bar, MarkedAt;
    if n <= WARMUP {
      TracksStart(e.capital);
    } else {
      var s := Before(e, n - 1);
      DrawdownIsTracked(e, n - 1);
      MarkIs(e, s, n - 1);
      TracksMore(Curve(e, n - 1), s.peak, s.maxDrawdown, MarkedAt(Before(e, n), e.rows[n - 1].bar.close));
    }
  }
}
