/** What an entry and a trade of the Spot simulators are, in their own figures. */
module SpotTrades {

  import opened Wrappers
  import opened RealArith
  import opened SpotAccount
  import T = Triggers
  import W = SpotWalkForward

  ghost function Times(a: real, b: real): real {
    a * b
  }

  ghost function Ratio(a: real, b: real): real
    requires b > 0.0
  {
    a / b
  }

  lemma RatioIs(a: real, b: real)
    requires b > 0.0
    ensures Ratio(a, b) == a / b
  {
  }

  /** A price after slippage, bought and sold. */
  ghost function BoughtAt(price: real, slip: real): real {
    Times(price, 1.0 + slip)
  }

  ghost function SoldAt(price: real, slip: real): real {
    Times(price, 1.0 - slip)
  }

  lemma ProductsAre(a: real, b: real)
    ensures Notional(a, b) == Times(a, b) && Scale(a, b) == Times(a, b)
    ensures W.Up(a, b) == BoughtAt(a, b) && W.Down(a, b) == SoldAt(a, b)
  {
  }

  /** The exchange accepts the lot at the price. */
  ghost predicate Sellable(quantity: real, price: real, r: Rules) {
    quantity >= r.minimumQuantity && Times(quantity, price) >= r.minimumNotional
  }

  /** The lot can be bought: within the exchange's limits, and paid with the fee. */
  ghost predicate Buyable(cash: real, quantity: real, price: real, fee: real, r: Rules) {
    && quantity > 0.0 && Sellable(quantity, price, r)
    && Times(quantity, price) + Times(Times(quantity, price), fee) <= cash
  }

  /** A quantity in whole steps, rounded down from `x`. */
  ghost predicate IsLot(quantity: real, x: real, step: real) {
    quantity <= x < quantity + step && exists n: int {:trigger n as real} :: quantity == Times(n as real, step)
  }

  lemma BuyableIff(cash: real, quantity: real, price: real, fee: real, r: Rules)
    ensures Affordable(cash, quantity, price, fee, r) <==> Buyable(cash, quantity, price, fee, r)
  {
    ProductsAre(quantity, price);
    ProductsAre(Times(quantity, price), fee);
    hide Times, Notional, Scale;
  }

  /** Rounding down to steps has one result ... */
  lemma OneLot(a: real, b: real, x: real, step: real)
    requires step > 0.0 && IsLot(a, x, step) && IsLot(b, x, step)
    ensures a == b
  {
    var m: int :| a == Times(m as real, step);
    var n: int :| b == Times(n as real, step);
    if m < n { NextStep(m, n, step); }
    if n < m { NextStep(n, m, step); }
  }

  lemma NextStep(m: int, n: int, step: real)
    requires step > 0.0 && m < n
    ensures Times(m as real, step) + step <= Times(n as real, step)
  {
    Distribute(m as real, 1.0, step);
    Scaled(m as real + 1.0, n as real, step);
  }

  /** ... and it is the simulators' own, whenever that is positive. */
  lemma WholeStepsAreLot(x: real, step: real)
    requires step > 0.0
    ensures WholeSteps(x, step) > 0.0 ==> IsLot(WholeSteps(x, step), x, step)
    ensures forall q :: q > 0.0 && IsLot(q, x, step) ==> q == WholeSteps(x, step)
  {
    var w := WholeSteps(x, step);
    if w > 0.0 {
      StepsRoundDown(x, step);
      WholeStepsAreWhole(x, step);
      var n: int :| w == n as real * step;
      assert w == Times(n as real, step);
    }
    forall q | q > 0.0 && IsLot(q, x, step) ensures q == w { LotIsWholeSteps(q, x, step); }
  }

  lemma LotIsWholeSteps(q: real, x: real, step: real)
    requires step > 0.0 && q > 0.0 && IsLot(q, x, step)
    ensures q == WholeSteps(x, step)
  {
    var n: int :| q == Times(n as real, step);
    Distribute(n as real, 1.0, step);
    QuotientBetween(x, step, n as real, n as real + 1.0);
    QuotientBetween(x, step, 0.0, 0.0);
    assert (x / step).Floor == n;
  }

  /** The trade that a close at this price writes. */
  ghost function Closed(e: Entry, index: int, price: real, why: string, fee: real): Trade {
    var exitFee := Times(Times(e.quantity, price), fee);
    Trade(e, index, price, Times(e.quantity, price - e.price) - e.fee - exitFee, exitFee, why)
  }

  /** A close sells the whole lot, or is blocked while the lot is below a minimum. */
  lemma CloseIs(s: Sim, index: int, price: real, why: string, fee: real, r: Rules, dust: string)
    requires s.entry.Some? && s.quantity == s.entry.value.quantity
    ensures Close(s, index, price, why, fee, r, dust) ==
      if Sellable(s.quantity, price, r) then
        var t := Closed(s.entry.value, index, price, why, fee);
        s.(cash := s.cash + (Times(s.quantity, price) - t.exitFee), quantity := 0.0, entry := None,
           trades := s.trades + [t])
      else s.(blockers := s.blockers + multiset{dust})
  {
    ProductsAre(s.quantity, price);
    ProductsAre(Times(s.quantity, price), fee);
    ProductsAre(s.quantity, price - s.entry.value.price);
    PnlIs(s.entry.value, price, Times(Times(s.quantity, price), fee));
    hide Times, Notional, Scale, TradePnl;
  }

  lemma PnlIs(e: Entry, price: real, exitFee: real)
    ensures TradePnl(e, price, exitFee) == Times(e.quantity, price - e.price) - e.fee - exitFee
  {
  }

  /** The account marked at a bar's close. */
  ghost function Worth(s: Sim, close: real): real {
    s.cash + Times(s.quantity, close)
  }

  lemma MarkIs(s: Sim, close: real)
    requires s.peak > 0.0
    ensures Mark(s, close) == s.(peak := Mark(s, close).peak, drawdown := Mark(s, close).drawdown,
                                 curve := s.curve + [Worth(s, close)])
  {
    ProductsAre(s.quantity, close);
    hide Times, Notional;
  }

  /** What an entry takes from the account. */
  lemma EnterIs(s: Sim, e: Entry)
    ensures Enter(s, e) == s.(cash := s.cash - (Times(e.quantity, e.price) + e.fee), quantity := e.quantity,
                              entry := Some(e))
  {
    ProductsAre(e.quantity, e.price);
    hide Times, Notional;
  }

  // --------------------------------------------------- exits at levels

  /** Where and why a bar ends a position with levels: the opening beyond the stop or the target, the
      decision to sell (if one is due at this opening), then the levels that the bar touches, the stop
      first. */
  ghost function Exits(bar: T.Bar, e: Entry, gap: string, sells: Option<string>): Option<(real, string)> {
    if bar.open <= e.stop then Some((bar.open, gap))
    else if bar.open >= e.target then Some((e.target, "GAP_TARGET"))
    else if sells.Some? then Some((bar.open, sells.value))
    else if bar.low <= e.stop && bar.high >= e.target then Some((e.stop, "BOTH_TOUCHED_STOP_FIRST"))
    else if bar.low <= e.stop then Some((e.stop, "STOP"))
    else if bar.high >= e.target then Some((e.target, "TARGET"))
    else None
  }

  /** The account after such a call: the lot is sold at the level less slippage, or blocked. */
  ghost function Leave(s: Sim, i: int, call: Option<(real, string)>, slip: real, fee: real, r: Rules, dust: string)
    : Sim
    requires s.entry.Some?
  {
    if call == None then s
    else
      var price := SoldAt(call.value.0, slip);
      var t := Closed(s.entry.value, i, price, call.value.1, fee);
      if Sellable(s.quantity, price, r) then
        s.(cash := s.cash + (Times(s.quantity, price) - t.exitFee), quantity := 0.0, entry := None,
           trades := s.trades + [t])
      else s.(blockers := s.blockers + multiset{dust})
  }

  lemma LeaveIs(s: Sim, i: int, level: real, why: string, slip: real, fee: real, r: Rules, dust: string)
    requires s.entry.Some? && s.quantity == s.entry.value.quantity
    ensures Close(s, i, W.Down(level, slip), why, fee, r, dust) == Leave(s, i, Some((level, why)), slip, fee, r, dust)
  {
    ProductsAre(level, slip);
    CloseIs(s, i, SoldAt(level, slip), why, fee, r, dust);
    hide Times, SoldAt, W.Down, Close, Closed, Sellable;
  }

  ghost function Entered(s: Sim, e: Entry): Sim {
    s.(cash := s.cash - (Times(e.quantity, e.price) + e.fee), quantity := e.quantity, entry := Some(e))
  }

  ghost function Counted(s: Sim, why: string): Sim {
    s.(blockers := s.blockers + multiset{why})
  }

  /** The account with its marks at the close. */
  ghost predicate Marks(t: Sim, s: Sim, close: real) {
    t == s.(peak := t.peak, drawdown := t.drawdown, curve := s.curve + [Worth(s, close)])
  }

  lemma MarksIt(s: Sim, close: real)
    requires s.peak > 0.0
    ensures Marks(Mark(s, close), s, close)
  {
    MarkIs(s, close);
    hide Mark;
  }

  /** A trade is what an exit at this bar writes. */
  ghost predicate LeftAt(t: Trade, call: Option<(real, string)>, slip: real, fee: real, r: Rules) {
    && call.Some? && Sellable(t.entry.quantity, SoldAt(call.value.0, slip), r)
    && t == Closed(t.entry, t.exitIndex, SoldAt(call.value.0, slip), call.value.1, fee)
  }

  /** No exit is called for, or the lot cannot be sold at its level. */
  ghost predicate StaysAt(e: Entry, call: Option<(real, string)>, slip: real, r: Rules) {
    call == None || !Sellable(e.quantity, SoldAt(call.value.0, slip), r)
  }

  /** An exit closes the position by a trade of this bar, or leaves it as it is. */
  lemma LeaveMeans(s: Sim, i: int, call: Option<(real, string)>, slip: real, fee: real, r: Rules, dust: string)
    requires s.entry.Some? && s.quantity == s.entry.value.quantity
    ensures var t, e := Leave(s, i, call, slip, fee, r, dust), s.entry.value;
      if StaysAt(e, call, slip, r) then t.entry == s.entry && t.trades == s.trades && t.quantity == s.quantity
      else
        && t.entry == None && |t.trades| == |s.trades| + 1 && t.trades[..|s.trades|] == s.trades
        && var x := t.trades[|s.trades|];
           x.entry == e && x.exitIndex == i && LeftAt(x, call, slip, fee, r)
  {
    hide Sellable, Times, SoldAt;
  }
}
