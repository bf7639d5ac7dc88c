/** What each bar, entry and trade of the Spot baseline is, in the fields of its rows. */
module BaselineTrades {

  import opened Wrappers
  import opened RealArith
  import opened PaperExecution
  import opened SpotAccount
  import opened SpotTrades
  import opened W = SpotWalkForward

  /** The decision is one to act on. */
  ghost predicate Calls(signal: Option<Signal>, side: Decision, c: Config) {
    && signal.Some? && !signal.value.blocked && signal.value.strength >= c.minimumStrength && signal.value.side == side
  }

  /** The quantity that the plan asks for: its share of the cash at risk over a stop one percent of
      the price away times the multiplier (half a percent at least), within its share of the cash. */
  ghost function Allowed(z: Sizing, close: real, cash: real): real
    requires close > 0.0
  {
    var width := Max(close * 0.01 * z.stopMultiplier, close * 0.005);
    Min(Ratio(cash * (z.riskPct / 100.0), width), Ratio(cash * (z.maxNotionalPct / 100.0), close))
  }

  ghost function Planned(c: Config, close: real, cash: real): real
    requires close > 0.0
  {
    c.round(Allowed(c.sizing, close, cash))
  }

  /** `quantity` is the plan's, rounded down to a lot that can be bought. */
  ghost predicate FitsLot(c: Config, close: real, cash: real, quantity: real, price: real) {
    && close > 0.0 && IsLot(quantity, Planned(c, close, cash), c.rules.step) && quantity <= c.rules.maximumQuantity
    && Buyable(cash, quantity, price, c.fee, c.rules)
  }

  ghost predicate NoneFits(c: Config, close: real, cash: real, price: real) {
    forall q :: !FitsLot(c, close, cash, q, price)
  }

  lemma PlanIs(c: Config, close: real, cash: real)
    requires ValidConfig(c) && close > 0.0 && cash > 0.0
    ensures PlanFor(c, close, cash).Ok? && PlanFor(c, close, cash).value.quantity == Planned(c, close, cash)
  {
    PlanSucceedsIff(BUY, close, cash, cash, None, c.sizing, c.round);
    RawIs(close, cash, c.sizing);
    hide RawQuantity, Allowed;
  }

  lemma RawIs(close: real, cash: real, z: Sizing)
    requires close > 0.0
    ensures RawQuantity(close, cash, cash, None, z) == Allowed(z, close, cash)
  {
    var d, width := StopDistance(close, None, z.stopMultiplier), Max(close * 0.01 * z.stopMultiplier, close * 0.005);
    assert d == width;
    var risk, share := Share(cash, z.riskPct), Share(cash, z.maxNotionalPct);
    assert risk == cash * (z.riskPct / 100.0) && share == cash * (z.maxNotionalPct / 100.0);
    RawByRatio(close, cash, z);
    hide Ratio, RawQuantity, StopDistance, Share;
  }

  lemma RawByRatio(close: real, cash: real, z: Sizing)
    requires close > 0.0
    ensures RawQuantity(close, cash, cash, None, z) ==
      Min(Ratio(Share(cash, z.riskPct), StopDistance(close, None, z.stopMultiplier)),
          Ratio(Share(cash, z.maxNotionalPct), close))
  {
    hide Share, StopDistance;
  }

  /** The simulator's lot is the one that fits, if any does. */
  lemma LotIs(c: Config, close: real, cash: real, price: real)
    requires ValidConfig(c) && close > 0.0 && cash > 0.0
    ensures PlanFor(c, close, cash).Ok?
    ensures var units := Units(c, PlanFor(c, close, cash).value);
      && (Fits(c, cash, units, price) <==> FitsLot(c, close, cash, units, price))
      && (forall q :: FitsLot(c, close, cash, q, price) ==> q == units)
  {
    PlanIs(c, close, cash);
    var units := Units(c, PlanFor(c, close, cash).value);
    WholeStepsAreLot(Planned(c, close, cash), c.rules.step);
    BuyableIff(cash, units, price, c.fee, c.rules);
    hide PlanFor, Planned, WholeSteps, IsLot, Affordable;
  }

  /** The entry that bar `i` makes for an account with this cash. */
  ghost predicate IsEntry(c: Config, rows: seq<Row>, signals: seq<Option<Signal>>, e: Entry, i: nat, cash: real)
    requires 0 < i < |rows| <= |signals|
  {
    && e.index == i && Calls(signals[i - 1], BUY, c) && e.route == signals[i - 1].value.route
    && e.price == BoughtAt(rows[i].bar.open, c.slip) && FitsLot(c, rows[i - 1].bar.close, cash, e.quantity, e.price)
    && e.fee == Times(Times(e.quantity, e.price), c.fee)
    && e.stop == 0.0 && e.target == 0.0
  }

  /** What happens in a bar: a flat account takes a BUY exactly when a lot fits; a holding one takes a
      SELL exactly when the lot can be sold; both at the opening of the bar.  Otherwise at most a
      blocker is counted.  The account is then marked at the close. */
  ghost predicate IsBar(c: Config, rows: seq<Row>, signals: seq<Option<Signal>>, s: Sim, t: Sim, i: nat)
    requires 0 < i < |rows| <= |signals|
  {
    var bar := rows[i].bar;
    && t.curve == s.curve + [Worth(t, bar.close)]
    && if s.entry == None && Calls(signals[i - 1], BUY, c) then
         if t.entry.Some? then
           && IsEntry(c, rows, signals, t.entry.value, i, s.cash) && t.quantity == t.entry.value.quantity
           && t.cash == s.cash - (Times(t.quantity, t.entry.value.price) + t.entry.value.fee)
           && t.trades == s.trades && t.blockers == s.blockers
         else
           && NoneFits(c, rows[i - 1].bar.close, s.cash, BoughtAt(bar.open, c.slip))
           && t == s.(blockers := s.blockers + multiset{"ENTRY_SIZE_OR_CASH"}, peak := t.peak, drawdown := t.drawdown,
                      curve := t.curve)
       else if s.entry.Some? && Calls(signals[i - 1], SELL, c) then
         var price := SoldAt(bar.open, c.slip);
         if Sellable(s.quantity, price, c.rules) then
           var x := SpotTrades.Closed(s.entry.value, i, price, "SIGNAL", c.fee);
           && t.entry == None && t.quantity == 0.0 && t.trades == s.trades + [x] && t.blockers == s.blockers
           && t.cash == s.cash + (Times(s.quantity, price) - x.exitFee)
         else
           t == s.(blockers := s.blockers + multiset{"EXIT_DUST"}, peak := t.peak, drawdown := t.drawdown,
                   curve := t.curve)
       else t == s.(peak := t.peak, drawdown := t.drawdown, curve := t.curve)
  }

  lemma ActIs(c: Config, rows: seq<Row>, signals: seq<Option<Signal>>, s: Sim, i: nat, capital: real)
    requires 0 < i < |rows| <= |signals| && ValidConfig(c) && ValidRows(rows) && Coherent(s) && Sound(s, capital)
    ensures var t := Act(c, rows, signals[i - 1], s, i);
      && t.peak == s.peak && t.curve == s.curve && t.drawdown == s.drawdown
      && forall u: Sim :: u == t.(peak := u.peak, drawdown := u.drawdown,
                                  curve := s.curve + [Worth(t, rows[i].bar.close)])
           ==> IsBar(c, rows, signals, s, u, i)
  {
    var bar, close := rows[i].bar, rows[i - 1].bar.close;
    assert close > 0.0;
    ProductsAre(bar.open, c.slip);
    if s.entry == None && Calls(signals[i - 1], BUY, c) {
      var price := BoughtAt(bar.open, c.slip);
      LotIs(c, close, s.cash, price);
      var units := Units(c, PlanFor(c, close, s.cash).value);
      var e := Entry(i, price, Scale(Notional(units, price), c.fee), units, 0.0, 0.0, signals[i - 1].value.route);
      ProductsAre(units, price);
      ProductsAre(Times(units, price), c.fee);
      EnterIs(s, e);
    } else if s.entry.Some? && Calls(signals[i - 1], SELL, c) {
      CloseIs(s, i, SoldAt(bar.open, c.slip), "SIGNAL", c.fee, c.rules, "EXIT_DUST");
    }
    hide Times, BoughtAt, SoldAt, Up, Down, Notional, Scale, FitsLot, Fits, PlanFor, Units, Sellable, Worth, Close,
      Enter;
  }

  lemma EveryBarIs(c: Config, rows: seq<Row>, signals: seq<Option<Signal>>, s: Sim, i: nat, capital: real)
    requires 0 < i < |rows| <= |signals| && ValidConfig(c) && ValidRows(rows) && Coherent(s) && Sound(s, capital)
    ensures IsBar(c, rows, signals, s, Bar(c, rows, signals, s, i), i)
  {
    ActIs(c, rows, signals, s, i, capital);
    ActCoherent(c, rows, signals[i - 1], s, i);
    MarkIs(Act(c, rows, signals[i - 1], s, i), rows[i].bar.close);
    hide Act, Mark, IsBar, Worth;
  }

  /** Every bar of every run is such a bar. */
  lemma EveryBarIsGenuine(c: Config, rows: seq<Row>, signals: seq<Option<Signal>>, capital: real, start: nat, i: nat)
    requires ValidConfig(c) && ValidRows(rows) && capital > 0.0 && 0 < start <= i < |rows| <= |signals|
    ensures IsBar(c, rows, signals, Before(c, rows, signals, capital, start, i),
                  Before(c, rows, signals, capital, start, i + 1), i)
  {
    hide Bar, IsBar, ValidRows, ValidConfig, Sound;
    ConfigHasStep(c);
    AlwaysSound(c, rows, signals, capital, start, i);
    EveryBarIs(c, rows, signals, Before(c, rows, signals, capital, start, i), i, capital);
  }

  /** The entry was made by a flat account. */
  ghost predicate EnteredIn(c: Config, rows: seq<Row>, signals: seq<Option<Signal>>, capital: real, start: nat,
                            e: Entry, n: nat)
    requires c.rules.step > 0.0 && capital > 0.0 && 0 < start && n <= |rows| <= |signals|
  {
    && start <= e.index < n && Before(c, rows, signals, capital, start, e.index).entry == None
    && IsEntry(c, rows, signals, e, e.index, Before(c, rows, signals, capital, start, e.index).cash)
  }

  ghost predicate ExitedIn(c: Config, rows: seq<Row>, signals: seq<Option<Signal>>, t: Trade, n: nat)
    requires n <= |rows| <= |signals|
  {
    && 0 <= t.entry.index < t.exitIndex < n && Calls(signals[t.exitIndex - 1], SELL, c)
    && t == SpotTrades.Closed(t.entry, t.exitIndex, SoldAt(rows[t.exitIndex].bar.open, c.slip), "SIGNAL", c.fee)
  }

  /** The account holds what was entered, and no later decision could sell it. */
  ghost predicate Kept(c: Config, rows: seq<Row>, signals: seq<Option<Signal>>, e: Entry, n: nat)
    requires n <= |rows| <= |signals|
  {
    forall i :: e.index < i < n && i > 0 && Calls(signals[i - 1], SELL, c) ==>
      !Sellable(e.quantity, SoldAt(rows[i].bar.open, c.slip), c.rules)
  }

  ghost predicate Genuine(c: Config, rows: seq<Row>, signals: seq<Option<Signal>>, capital: real, start: nat, s: Sim,
                          n: nat)
    requires c.rules.step > 0.0 && capital > 0.0 && 0 < start && n <= |rows| <= |signals|
  {
    && (s.entry.Some? ==>
        && EnteredIn(c, rows, signals, capital, start, s.entry.value, n) && Kept(c, rows, signals, s.entry.value, n)
        && s.quantity == s.entry.value.quantity)
    && (forall t :: t in s.trades ==>
        && EnteredIn(c, rows, signals, capital, start, t.entry, n) && ExitedIn(c, rows, signals, t, n)
        && Kept(c, rows, signals, t.entry, t.exitIndex))
  }

  lemma BarKeepsGenuine(c: Config, rows: seq<Row>, signals: seq<Option<Signal>>, capital: real, start: nat, t: Sim,
                        i: nat)
    requires c.rules.step > 0.0 && capital > 0.0 && 0 < start <= i < |rows| <= |signals|
    requires var s := Before(c, rows, signals, capital, start, i);
      Genuine(c, rows, signals, capital, start, s, i) && IsBar(c, rows, signals, s, t, i)
    ensures Genuine(c, rows, signals, capital, start, t, i + 1)
  {
    hide Before, Calls, FitsLot, Times, SoldAt, BoughtAt, SpotTrades.Closed, Sellable, Worth, NoneFits;
    var s := Before(c, rows, signals, capital, start, i);
    if t.entry.Some? {
      var e := t.entry.value;
      assert EnteredIn(c, rows, signals, capital, start, e, i + 1) && t.quantity == e.quantity;
      assert Kept(c, rows, signals, e, i + 1);
    }
    forall x | x in t.trades
      ensures EnteredIn(c, rows, signals, capital, start, x.entry, i + 1) && ExitedIn(c, rows, signals, x, i + 1)
      ensures Kept(c, rows, signals, x.entry, x.exitIndex)
    {
      if x !in s.trades {
        var e := s.entry.value;
        var price := SoldAt(rows[i].bar.open, c.slip);
        assert x == SpotTrades.Closed(e, i, price, "SIGNAL", c.fee);
        ClosedNames(e, i, price, c.fee);
      }
    }
  }

  lemma ClosedNames(e: Entry, i: int, price: real, fee: real)
    ensures var x := SpotTrades.Closed(e, i, price, "SIGNAL", fee); x.entry == e && x.exitIndex == i
  {
  }

  lemma StartIsGenuine(c: Config, rows: seq<Row>, signals: seq<Option<Signal>>, capital: real, start: nat, n: nat)
    requires c.rules.step > 0.0 && capital > 0.0 && 0 < start && n <= start && n <= |rows| <= |signals|
    ensures Genuine(c, rows, signals, capital, start, Before(c, rows, signals, capital, start, n), n)
  {
  }

  /** In every run each entry and each trade is one that its bars call for: bought at the opening after
      an eligible BUY, in the rounded lot, by a flat account, and sold at the first opening after an
      eligible SELL at which the lot can be sold. */
  lemma {:induction false} EveryTradeIsGenuine(c: Config, rows: seq<Row>, signals: seq<Option<Signal>>, capital: real,
                                               start: nat, n: nat)
    requires ValidConfig(c) && c.rules.step > 0.0 && ValidRows(rows) && capital > 0.0 && 0 < start
      && n <= |rows| <= |signals|
    ensures Genuine(c, rows, signals, capital, start, Before(c, rows, signals, capital, start, n), n)
  {
    hide Genuine, IsBar, ValidRows, ValidConfig, Before, Coherent, Sound;
    if n <= start {
      StartIsGenuine(c, rows, signals, capital, start, n);
    } else {
      EveryTradeIsGenuine(c, rows, signals, capital, start, n - 1);
      EveryBarIsGenuine(c, rows, signals, capital, start, n - 1);
      BarKeepsGenuine(c, rows, signals, capital, start, Before(c, rows, signals, capital, start, n), n - 1);
    }
  }

  // ------------------------------------------------- the opening suffices

  lemma ActReadsOpen(c: Config, rows1: seq<Row>, rows2: seq<Row>, signal: Option<Signal>, s: Sim, i: nat)
    requires 0 < i < |rows1| && i < |rows2| && Coherent(s) && c.rules.step > 0.0
    requires rows1[i - 1] == rows2[i - 1] && rows1[i].bar.open == rows2[i].bar.open
    ensures Act(c, rows1, signal, s, i) == Act(c, rows2, signal, s, i)
  {
    hide PlanFor, Units, Fits, Notional, Scale, Up, Down, TradePnl;
  }

  lemma MarkKeeps(s: Sim, close: real)
    requires s.peak > 0.0
    ensures var t := Mark(s, close);
      t.cash == s.cash && t.quantity == s.quantity && t.entry == s.entry && t.trades == s.trades
      && t.blockers == s.blockers
  {
  }

  /** Two histories that agree before bar `n`, and in its opening alone, give the same cash, lot, entry,
      trades and blockers after it: its high, low, close and volume play no part. */
  lemma OpeningSuffices(c: Config, rows1: seq<Row>, rows2: seq<Row>, oracle: seq<Row> -> Signal, capital: real,
                        start: nat, n: nat)
    requires c.rules.step > 0.0 && capital > 0.0 && 0 < start <= n < |rows1| && n < |rows2|
    requires rows1[..n] == rows2[..n] && rows1[n].bar.open == rows2[n].bar.open
    ensures var s := Before(c, rows1, SignalsOf(rows1, oracle), capital, start, n + 1);
      var t := Before(c, rows2, SignalsOf(rows2, oracle), capital, start, n + 1);
      s.cash == t.cash && s.quantity == t.quantity && s.entry == t.entry && s.trades == t.trades
      && s.blockers == t.blockers
  {
    hide Act, SignalAt, Mark;
    var signals1, signals2 := SignalsOf(rows1, oracle), SignalsOf(rows2, oracle);
    forall k | 0 <= k < n ensures signals1[k] == signals2[k] { EarlierSignal(rows1, rows2, oracle, n, k); }
    assert forall k :: 0 <= k < n ==> rows1[k] == rows1[..n][k] == rows2[k];
    if n > start { SameBarsSameAccount(c, rows1, rows2, signals1, signals2, capital, start, n - 1); }
    var s := Before(c, rows1, signals1, capital, start, n);
    assert s == Before(c, rows2, signals2, capital, start, n);
    ActReadsOpen(c, rows1, rows2, signals1[n - 1], s, n);
    ActCoherent(c, rows1, signals1[n - 1], s, n);
    MarkKeeps(Act(c, rows1, signals1[n - 1], s, n), rows1[n].bar.close);
    MarkKeeps(Act(c, rows1, signals1[n - 1], s, n), rows2[n].bar.close);
  }

  lemma EarlierSignal(rows1: seq<Row>, rows2: seq<Row>, oracle: seq<Row> -> Signal, n: nat, k: nat)
    requires k < n < |rows1| && n < |rows2| && rows1[..n] == rows2[..n]
    ensures SignalAt(rows1, oracle, k) == SignalAt(rows2, oracle, k)
  {
    if WARMUP - 1 <= k {
      SliceOfPrefix(rows1, k - WARMUP + 1, k + 1, n);
      SliceOfPrefix(rows2, k - WARMUP + 1, k + 1, n);
    }
  }
}
