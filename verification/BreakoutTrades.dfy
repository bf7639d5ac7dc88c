/** What each bar, entry and trade of the breakout policy is, in the fields of its rows. */
module BreakoutTrades {

  import opened Wrappers
  import opened RealArith
  import opened PaperExecution
  import opened SpotAccount
  import opened SpotTrades
  import opened X = SpotBreakout
  import W = SpotWalkForward
  import T = Triggers

  ghost predicate Says(signal: Option<Signal>, side: Decision) {
    signal.Some? && signal.value.side == side
  }

  /** The least of: one percent of the cash over the stop distance, a fifth of the cash at the price,
      all of it with the fee, and the exchange's maximum. */
  ghost function Allowed(r: Rules, cash: real, distance: real, price: real): real
    requires distance > 0.0 && price > 0.0 && Times(price, 1.001) > 0.0
  {
    Min(Min(Ratio(cash * 0.01, distance), Ratio(cash * 0.2, price)),
        Min(Ratio(cash, Times(price, 1.001)), r.maximumQuantity))
  }

  /** `quantity` is the allowed one, rounded down to a lot that can be bought. */
  ghost predicate FitsLot(r: Rules, cash: real, distance: real, price: real, quantity: real) {
    && distance > 0.0 && price > 0.0 && Times(price, 1.001) > 0.0
    && IsLot(quantity, Allowed(r, cash, distance, price), r.step) && Buyable(cash, quantity, price, 0.001, r)
  }

  ghost predicate NoneFits(r: Rules, cash: real, distance: real, price: real) {
    forall q :: !FitsLot(r, cash, distance, price, q)
  }

  lemma UnitsAre(p: Policy, cash: real, distance: real, price: real)
    requires distance > 0.0 && price > 0.0 && p.rules.step > 0.0
    ensures Times(price, 1.001) > 0.0
    ensures Units(p, cash, distance, price) == WholeSteps(Allowed(p.rules, cash, distance, price), p.rules.step)
  {
    var all := W.Up(price, FEE);
    assert all == Times(price, 1.001);
    RatioIs(cash * 0.01, distance);
    RatioIs(cash * 0.2, price);
    RatioIs(cash, all);
    hide Ratio, Times, W.Up, WholeSteps;
  }

  lemma LotIs(p: Policy, cash: real, distance: real, price: real)
    requires ValidPolicy(p) && distance > 0.0 && price > 0.0
    ensures var units := Units(p, cash, distance, price);
      && (Affordable(cash, units, price, FEE, p.rules) <==> FitsLot(p.rules, cash, distance, price, units))
      && (forall q :: FitsLot(p.rules, cash, distance, price, q) ==> q == units)
  {
    UnitsAre(p, cash, distance, price);
    var units := Units(p, cash, distance, price);
    WholeStepsAreLot(Allowed(p.rules, cash, distance, price), p.rules.step);
    BuyableIff(cash, units, price, FEE, p.rules);
    hide Units, Allowed, WholeSteps, IsLot, Affordable, Times;
  }

  /** The entry that bar `i` makes for an account with this cash: after a BUY, at the bar's opening,
      between a stop two ranges below and a target three times as far above. */
  ghost predicate IsEntry(p: Policy, rows: seq<Row>, signals: seq<Option<Signal>>, e: Entry, i: nat, cash: real)
    requires 0 < i < |rows| <= |signals|
  {
    && Says(signals[i - 1], BUY) && e.index == i && e.route == "SPOT_BREAKOUT_15M_V1"
    && var width := signals[i - 1].value.atr * 2.0;
       && e.price == BoughtAt(rows[i].bar.open, p.slip) && 0.0 < width < e.price
       && FitsLot(p.rules, cash, width, e.price, e.quantity)
       && e.fee == Times(Times(e.quantity, e.price), 0.001)
       && e.stop == e.price - width && e.target == e.price + 3.0 * width
  }

  ghost function Sells(signal: Option<Signal>): Option<string> {
    if Says(signal, SELL) then Some("EMA_EXIT") else None
  }

  ghost function LeaveIn(p: Policy, bar: T.Bar, s: Sim, i: nat, gap: string, sells: Option<string>): Sim
    requires s.entry.Some?
  {
    Leave(s, i, Exits(bar, s.entry.value, gap, sells), p.slip, 0.001, p.rules, "EXIT_BELOW_MINIMUM")
  }

  /** What happens in a bar before it is marked. */
  ghost predicate IsAct(p: Policy, rows: seq<Row>, signals: seq<Option<Signal>>, s: Sim, t: Sim, i: nat)
    requires 0 < i < |rows| <= |signals|
  {
    var bar := rows[i].bar;
    var price := BoughtAt(bar.open, p.slip);
    if s.entry.Some? then t == LeaveIn(p, bar, s, i, "GAP_STOP", Sells(signals[i - 1]))
    else if !Says(signals[i - 1], BUY) then t == s
    else
      var width := signals[i - 1].value.atr * 2.0;
      if !(0.0 < width < price) then t == Counted(s, "INVALID_STOP_DISTANCE")
      else if NoneFits(p.rules, s.cash, width, price) then t == Counted(s, "ENTRY_SIZE_OR_CASH")
      else exists e ::
        IsEntry(p, rows, signals, e, i, s.cash) && t == LeaveIn(p, bar, Entered(s, e), i, "ENTRY_GAP_STOP", None)
  }

  lemma ExitIs(bar: T.Bar, signal: Option<Signal>, e: Entry)
    ensures var sells := Sells(signal);
      X.OpenExit(bar, signal, e) ==
        if bar.open <= e.stop || bar.open >= e.target || sells.Some? then Exits(bar, e, "GAP_STOP", sells) else None
    ensures !(bar.open <= e.stop || bar.open >= e.target) ==>
      forall gap :: T.Named(T.IntrabarTrigger(bar, e.stop, e.target)) == Exits(bar, e, gap, None)
    ensures bar.open <= e.stop ==> Exits(bar, e, "ENTRY_GAP_STOP", None) == Some((bar.open, "ENTRY_GAP_STOP"))
  {
  }

  /** A held position leaves as its bar calls for. */
  lemma HeldIs(p: Policy, bar: T.Bar, signal: Option<Signal>, s: Sim, i: nat)
    requires W.Coherent(s) && p.rules.step > 0.0 && s.entry.Some? && s.quantity == s.entry.value.quantity
    ensures Act(p, bar, signal, s, i) == LeaveIn(p, bar, s, i, "GAP_STOP", Sells(signal))
  {
    var e := s.entry.value;
    ExitIs(bar, signal, e);
    var call := Exits(bar, e, "GAP_STOP", Sells(signal));
    if call.Some? { LeaveIs(s, i, call.value.0, call.value.1, p.slip, FEE, p.rules, "EXIT_BELOW_MINIMUM"); }
    hide Exits, Leave, Close, X.OpenExit, T.IntrabarTrigger, T.Named, W.Down, BuyAt, Sells;
  }

  /** A bought one leaves at its own bar if that touches its levels; slippage only raises its price, so
      the opening is below its target. */
  lemma BoughtIs(p: Policy, bar: T.Bar, signal: Option<Signal>, s: Sim, i: nat)
    requires W.Coherent(s) && p.rules.step > 0.0 && s.entry == None && Says(signal, BUY)
    requires BuyAt(p, bar, signal.value, s, i).entry.Some?
    requires var b := BuyAt(p, bar, signal.value, s, i);
      b.quantity == b.entry.value.quantity && b.quantity > 0.0 && bar.open < b.entry.value.target
    ensures Act(p, bar, signal, s, i)
         == LeaveIn(p, bar, BuyAt(p, bar, signal.value, s, i), i, "ENTRY_GAP_STOP", None)
  {
    var b := BuyAt(p, bar, signal.value, s, i);
    var e := b.entry.value;
    ExitIs(bar, None, e);
    var call := Exits(bar, e, "ENTRY_GAP_STOP", None);
    if call.Some? { LeaveIs(b, i, call.value.0, call.value.1, p.slip, FEE, p.rules, "EXIT_BELOW_MINIMUM"); }
    hide Exits, Leave, Close, X.OpenExit, T.IntrabarTrigger, T.Named, W.Down, BuyAt;
  }

  /** The simulator's entry is the bar's, or it is blocked for the first reason that applies. */
  lemma BuyIs(p: Policy, rows: seq<Row>, signals: seq<Option<Signal>>, s: Sim, i: nat)
    requires 0 < i < |rows| <= |signals| && ValidPolicy(p) && W.ValidRows(rows)
    requires s.entry == None && Says(signals[i - 1], BUY)
    ensures var b := BuyAt(p, rows[i].bar, signals[i - 1].value, s, i);
      var price, width := BoughtAt(rows[i].bar.open, p.slip), signals[i - 1].value.atr * 2.0;
      if !(0.0 < width < price) then b == Counted(s, "INVALID_STOP_DISTANCE")
      else if NoneFits(p.rules, s.cash, width, price) then b == Counted(s, "ENTRY_SIZE_OR_CASH")
      else b.entry.Some? && b.quantity == b.entry.value.quantity && b.quantity > 0.0
           && IsEntry(p, rows, signals, b.entry.value, i, s.cash) && b == Entered(s, b.entry.value)
           && rows[i].bar.open < b.entry.value.target
  {
    var bar := rows[i].bar;
    var price, width := BoughtAt(bar.open, p.slip), signals[i - 1].value.atr * 2.0;
    assert bar.open > 0.0;
    ProductsAre(bar.open, p.slip);
    NotBelow(bar.open, p.slip);
    if 0.0 < width < price {
      LotIs(p, s.cash, width, price);
      var units := Units(p, s.cash, width, price);
      ProductsAre(units, price);
      ProductsAre(Times(units, price), FEE);
      var e := Entry(i, price, Scale(Notional(units, price), FEE), units, price - width, price + 3.0 * width,
                     "SPOT_BREAKOUT_15M_V1");
      EnterIs(s, e);
      LotIsPositive(p.rules, s.cash, width, price, units);
    }
    hide Times, BoughtAt, W.Up, Notional, Scale, FitsLot, Units, Enter, Affordable;
  }

  lemma NotBelow(open: real, slip: real)
    requires open > 0.0 && 0.0 <= slip
    ensures BoughtAt(open, slip) >= open
  {
    ProductSign(open, slip);
  }

  lemma LotIsPositive(r: Rules, cash: real, distance: real, price: real, q: real)
    ensures FitsLot(r, cash, distance, price, q) ==> q > 0.0
  {
  }

  lemma ActIs(p: Policy, rows: seq<Row>, signals: seq<Option<Signal>>, s: Sim, i: nat, capital: real)
    requires 0 < i < |rows| <= |signals| && ValidPolicy(p) && W.ValidRows(rows) && W.Coherent(s) && Sound(s, capital)
    ensures IsAct(p, rows, signals, s, Act(p, rows[i].bar, signals[i - 1], s, i), i)
  {
    hide FitsLot, BoughtAt, Leave, BuyAt, W.ValidRows, NoneFits, IsEntry, Entered;
    var bar, signal := rows[i].bar, signals[i - 1];
    if s.entry.Some? {
      HeldIs(p, bar, signal, s, i);
    } else if Says(signal, BUY) {
      BuyIs(p, rows, signals, s, i);
      if BuyAt(p, bar, signal.value, s, i).entry.Some? { BoughtIs(p, bar, signal, s, i); }
    }
    hide LeaveIn, Exits;
  }

  // ----------------------------------------------------------- whole runs

  ghost predicate IsBar(p: Policy, rows: seq<Row>, signals: seq<Option<Signal>>, s: Sim, t: Sim, i: nat)
    requires 0 < i < |rows| <= |signals|
  {
    exists u :: IsAct(p, rows, signals, s, u, i) && Marks(t, u, rows[i].bar.close)
  }

  /** Every bar of every run is such a bar. */
  lemma EveryBarIsGenuine(p: Policy, rows: seq<Row>, signals: seq<Option<Signal>>, capital: real,
                          start: nat, i: nat)
    requires ValidPolicy(p) && W.ValidRows(rows) && capital > 0.0 && 0 < start <= i < |rows| <= |signals|
    ensures IsBar(p, rows, signals, X.Before(p, rows, signals, capital, start, i),
                  X.Before(p, rows, signals, capital, start, i + 1), i)
  {
    assert p.rules.step > 0.0;
    hide X.Act, IsAct, Marks, Mark, W.ValidRows, ValidPolicy, Sound;
    X.AlwaysSound(p, rows, signals, capital, start, i);
    var s := X.Before(p, rows, signals, capital, start, i);
    ActIs(p, rows, signals, s, i, capital);
    X.ActCoherent(p, rows[i].bar, signals[i - 1], s, i);
    MarksIt(X.Act(p, rows[i].bar, signals[i - 1], s, i), rows[i].bar.close);
  }

  /** What bar `i` calls for, of a position entered before or at this bar. */
  ghost function CallAt(p: Policy, rows: seq<Row>, signals: seq<Option<Signal>>, e: Entry, i: nat)
    : Option<(real, string)>
    requires 0 < i < |rows| <= |signals|
  {
    if e.index < i then Exits(rows[i].bar, e, "GAP_STOP", Sells(signals[i - 1]))
    else Exits(rows[i].bar, e, "ENTRY_GAP_STOP", None)
  }

  ghost predicate EnteredIn(p: Policy, rows: seq<Row>, signals: seq<Option<Signal>>, capital: real,
                            start: nat, e: Entry, n: nat)
    requires p.rules.step > 0.0 && capital > 0.0 && 0 < start && n <= |rows| <= |signals|
  {
    && start <= e.index < n && X.Before(p, rows, signals, capital, start, e.index).entry == None
    && IsEntry(p, rows, signals, e, e.index, X.Before(p, rows, signals, capital, start, e.index).cash)
  }

  ghost predicate Kept(p: Policy, rows: seq<Row>, signals: seq<Option<Signal>>, e: Entry, n: nat)
    requires n <= |rows| <= |signals|
  {
    forall i :: 0 < i && e.index <= i < n ==> StaysAt(e, CallAt(p, rows, signals, e, i), p.slip, p.rules)
  }

  ghost predicate ExitedIn(p: Policy, rows: seq<Row>, signals: seq<Option<Signal>>, t: Trade, n: nat)
    requires n <= |rows| <= |signals|
  {
    && 0 < t.entry.index <= t.exitIndex < n && Kept(p, rows, signals, t.entry, t.exitIndex)
    && LeftAt(t, CallAt(p, rows, signals, t.entry, t.exitIndex), p.slip, 0.001, p.rules)
  }

  ghost predicate Genuine(p: Policy, rows: seq<Row>, signals: seq<Option<Signal>>, capital: real,
                          start: nat, s: Sim, n: nat)
    requires p.rules.step > 0.0 && capital > 0.0 && 0 < start && n <= |rows| <= |signals|
  {
    && (s.entry.Some? ==>
        && EnteredIn(p, rows, signals, capital, start, s.entry.value, n)
        && Kept(p, rows, signals, s.entry.value, n) && s.quantity == s.entry.value.quantity)
    && (forall t :: t in s.trades ==>
        EnteredIn(p, rows, signals, capital, start, t.entry, n) && ExitedIn(p, rows, signals, t, n))
  }

  /** A position, old or new, is kept over the bar or becomes a trade of it. */
  lemma LeaveIsGenuine(p: Policy, rows: seq<Row>, signals: seq<Option<Signal>>, capital: real,
                       start: nat, s: Sim, t: Sim, i: nat)
    requires p.rules.step > 0.0 && capital > 0.0 && 0 < start <= i < |rows| <= |signals|
    requires s.entry.Some? && s.quantity == s.entry.value.quantity
    requires EnteredIn(p, rows, signals, capital, start, s.entry.value, i + 1)
    requires Kept(p, rows, signals, s.entry.value, i)
    requires forall x :: x in s.trades ==>
      EnteredIn(p, rows, signals, capital, start, x.entry, i + 1) && ExitedIn(p, rows, signals, x, i + 1)
    requires t == Leave(s, i, CallAt(p, rows, signals, s.entry.value, i), p.slip, 0.001, p.rules, "EXIT_BELOW_MINIMUM")
    ensures Genuine(p, rows, signals, capital, start, t, i + 1)
  {
    var call := CallAt(p, rows, signals, s.entry.value, i);
    LeaveMeans(s, i, call, p.slip, 0.001, p.rules, "EXIT_BELOW_MINIMUM");
    hide Leave, CallAt, EnteredIn, LeftAt, StaysAt;
    if t.entry == None { assert t.trades == s.trades + [t.trades[|s.trades|]]; }
  }

  lemma EnteredLater(p: Policy, rows: seq<Row>, signals: seq<Option<Signal>>, capital: real, start: nat,
                     s: Sim, i: nat)
    requires p.rules.step > 0.0 && capital > 0.0 && 0 < start && i < |rows| <= |signals|
    requires Genuine(p, rows, signals, capital, start, s, i)
    ensures forall x :: x in s.trades ==>
      EnteredIn(p, rows, signals, capital, start, x.entry, i + 1) && ExitedIn(p, rows, signals, x, i + 1)
    ensures s.entry.Some? ==> EnteredIn(p, rows, signals, capital, start, s.entry.value, i + 1)
  {
    hide IsEntry, Kept, LeftAt, CallAt, X.Before;
  }

  lemma ActIsGenuine(p: Policy, rows: seq<Row>, signals: seq<Option<Signal>>, capital: real, start: nat,
                     t: Sim, i: nat)
    requires p.rules.step > 0.0 && capital > 0.0 && 0 < start <= i < |rows| <= |signals|
    requires var s := X.Before(p, rows, signals, capital, start, i);
      Genuine(p, rows, signals, capital, start, s, i) && IsAct(p, rows, signals, s, t, i)
    ensures Genuine(p, rows, signals, capital, start, t, i + 1)
  {
    hide Leave, X.Before, IsEntry, Exits, ExitedIn, Says, NoneFits, BoughtAt, Sells;
    var s := X.Before(p, rows, signals, capital, start, i);
    EnteredLater(p, rows, signals, capital, start, s, i);
    if s.entry.Some? {
      LeaveIsGenuine(p, rows, signals, capital, start, s, t, i);
    } else if t.trades == s.trades && t.entry == None {
    } else {
      var e :| IsEntry(p, rows, signals, e, i, s.cash) && t == LeaveIn(p, rows[i].bar, Entered(s, e), i,
          "ENTRY_GAP_STOP", None);
      assert e.index == i by { EntryIndex(p, rows, signals, e, i, s.cash); }
      LeaveIsGenuine(p, rows, signals, capital, start, Entered(s, e), t, i);
    }
  }

  lemma EntryIndex(p: Policy, rows: seq<Row>, signals: seq<Option<Signal>>, e: Entry, i: nat, cash: real)
    requires 0 < i < |rows| <= |signals| && IsEntry(p, rows, signals, e, i, cash)
    ensures e.index == i
  {
  }

  lemma BarIsGenuine(p: Policy, rows: seq<Row>, signals: seq<Option<Signal>>, capital: real, start: nat,
                     t: Sim, i: nat)
    requires p.rules.step > 0.0 && capital > 0.0 && 0 < start <= i < |rows| <= |signals|
    requires var s := X.Before(p, rows, signals, capital, start, i);
      Genuine(p, rows, signals, capital, start, s, i) && IsBar(p, rows, signals, s, t, i)
    ensures Genuine(p, rows, signals, capital, start, t, i + 1)
  {
    var s := X.Before(p, rows, signals, capital, start, i);
    var u :| IsAct(p, rows, signals, s, u, i) && Marks(t, u, rows[i].bar.close);
    hide IsAct, EnteredIn, ExitedIn, Kept, X.Before, Worth;
    ActIsGenuine(p, rows, signals, capital, start, u, i);
  }

  lemma StartIsGenuine(p: Policy, rows: seq<Row>, signals: seq<Option<Signal>>, capital: real,
                       start: nat, n: nat)
    requires p.rules.step > 0.0 && capital > 0.0 && 0 < start && n <= start && n <= |rows| <= |signals|
    ensures Genuine(p, rows, signals, capital, start, X.Before(p, rows, signals, capital, start, n), n)
  {
  }

  /** In every run each entry and each trade is one that its bars call for: bought at the opening after
      a BUY, in the policy's lot and between its levels, and left at the first bar that calls for it and
      at whose level the lot can be sold. */
  lemma {:induction false} EveryTradeIsGenuine(p: Policy, rows: seq<Row>, signals: seq<Option<Signal>>,
                                               capital: real, start: nat, n: nat)
    requires ValidPolicy(p) && p.rules.step > 0.0 && W.ValidRows(rows) && capital > 0.0 && 0 < start
      && n <= |rows| <= |signals|
    ensures Genuine(p, rows, signals, capital, start,
                    X.Before(p, rows, signals, capital, start, n), n)
  {
    hide Genuine, IsBar, W.ValidRows, ValidPolicy, X.Before, W.Coherent, Sound;
    if n <= start {
      StartIsGenuine(p, rows, signals, capital, start, n);
    } else {
      EveryTradeIsGenuine(p, rows, signals, capital, start, n - 1);
      EveryBarIsGenuine(p, rows, signals, capital, start, n - 1);
      BarIsGenuine(p, rows, signals, capital, start,
                   X.Before(p, rows, signals, capital, start, n), n - 1);
    }
  }
}
