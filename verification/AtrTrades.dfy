/** What each bar, entry and trade of the Spot variant with ATR levels is, in the fields of its rows. */
module AtrTrades {

  import opened Wrappers
  import opened RealArith
  import opened PaperExecution
  import opened SpotAccount
  import opened SpotTrades
  import opened W = SpotWalkForward
  import B = BaselineTrades
  import X = SpotExit
  import T = Triggers

  /** One and a half of the range measured over the fifteen bars before the entry, 0 without one. */
  ghost function Width(rows: seq<Row>, range: X.Range, i: nat): real
    requires 15 <= i <= |rows|
  {
    var measured := range(rows[i - 15..i]);
    if measured.Some? then measured.value * 1.5 else 0.0
  }

  /** The entry that bar `i` makes for an account with this cash: the baseline's lot, at the bar's
      opening, between a stop one width below and a target two widths above. */
  ghost predicate IsEntry(c: Config, rows: seq<Row>, range: X.Range, signals: seq<Option<Signal>>, e: Entry, i: nat,
                          cash: real)
    requires 15 <= i < |rows| <= |signals|
  {
    var width := Width(rows, range, i);
    && e.index == i && B.Calls(signals[i - 1], BUY, c) && e.route == signals[i - 1].value.route
    && e.price == BoughtAt(rows[i].bar.open, c.slip) && 0.0 < width < e.price
    && B.FitsLot(c, rows[i - 1].bar.close, cash, e.quantity, e.price)
    && e.fee == Times(Times(e.quantity, e.price), c.fee)
    && e.stop == e.price - width && e.target == e.price + 2.0 * width
  }

  ghost function Sells(signal: Option<Signal>, c: Config): Option<string> {
    if B.Calls(signal, SELL, c) then Some("SIGNAL") else None
  }

  ghost function LeaveIn(c: Config, bar: T.Bar, s: Sim, i: nat, sells: Option<string>): Sim
    requires s.entry.Some?
  {
    Leave(s, i, Exits(bar, s.entry.value, "GAP_STOP", sells), c.slip, c.fee, c.rules, "EXIT_DUST")
  }

  /** What happens in a bar before it is marked. */
  ghost predicate IsAct(c: Config, rows: seq<Row>, range: X.Range, signals: seq<Option<Signal>>, s: Sim, t: Sim, i: nat)
    requires 15 <= i < |rows| <= |signals|
  {
    var bar := rows[i].bar;
    var price, width := BoughtAt(bar.open, c.slip), Width(rows, range, i);
    if s.entry.Some? then t == LeaveIn(c, bar, s, i, Sells(signals[i - 1], c))
    else if !B.Calls(signals[i - 1], BUY, c) then t == s
    else if !(0.0 < width < price) then t == Counted(s, "INVALID_ATR_PROTECTION")
    else if B.NoneFits(c, rows[i - 1].bar.close, s.cash, price) then t == Counted(s, "ENTRY_SIZE_OR_CASH")
    else exists e :: IsEntry(c, rows, range, signals, e, i, s.cash) && t == LeaveIn(c, bar, Entered(s, e), i, None)
  }

  lemma OpenExitIs(c: Config, bar: T.Bar, signal: Option<Signal>, e: Entry)
    ensures var sells := Sells(signal, c);
      X.OpenExit(c, bar, signal, e) ==
        if bar.open <= e.stop || bar.open >= e.target || sells.Some? then Exits(bar, e, "GAP_STOP", sells) else None
    ensures !(bar.open <= e.stop || bar.open >= e.target) ==>
      T.Named(T.IntrabarTrigger(bar, e.stop, e.target)) == Exits(bar, e, "GAP_STOP", None)
    ensures T.Named(T.OpeningTrigger(bar, e.stop, e.target)) ==
      if bar.open <= e.stop || bar.open >= e.target then Exits(bar, e, "GAP_STOP", None) else None
  {
  }

  /** A held position leaves as its bar calls for. */
  lemma HeldIs(c: Config, rows: seq<Row>, range: X.Range, signal: Option<Signal>, s: Sim, i: nat)
    requires 15 <= i < |rows| && Coherent(s) && c.rules.step > 0.0
    requires s.entry.Some? && s.quantity == s.entry.value.quantity
    ensures X.Act(c, rows, range, signal, s, i) == LeaveIn(c, rows[i].bar, s, i, Sells(signal, c))
  {
    var bar, e := rows[i].bar, s.entry.value;
    OpenExitIs(c, bar, signal, e);
    var call := Exits(bar, e, "GAP_STOP", Sells(signal, c));
    if call.Some? { LeaveIs(s, i, call.value.0, call.value.1, c.slip, c.fee, c.rules, "EXIT_DUST"); }
    hide Exits, Leave, Close, X.OpenExit, T.OpeningTrigger, T.IntrabarTrigger, T.Named, W.Down, X.BuyAt, Sells;
  }

  /** A bought one leaves at its own bar if that touches its levels. */
  lemma BoughtIs(c: Config, rows: seq<Row>, range: X.Range, signal: Option<Signal>, s: Sim, i: nat)
    requires 15 <= i < |rows| && Coherent(s) && c.rules.step > 0.0
    requires s.entry == None && B.Calls(signal, BUY, c) && X.BuyAt(c, rows, range, signal.value, s, i).entry.Some?
    requires var b := X.BuyAt(c, rows, range, signal.value, s, i);
      b.quantity == b.entry.value.quantity && b.quantity > 0.0
    ensures X.Act(c, rows, range, signal, s, i)
         == LeaveIn(c, rows[i].bar, X.BuyAt(c, rows, range, signal.value, s, i), i, None)
  {
    var b := X.BuyAt(c, rows, range, signal.value, s, i);
    var bar, e := rows[i].bar, b.entry.value;
    OpenExitIs(c, bar, None, e);
    var call := Exits(bar, e, "GAP_STOP", None);
    if call.Some? { LeaveIs(b, i, call.value.0, call.value.1, c.slip, c.fee, c.rules, "EXIT_DUST"); }
    hide Exits, Leave, Close, X.OpenExit, T.OpeningTrigger, T.IntrabarTrigger, T.Named, W.Down, X.BuyAt;
  }

  /** The simulator's entry is the bar's, or it is blocked for the first reason that applies. */
  lemma BuyIs(c: Config, rows: seq<Row>, range: X.Range, signals: seq<Option<Signal>>, s: Sim, i: nat)
    requires 15 <= i < |rows| <= |signals| && ValidConfig(c) && ValidRows(rows)
    requires s.entry == None && s.cash > 0.0 && B.Calls(signals[i - 1], BUY, c)
    ensures var b := X.BuyAt(c, rows, range, signals[i - 1].value, s, i);
      var price, width := BoughtAt(rows[i].bar.open, c.slip), Width(rows, range, i);
      if !(0.0 < width < price) then b == Counted(s, "INVALID_ATR_PROTECTION")
      else if B.NoneFits(c, rows[i - 1].bar.close, s.cash, price) then b == Counted(s, "ENTRY_SIZE_OR_CASH")
      else b.entry.Some? && b.quantity == b.entry.value.quantity && b.quantity > 0.0
           && IsEntry(c, rows, range, signals, b.entry.value, i, s.cash) && b == Entered(s, b.entry.value)
  {
    var bar, close := rows[i].bar, rows[i - 1].bar.close;
    assert close > 0.0;
    var price, width := BoughtAt(bar.open, c.slip), Width(rows, range, i);
    ProductsAre(bar.open, c.slip);
    B.LotIs(c, close, s.cash, price);
    var units := Units(c, PlanFor(c, close, s.cash).value);
    ProductsAre(units, price);
    ProductsAre(Times(units, price), c.fee);
    assert width * X.TARGET_RR == 2.0 * width;
    assert X.Distance(range(rows[i - X.ATR_WINDOW..i])) == width;
    var e := Entry(i, price, Scale(Notional(units, price), c.fee), units, price - width, price + 2.0 * width,
                   signals[i - 1].value.route);
    EnterIs(s, e);
    LotIsPositive(c, close, s.cash, units, price);
    hide Times, BoughtAt, Up, Notional, Scale, B.FitsLot, Fits, PlanFor, Units, Width, Enter, X.Distance;
  }

  lemma LotIsPositive(c: Config, close: real, cash: real, q: real, price: real)
    ensures B.FitsLot(c, close, cash, q, price) ==> q > 0.0
  {
  }

  lemma ActIs(c: Config, rows: seq<Row>, range: X.Range, signals: seq<Option<Signal>>, s: Sim, i: nat, capital: real)
    requires 15 <= i < |rows| <= |signals| && ValidConfig(c) && ValidRows(rows) && Coherent(s) && Sound(s, capital)
    ensures IsAct(c, rows, range, signals, s, X.Act(c, rows, range, signals[i - 1], s, i), i)
  {
    hide B.FitsLot, BoughtAt, Leave, X.BuyAt, ValidRows, ValidConfig, Width, B.NoneFits, IsEntry, Entered;
    var signal := signals[i - 1];
    assert c.rules.step > 0.0 by { ConfigHasStep(c); }
    if s.entry.Some? {
      HeldIs(c, rows, range, signal, s, i);
    } else if B.Calls(signal, BUY, c) {
      BuyIs(c, rows, range, signals, s, i);
      if X.BuyAt(c, rows, range, signal.value, s, i).entry.Some? { BoughtIs(c, rows, range, signal, s, i); }
    }
    hide LeaveIn, Exits;
  }

  // ----------------------------------------------------------- whole runs

  ghost predicate IsBar(c: Config, rows: seq<Row>, range: X.Range, signals: seq<Option<Signal>>, s: Sim, t: Sim, i: nat)
    requires 15 <= i < |rows| <= |signals|
  {
    exists u :: IsAct(c, rows, range, signals, s, u, i) && Marks(t, u, rows[i].bar.close)
  }

  /** Every bar of every run is such a bar. */
  lemma EveryBarIsGenuine(c: Config, rows: seq<Row>, range: X.Range, signals: seq<Option<Signal>>, capital: real,
                          start: nat, i: nat)
    requires ValidConfig(c) && ValidRows(rows) && capital > 0.0 && 15 <= start <= i < |rows| <= |signals|
    ensures IsBar(c, rows, range, signals, X.Before(c, rows, range, signals, capital, start, i),
                  X.Before(c, rows, range, signals, capital, start, i + 1), i)
  {
    hide X.Act, IsAct, Marks, Mark, ValidRows, ValidConfig, Sound;
    ConfigHasStep(c);
    X.AlwaysSound(c, rows, range, signals, capital, start, i);
    var s := X.Before(c, rows, range, signals, capital, start, i);
    ActIs(c, rows, range, signals, s, i, capital);
    X.ActCoherent(c, rows, range, signals[i - 1], s, i);
    MarksIt(X.Act(c, rows, range, signals[i - 1], s, i), rows[i].bar.close);
  }

  /** What bar `i` calls for, of a position entered before or at this bar. */
  ghost function CallAt(c: Config, rows: seq<Row>, signals: seq<Option<Signal>>, e: Entry, i: nat)
    : Option<(real, string)>
    requires 0 < i < |rows| <= |signals|
  {
    Exits(rows[i].bar, e, "GAP_STOP", if e.index < i then Sells(signals[i - 1], c) else None)
  }

  ghost predicate EnteredIn(c: Config, rows: seq<Row>, range: X.Range, signals: seq<Option<Signal>>, capital: real,
                            start: nat, e: Entry, n: nat)
    requires c.rules.step > 0.0 && capital > 0.0 && 15 <= start && n <= |rows| <= |signals|
  {
    && start <= e.index < n && X.Before(c, rows, range, signals, capital, start, e.index).entry == None
    && IsEntry(c, rows, range, signals, e, e.index, X.Before(c, rows, range, signals, capital, start, e.index).cash)
  }

  ghost predicate Kept(c: Config, rows: seq<Row>, signals: seq<Option<Signal>>, e: Entry, n: nat)
    requires n <= |rows| <= |signals|
  {
    forall i :: 0 < i && e.index <= i < n ==> StaysAt(e, CallAt(c, rows, signals, e, i), c.slip, c.rules)
  }

  ghost predicate ExitedIn(c: Config, rows: seq<Row>, signals: seq<Option<Signal>>, t: Trade, n: nat)
    requires n <= |rows| <= |signals|
  {
    && 0 < t.entry.index <= t.exitIndex < n && Kept(c, rows, signals, t.entry, t.exitIndex)
    && LeftAt(t, CallAt(c, rows, signals, t.entry, t.exitIndex), c.slip, c.fee, c.rules)
  }

  ghost predicate Genuine(c: Config, rows: seq<Row>, range: X.Range, signals: seq<Option<Signal>>, capital: real,
                          start: nat, s: Sim, n: nat)
    requires c.rules.step > 0.0 && capital > 0.0 && 15 <= start && n <= |rows| <= |signals|
  {
    && (s.entry.Some? ==>
        && EnteredIn(c, rows, range, signals, capital, start, s.entry.value, n)
        && Kept(c, rows, signals, s.entry.value, n) && s.quantity == s.entry.value.quantity)
    && (forall t :: t in s.trades ==>
        EnteredIn(c, rows, range, signals, capital, start, t.entry, n) && ExitedIn(c, rows, signals, t, n))
  }

  /** A position, old or new, is kept over the bar or becomes a trade of it. */
  lemma LeaveIsGenuine(c: Config, rows: seq<Row>, range: X.Range, signals: seq<Option<Signal>>, capital: real,
                       start: nat, s: Sim, t: Sim, i: nat)
    requires c.rules.step > 0.0 && capital > 0.0 && 15 <= start <= i < |rows| <= |signals|
    requires s.entry.Some? && s.quantity == s.entry.value.quantity
    requires EnteredIn(c, rows, range, signals, capital, start, s.entry.value, i + 1)
    requires Kept(c, rows, signals, s.entry.value, i)
    requires forall x :: x in s.trades ==>
      EnteredIn(c, rows, range, signals, capital, start, x.entry, i + 1) && ExitedIn(c, rows, signals, x, i + 1)
    requires t == Leave(s, i, CallAt(c, rows, signals, s.entry.value, i), c.slip, c.fee, c.rules, "EXIT_DUST")
    ensures Genuine(c, rows, range, signals, capital, start, t, i + 1)
  {
    var call := CallAt(c, rows, signals, s.entry.value, i);
    LeaveMeans(s, i, call, c.slip, c.fee, c.rules, "EXIT_DUST");
    hide Leave, CallAt, EnteredIn, LeftAt, StaysAt;
    if t.entry == None { assert t.trades == s.trades + [t.trades[|s.trades|]]; }
  }

  lemma EnteredLater(c: Config, rows: seq<Row>, range: X.Range, signals: seq<Option<Signal>>, capital: real, start: nat,
                     s: Sim, i: nat)
    requires c.rules.step > 0.0 && capital > 0.0 && 15 <= start && i < |rows| <= |signals|
    requires Genuine(c, rows, range, signals, capital, start, s, i)
    ensures forall x :: x in s.trades ==>
      EnteredIn(c, rows, range, signals, capital, start, x.entry, i + 1) && ExitedIn(c, rows, signals, x, i + 1)
    ensures s.entry.Some? ==> EnteredIn(c, rows, range, signals, capital, start, s.entry.value, i + 1)
  {
    hide IsEntry, Kept, LeftAt, CallAt, X.Before;
  }

  lemma ActIsGenuine(c: Config, rows: seq<Row>, range: X.Range, signals: seq<Option<Signal>>, capital: real, start: nat,
                     t: Sim, i: nat)
    requires c.rules.step > 0.0 && capital > 0.0 && 15 <= start <= i < |rows| <= |signals|
    requires var s := X.Before(c, rows, range, signals, capital, start, i);
      Genuine(c, rows, range, signals, capital, start, s, i) && IsAct(c, rows, range, signals, s, t, i)
    ensures Genuine(c, rows, range, signals, capital, start, t, i + 1)
  {
    hide Leave, X.Before, IsEntry, Exits, ExitedIn, B.Calls, B.NoneFits, Width, BoughtAt, Sells;
    var s := X.Before(c, rows, range, signals, capital, start, i);
    EnteredLater(c, rows, range, signals, capital, start, s, i);
    if s.entry.Some? {
      LeaveIsGenuine(c, rows, range, signals, capital, start, s, t, i);
    } else if t.trades == s.trades && t.entry == None {
    } else {
      var e :| IsEntry(c, rows, range, signals, e, i, s.cash) && t == LeaveIn(c, rows[i].bar, Entered(s, e), i, None);
      assert e.index == i by { EntryIndex(c, rows, range, signals, e, i, s.cash); }
      LeaveIsGenuine(c, rows, range, signals, capital, start, Entered(s, e), t, i);
    }
  }

  lemma EntryIndex(c: Config, rows: seq<Row>, range: X.Range, signals: seq<Option<Signal>>, e: Entry, i: nat,
                   cash: real)
    requires 15 <= i < |rows| <= |signals| && IsEntry(c, rows, range, signals, e, i, cash)
    ensures e.index == i
  {
  }

  lemma BarIsGenuine(c: Config, rows: seq<Row>, range: X.Range, signals: seq<Option<Signal>>, capital: real, start: nat,
                     t: Sim, i: nat)
    requires c.rules.step > 0.0 && capital > 0.0 && 15 <= start <= i < |rows| <= |signals|
    requires var s := X.Before(c, rows, range, signals, capital, start, i);
      Genuine(c, rows, range, signals, capital, start, s, i) && IsBar(c, rows, range, signals, s, t, i)
    ensures Genuine(c, rows, range, signals, capital, start, t, i + 1)
  {
    var s := X.Before(c, rows, range, signals, capital, start, i);
    var u :| IsAct(c, rows, range, signals, s, u, i) && Marks(t, u, rows[i].bar.close);
    hide IsAct, EnteredIn, ExitedIn, Kept, X.Before, Worth;
    ActIsGenuine(c, rows, range, signals, capital, start, u, i);
  }

  lemma StartIsGenuine(c: Config, rows: seq<Row>, range: X.Range, signals: seq<Option<Signal>>, capital: real,
                       start: nat, n: nat)
    requires c.rules.step > 0.0 && capital > 0.0 && 15 <= start && n <= start && n <= |rows| <= |signals|
    ensures Genuine(c, rows, range, signals, capital, start, X.Before(c, rows, range, signals, capital, start, n), n)
  {
  }

  /** In every run each entry and each trade is one that its bars call for: bought at the opening after
      an eligible BUY, in the baseline's lot and between its levels, and left at the first bar that
      calls for it and at whose level the lot can be sold. */
  lemma {:induction false} EveryTradeIsGenuine(c: Config, rows: seq<Row>, range: X.Range, signals: seq<Option<Signal>>,
                                               capital: real, start: nat, n: nat)
    requires ValidConfig(c) && c.rules.step > 0.0 && ValidRows(rows) && capital > 0.0 && 15 <= start
      && n <= |rows| <= |signals|
    ensures Genuine(c, rows, range, signals, capital, start,
                    X.Before(c, rows, range, signals, capital, start, n), n)
  {
    hide Genuine, IsBar, ValidRows, ValidConfig, X.Before, Coherent, Sound;
    if n <= start {
      StartIsGenuine(c, rows, range, signals, capital, start, n);
    } else {
      EveryTradeIsGenuine(c, rows, range, signals, capital, start, n - 1);
      EveryBarIsGenuine(c, rows, range, signals, capital, start, n - 1);
      BarIsGenuine(c, rows, range, signals, capital, start,
                   X.Before(c, rows, range, signals, capital, start, n), n - 1);
    }
  }
}
