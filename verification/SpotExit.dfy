/** The Spot variant with fixed ATR levels: opening triggers before signal exits, intrabar
    triggers after them, stop first when both levels are touched.  `range` stands for the
    measured ATR of the fifteen bars before an entry. */
module SpotExit {
  import opened Wrappers
  import opened RealArith
  import opened PaperExecution
  import opened SpotAccount
  import opened W = SpotWalkForward
  import T = Triggers

  const ATR_WINDOW := 15
  const STOP_MULTIPLIER := 1.5
  const TARGET_RR := 2.0

  type Range = seq<Row> -> Option<real>

  function Distance(measured: Option<real>): real {
    if measured.Some? then measured.value * STOP_MULTIPLIER else 0.0
  }

  function OpenExit(c: Config, bar: T.Bar, signal: Option<Signal>, e: Entry): Option<(real, string)> {
    var t := T.Named(T.OpeningTrigger(bar, e.stop, e.target));
    if t == None && Eligible(signal, c) && signal.value.side == SELL then Some((bar.open, "SIGNAL")) else t
  }

  function CloseAt(c: Config, s: Sim, i: nat, exit: (real, string)): Sim
    requires s.entry.Some?
  {
    Close(s, i, Down(exit.0, c.slip), exit.1, c.fee, c.rules, "EXIT_DUST")
  }

  function BuyAt(c: Config, rows: seq<Row>, range: Range, signal: Signal, s: Sim, i: nat): Sim
    requires ATR_WINDOW <= i < |rows| && c.rules.step > 0.0
  {
    var price := Up(rows[i].bar.open, c.slip);
    var distance := Distance(range(rows[i - ATR_WINDOW..i]));
    var plan := PlanFor(c, rows[i - 1].bar.close, s.cash);
    if distance <= 0.0 || distance >= price then Block(s, "INVALID_ATR_PROTECTION")
    else if plan.Error? then s
    else Fill(c, s, i, Units(c, plan.value), price, price - distance, price + distance * TARGET_RR, signal.route)
  }

  /** What happens at the opening, and whether an exit was attempted there. */
  function Opening(c: Config, rows: seq<Row>, range: Range, signal: Option<Signal>, s: Sim, i: nat): (Sim, bool)
    requires ATR_WINDOW <= i < |rows| && Coherent(s) && c.rules.step > 0.0
  {
    var bar := rows[i].bar;
    if s.quantity > 0.0 then
      var exit := OpenExit(c, bar, signal, s.entry.value);
      if exit.Some? then (CloseAt(c, s, i, exit.value), true) else (s, false)
    else if Eligible(signal, c) && signal.value.side == BUY then
      var b := BuyAt(c, rows, range, signal.value, s, i);
      var exit := if b.entry.Some? then T.Named(T.OpeningTrigger(bar, b.entry.value.stop, b.entry.value.target))
        else None;
      if exit.Some? then (CloseAt(c, b, i, exit.value), true) else (b, false)
    else (s, false)
  }

  function Intrabar(c: Config, bar: T.Bar, s: Sim, i: nat): Sim {
    if s.entry == None then s
    else
      var exit := T.Named(T.IntrabarTrigger(bar, s.entry.value.stop, s.entry.value.target));
      if exit.Some? then CloseAt(c, s, i, exit.value) else s
  }

  function Act(c: Config, rows: seq<Row>, range: Range, signal: Option<Signal>, s: Sim, i: nat): Sim
    requires ATR_WINDOW <= i < |rows| && Coherent(s) && c.rules.step > 0.0
  {
    var (after, attempted) := Opening(c, rows, range, signal, s, i);
    if after.quantity > 0.0 && !attempted then Intrabar(c, rows[i].bar, after, i) else after
  }

  lemma BuyCoherent(c: Config, rows: seq<Row>, range: Range, signal: Signal, s: Sim, i: nat)
    requires ATR_WINDOW <= i < |rows| && Coherent(s) && s.entry == None && c.rules.step > 0.0
    ensures Coherent(BuyAt(c, rows, range, signal, s, i))
  {
    hide Up, Distance, PlanFor, Units, Notional, Scale;
  }

  lemma ActCoherent(c: Config, rows: seq<Row>, range: Range, signal: Option<Signal>, s: Sim, i: nat)
    requires ATR_WINDOW <= i < |rows| && Coherent(s) && c.rules.step > 0.0
    ensures Coherent(Act(c, rows, range, signal, s, i))
  {
    hide BuyAt, Notional, Scale, TradePnl, Up, Down;
    if s.quantity == 0.0 && Eligible(signal, c) && signal.value.side == BUY {
      BuyCoherent(c, rows, range, signal.value, s, i);
    }
  }

  function Bar(c: Config, rows: seq<Row>, range: Range, signals: seq<Option<Signal>>, s: Sim, i: nat): (r: Sim)
    requires ATR_WINDOW <= i < |rows| <= |signals| && Coherent(s) && c.rules.step > 0.0
    ensures Coherent(r)
  {
    ActCoherent(c, rows, range, signals[i - 1], s, i);
    Mark(Act(c, rows, range, signals[i - 1], s, i), rows[i].bar.close)
  }

  ghost function Before(c: Config, rows: seq<Row>, range: Range, signals: seq<Option<Signal>>,
                        capital: real, start: nat, i: nat): (s: Sim)
    requires c.rules.step > 0.0 && capital > 0.0 && ATR_WINDOW <= start && i <= |rows| <= |signals|
    ensures Coherent(s)
  {
    if i <= start then SpotAccount.Start(capital)
    else Bar(c, rows, range, signals, Before(c, rows, range, signals, capital, start, i - 1), i - 1)
  }

  // ------------------------------------------------------------- soundness

  lemma BuyIsSound(c: Config, rows: seq<Row>, range: Range, signal: Signal, s: Sim, i: nat, capital: real)
    requires ATR_WINDOW <= i < |rows| && ValidConfig(c) && s.entry == None && Sound(s, capital)
    ensures Sound(BuyAt(c, rows, range, signal, s, i), capital)
  {
    hide Sound, Fill, Up, Distance, PlanFor, Units;
    var price := Up(rows[i].bar.open, c.slip);
    var distance := Distance(range(rows[i - ATR_WINDOW..i]));
    var plan := PlanFor(c, rows[i - 1].bar.close, s.cash);
    assert Sound(Block(s, "INVALID_ATR_PROTECTION"), capital) by { BlockIsSound(s, "INVALID_ATR_PROTECTION", capital); }
    if plan.Ok? {
      FillIsSound(c, s, i, Units(c, plan.value), price, price - distance, price + distance * TARGET_RR,
                  signal.route, capital);
    }
  }

  lemma BlockIsSound(s: Sim, why: string, capital: real)
    requires Sound(s, capital)
    ensures Sound(Block(s, why), capital)
  {
  }

  lemma CloseAtIsSound(c: Config, s: Sim, i: nat, exit: (real, string), capital: real)
    requires ValidConfig(c) && s.entry.Some? && Sound(s, capital)
    ensures Sound(CloseAt(c, s, i, exit), capital)
  {
    CloseIsSound(s, i, Down(exit.0, c.slip), exit.1, c.fee, c.rules, "EXIT_DUST", capital);
  }

  lemma BarIsSound(c: Config, rows: seq<Row>, range: Range, signals: seq<Option<Signal>>, s: Sim, i: nat, capital: real)
    requires ATR_WINDOW <= i < |rows| <= |signals| && ValidConfig(c) && ValidRows(rows)
    requires Coherent(s) && Sound(s, capital)
    ensures Sound(Bar(c, rows, range, signals, s, i), capital)
  {
    hide Sound, BuyAt, CloseAt, Mark, OpenExit, T.OpeningTrigger, T.IntrabarTrigger, T.Named;
    var signal := signals[i - 1];
    if s.quantity > 0.0 {
      forall exit { CloseAtIsSound(c, s, i, exit, capital); }
    } else if Eligible(signal, c) && signal.value.side == BUY {
      BuyIsSound(c, rows, range, signal.value, s, i, capital);
      var b := BuyAt(c, rows, range, signal.value, s, i);
      if b.entry.Some? {
        forall exit { CloseAtIsSound(c, b, i, exit, capital); }
      }
    }
    ActCoherent(c, rows, range, signal, s, i);
    assert rows[i].bar.close > 0.0;
    MarkIsSound(Act(c, rows, range, signal, s, i), rows[i].bar.close, capital);
  }

  lemma {:induction false} AlwaysSound(c: Config, rows: seq<Row>, range: Range, signals: seq<Option<Signal>>,
                                       capital: real, start: nat, i: nat)
    requires ValidConfig(c) && ValidRows(rows) && capital > 0.0 && ATR_WINDOW <= start && i <= |rows| <= |signals|
    ensures Sound(Before(c, rows, range, signals, capital, start, i), capital)
  {
    hide Sound, Bar, ValidRows;
    if i <= start {
      StartIsSound(capital);
    } else {
      AlwaysSound(c, rows, range, signals, capital, start, i - 1);
      BarIsSound(c, rows, range, signals, Before(c, rows, range, signals, capital, start, i - 1), i - 1, capital);
    }
  }

  // ------------------------------------------------------ exits and levels

  lemma BuyIsLeveled(c: Config, rows: seq<Row>, range: Range, signal: Signal, s: Sim, i: nat)
    requires ATR_WINDOW <= i < |rows| && c.rules.step > 0.0 && s.entry == None && Leveled(s, c.slip)
    ensures var b := BuyAt(c, rows, range, signal, s, i);
            && Leveled(b, c.slip)
            && (b.entry.Some? ==>
                var e := b.entry.value;
                e.target - e.price == (e.price - e.stop) * TARGET_RR)
  {
    hide Up, Down, PlanFor, Units, Notional, Scale, TradePnl, Distance;
  }

  lemma CloseAtIsLeveled(c: Config, s: Sim, i: nat, exit: (real, string))
    requires 0.0 <= c.slip < 1.0 && s.entry.Some? && Leveled(s, c.slip)
    requires exit.0 <= s.entry.value.target && (!GapStop(exit.1) ==> exit.0 >= s.entry.value.stop)
    ensures Leveled(CloseAt(c, s, i, exit), c.slip)
  {
    CloseIsLeveled(s, i, exit.0, exit.1, c.slip, c.fee, c.rules, "EXIT_DUST");
  }

  lemma OpeningIsLeveled(c: Config, rows: seq<Row>, range: Range, signal: Option<Signal>, s: Sim, i: nat)
    requires ATR_WINDOW <= i < |rows| && c.rules.step > 0.0 && 0.0 <= c.slip < 1.0 && Coherent(s) && Leveled(s, c.slip)
    ensures Leveled(Opening(c, rows, range, signal, s, i).0, c.slip)
  {
    hide BuyAt, CloseAt, Down;
    var bar := rows[i].bar;
    if s.quantity > 0.0 {
      var exit := OpenExit(c, bar, signal, s.entry.value);
      if exit.Some? { CloseAtIsLeveled(c, s, i, exit.value); }
    } else if Eligible(signal, c) && signal.value.side == BUY {
      BuyIsLeveled(c, rows, range, signal.value, s, i);
      var b := BuyAt(c, rows, range, signal.value, s, i);
      if b.entry.Some? {
        var exit := T.Named(T.OpeningTrigger(bar, b.entry.value.stop, b.entry.value.target));
        if exit.Some? { CloseAtIsLeveled(c, b, i, exit.value); }
      }
    }
  }

  lemma IntrabarIsLeveled(c: Config, bar: T.Bar, s: Sim, i: nat)
    requires 0.0 <= c.slip < 1.0 && Leveled(s, c.slip)
    ensures Leveled(Intrabar(c, bar, s, i), c.slip)
  {
    if s.entry.Some? {
      var exit := T.Named(T.IntrabarTrigger(bar, s.entry.value.stop, s.entry.value.target));
      if exit.Some? { CloseAtIsLeveled(c, s, i, exit.value); }
    }
  }

  lemma BarIsLeveled(c: Config, rows: seq<Row>, range: Range, signals: seq<Option<Signal>>, s: Sim, i: nat)
    requires ATR_WINDOW <= i < |rows| <= |signals| && ValidConfig(c) && Coherent(s) && Leveled(s, c.slip)
    ensures Leveled(Bar(c, rows, range, signals, s, i), c.slip)
  {
    hide Opening, Intrabar, Mark, Leveled;
    var signal := signals[i - 1];
    OpeningIsLeveled(c, rows, range, signal, s, i);
    IntrabarIsLeveled(c, rows[i].bar, Opening(c, rows, range, signal, s, i).0, i);
    ActCoherent(c, rows, range, signal, s, i);
    MarkIsLeveled(Act(c, rows, range, signal, s, i), rows[i].bar.close, c.slip);
  }

  /** In every run each entry lies strictly between its levels and each trade exits within them:
      never above its target and, gaps aside, never below its stop, before slippage. */
  lemma {:induction false} AlwaysWithinLevels(c: Config, rows: seq<Row>, range: Range, signals: seq<Option<Signal>>,
                                              capital: real, start: nat, i: nat)
    requires ValidConfig(c) && capital > 0.0 && ATR_WINDOW <= start && i <= |rows| <= |signals|
    ensures Leveled(Before(c, rows, range, signals, capital, start, i), c.slip)
  {
    hide Bar, Leveled;
    if i <= start {
      StartIsLeveled(capital, c.slip);
    } else {
      AlwaysWithinLevels(c, rows, range, signals, capital, start, i - 1);
      BarIsLeveled(c, rows, range, signals, Before(c, rows, range, signals, capital, start, i - 1), i - 1);
    }
  }

  /** In every run each closed trade's P&L is bounded by its levels. */
  lemma EveryTradeIsBounded(c: Config, rows: seq<Row>, range: Range, signals: seq<Option<Signal>>, capital: real,
                            start: nat, i: nat)
    requires ValidConfig(c) && capital > 0.0 && ATR_WINDOW <= start && i <= |rows| <= |signals|
    ensures forall t :: t in Before(c, rows, range, signals, capital, start, i).trades ==> Bounded(t, c.slip)
  {
    AlwaysWithinLevels(c, rows, range, signals, capital, start, i);
    hide Before, Bounded, WithinLevels, Bracketed, TradePnl;
    forall t | t in Before(c, rows, range, signals, capital, start, i).trades ensures Bounded(t, c.slip) {
      TradeIsBounded(t, c.slip);
    }
  }

  // ---------------------------------------------------------- the simulator

  method ActOn(a: Account, c: Config, rows: seq<Row>, range: Range, signal: Option<Signal>, i: nat, ghost capital: real)
    requires ATR_WINDOW <= i < |rows| && ValidConfig(c) && ValidRows(rows)
    requires Coherent(a.View()) && Sound(a.View(), capital)
    modifies a
    ensures a.View() == Act(c, rows, range, signal, old(a.View()), i)
  {
    hide Sound, Notional, Scale, Fits, Units, TradePnl;
    var bar := rows[i].bar;
    var eligible := Eligible(signal, c);
    var held, attempted := a.quantity > 0.0, false;
    if held {
      var exit := T.Named(T.OpeningTrigger(bar, a.entry.value.stop, a.entry.value.target));
      if exit == None && eligible && signal.value.side == SELL { exit := Some((bar.open, "SIGNAL")); }
      if exit.Some? {
        a.Sell(i, Down(exit.value.0, c.slip), exit.value.1, c.fee, c.rules, "EXIT_DUST");
        attempted := true;
      }
    } else if eligible && signal.value.side == BUY {
      attempted := BuyOn(a, c, rows, range, signal.value, i, capital);
    }
    if a.quantity > 0.0 && !attempted {
      var exit := T.Named(T.IntrabarTrigger(bar, a.entry.value.stop, a.entry.value.target));
      if exit.Some? {
        a.Sell(i, Down(exit.value.0, c.slip), exit.value.1, c.fee, c.rules, "EXIT_DUST");
      }
    }
  }

  /** An entry, and the exit that slippage can force at the same opening. */
  method BuyOn(a: Account, c: Config, rows: seq<Row>, range: Range, signal: Signal, i: nat, ghost capital: real)
    returns (attempted: bool)
    requires ATR_WINDOW <= i < |rows| && ValidConfig(c) && ValidRows(rows) && a.entry == None && a.quantity == 0.0
    requires Coherent(a.View()) && Sound(a.View(), capital)
    requires Eligible(Some(signal), c) && signal.side == BUY
    modifies a
    ensures (a.View(), attempted) == Opening(c, rows, range, Some(signal), old(a.View()), i)
    ensures Coherent(a.View())
  {
    hide Sound, Notional, Scale, Fits, Units, TradePnl;
    attempted := false;
    BuyCoherent(c, rows, range, signal, a.View(), i);
    var price := Up(rows[i].bar.open, c.slip);
    var distance := Distance(range(rows[i - ATR_WINDOW..i]));
    if distance <= 0.0 || distance >= price {
      a.Refuse("INVALID_ATR_PROTECTION");
      return;
    }
    SizingNeverRaises(c, a.View(), rows[i - 1].bar.close, capital);
    var units := Units(c, PlanFor(c, rows[i - 1].bar.close, a.cash).value);
    if !Fits(c, a.cash, units, price) {
      a.Refuse("ENTRY_SIZE_OR_CASH");
      return;
    }
    a.Buy(Entry(i, price, Scale(Notional(units, price), c.fee), units, price - distance,
                price + distance * TARGET_RR, signal.route));
    var exit := T.Named(T.OpeningTrigger(rows[i].bar, a.entry.value.stop, a.entry.value.target));
    if exit.Some? {
      a.Sell(i, Down(exit.value.0, c.slip), exit.value.1, c.fee, c.rules, "EXIT_DUST");
      attempted := true;
    }
  }

  method Simulate(c: Config, rows: seq<Row>, range: Range, signals: seq<Option<Signal>>, capital: real, start: nat,
                  end: nat)
    returns (a: Account)
    requires ValidConfig(c) && ValidRows(rows) && capital > 0.0 && ATR_WINDOW <= start <= end <= |rows| <= |signals|
    ensures fresh(a) && a.View() == Before(c, rows, range, signals, capital, start, end)
  {
    hide Sound, Act, ValidRows;
    a := new Account(capital);
    for i := start to end
      invariant fresh(a) && a.View() == Before(c, rows, range, signals, capital, start, i)
    {
      AlwaysSound(c, rows, range, signals, capital, start, i);
      ActCoherent(c, rows, range, signals[i - 1], a.View(), i);
      ActOn(a, c, rows, range, signals[i - 1], i, capital);
      a.MarkClose(rows[i].bar.close);
    }
  }

  // ---------------------------------------------------------- no look-ahead

  lemma ActReadsOnlyThrough(c: Config, rows1: seq<Row>, rows2: seq<Row>, range: Range, signal: Option<Signal>,
                            s: Sim, i: nat)
    requires ATR_WINDOW <= i < |rows1| && i < |rows2| && Coherent(s) && c.rules.step > 0.0
    requires forall k :: 0 <= k <= i ==> rows1[k] == rows2[k]
    ensures Act(c, rows1, range, signal, s, i) == Act(c, rows2, range, signal, s, i)
  {
    hide Fill, CloseAt, Intrabar, OpenExit, Up, Distance, PlanFor, Units;
    assert rows1[i - ATR_WINDOW..i] == rows2[i - ATR_WINDOW..i];
  }

  /** Two histories that agree through bar `n` give the same account through bar `n`, with
      signal generation and the entry's ATR window included. */
  lemma {:induction false} NoLookAhead(c: Config, rows1: seq<Row>, rows2: seq<Row>, range: Range,
                                       oracle: seq<Row> -> Signal, capital: real, start: nat, n: nat)
    requires c.rules.step > 0.0 && capital > 0.0 && ATR_WINDOW <= start
    requires n < |rows1| && n < |rows2| && rows1[..n + 1] == rows2[..n + 1]
    ensures Before(c, rows1, range, SignalsOf(rows1, oracle), capital, start, n + 1)
         == Before(c, rows2, range, SignalsOf(rows2, oracle), capital, start, n + 1)
  {
    hide Act, SignalAt;
    if n + 1 > start {
      forall k | 0 <= k <= n ensures rows1[k] == rows2[k] {
        assert rows1[k] == rows1[..n + 1][k] && rows2[k] == rows2[..n + 1][k];
      }
      if n > start {
        assert rows1[..n] == rows2[..n];
        NoLookAhead(c, rows1, rows2, range, oracle, capital, start, n - 1);
      }
      SignalsAgree(rows1, rows2, oracle, n, n - 1);
      var s := Before(c, rows1, range, SignalsOf(rows1, oracle), capital, start, n);
      ActReadsOnlyThrough(c, rows1, rows2, range, SignalsOf(rows1, oracle)[n - 1], s, n);
    }
  }
}
