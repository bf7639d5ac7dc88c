/** The prospective breakout policy: decisions on complete fifteen-minute candles, risk-sized
    entries, and gap, signal and intrabar exits on five-minute bars. */
module SpotBreakout {
  import opened Wrappers
  import opened RealArith
  import opened PaperExecution
  import opened SpotAccount
  import T = Triggers
  import W = SpotWalkForward
  import F = FifteenMinutes

  const FEE := 0.001

  type Row = W.Row

  /** `atr` is 0 when it is unavailable. */
  datatype Signal = Signal(side: Decision, atr: real)

  datatype Policy = Policy(rules: Rules, slip: real)

  ghost predicate ValidPolicy(p: Policy) {
    ValidRules(p.rules) && 0.0 <= p.slip < 1.0
  }

  /** One percent of the cash at risk, at most a fifth of it invested, fee included. */
  function Units(p: Policy, cash: real, distance: real, price: real): real
    requires distance > 0.0 && price > 0.0 && p.rules.step > 0.0
  {
    WholeSteps(Min(Min(cash * 0.01 / distance, cash * 0.2 / price),
                   Min(cash / W.Up(price, FEE), p.rules.maximumQuantity)),
               p.rules.step)
  }

  function CloseAt(p: Policy, s: Sim, i: nat, level: real, why: string): Sim
    requires s.entry.Some?
  {
    Close(s, i, W.Down(level, p.slip), why, FEE, p.rules, "EXIT_BELOW_MINIMUM")
  }

  function OpenExit(bar: T.Bar, signal: Option<Signal>, e: Entry): Option<(real, string)> {
    var t := T.Named(T.OpeningTrigger(bar, e.stop, e.target));
    if t == None && signal.Some? && signal.value.side == SELL then Some((bar.open, "EMA_EXIT")) else t
  }

  function BuyAt(p: Policy, bar: T.Bar, signal: Signal, s: Sim, i: nat): Sim
    requires p.rules.step > 0.0
  {
    var price := W.Up(bar.open, p.slip);
    var distance := signal.atr * 2.0;
    if !(0.0 < distance < price) then Block(s, "INVALID_STOP_DISTANCE")
    else
      var units := Units(p, s.cash, distance, price);
      if Affordable(s.cash, units, price, FEE, p.rules) then
        Enter(s, Entry(i, price, Scale(Notional(units, price), FEE), units, price - distance, price + 3.0 * distance,
                       "SPOT_BREAKOUT_15M_V1"))
      else Block(s, "ENTRY_SIZE_OR_CASH")
  }

  function Opening(p: Policy, bar: T.Bar, signal: Option<Signal>, s: Sim, i: nat): (Sim, bool)
    requires W.Coherent(s) && p.rules.step > 0.0
  {
    if s.quantity > 0.0 then
      var exit := OpenExit(bar, signal, s.entry.value);
      if exit.Some? then (CloseAt(p, s, i, exit.value.0, exit.value.1), true) else (s, false)
    else if signal.Some? && signal.value.side == BUY then
      var b := BuyAt(p, bar, signal.value, s, i);
      if b.entry.Some? && bar.open <= b.entry.value.stop then (CloseAt(p, b, i, bar.open, "ENTRY_GAP_STOP"), true)
      else (b, false)
    else (s, false)
  }

  function Intrabar(p: Policy, bar: T.Bar, s: Sim, i: nat): Sim {
    if s.entry == None then s
    else
      var exit := T.Named(T.IntrabarTrigger(bar, s.entry.value.stop, s.entry.value.target));
      if exit.Some? then CloseAt(p, s, i, exit.value.0, exit.value.1) else s
  }

  function Act(p: Policy, bar: T.Bar, signal: Option<Signal>, s: Sim, i: nat): Sim
    requires W.Coherent(s) && p.rules.step > 0.0
  {
    var (after, attempted) := Opening(p, bar, signal, s, i);
    if after.quantity > 0.0 && !attempted then Intrabar(p, bar, after, i) else after
  }

  lemma BuyCoherent(p: Policy, bar: T.Bar, signal: Signal, s: Sim, i: nat)
    requires W.Coherent(s) && s.entry == None && p.rules.step > 0.0
    ensures W.Coherent(BuyAt(p, bar, signal, s, i))
  {
    hide W.Up, Units, Notional, Scale;
  }

  lemma ActCoherent(p: Policy, bar: T.Bar, signal: Option<Signal>, s: Sim, i: nat)
    requires W.Coherent(s) && p.rules.step > 0.0
    ensures W.Coherent(Act(p, bar, signal, s, i))
  {
    hide BuyAt, Notional, Scale, TradePnl, W.Down;
    if s.quantity == 0.0 && signal.Some? && signal.value.side == BUY {
      BuyCoherent(p, bar, signal.value, s, i);
    }
  }

  function Bar(p: Policy, rows: seq<Row>, signals: seq<Option<Signal>>, s: Sim, i: nat): (r: Sim)
    requires 0 < i < |rows| <= |signals| && W.Coherent(s) && p.rules.step > 0.0
    ensures W.Coherent(r)
  {
    ActCoherent(p, rows[i].bar, signals[i - 1], s, i);
    Mark(Act(p, rows[i].bar, signals[i - 1], s, i), rows[i].bar.close)
  }

  ghost function Before(p: Policy, rows: seq<Row>, signals: seq<Option<Signal>>, capital: real, start: nat,
                        i: nat): (s: Sim)
    requires p.rules.step > 0.0 && capital > 0.0 && 0 < start && i <= |rows| <= |signals|
    ensures W.Coherent(s)
  {
    if i <= start then SpotAccount.Start(capital)
    else Bar(p, rows, signals, Before(p, rows, signals, capital, start, i - 1), i - 1)
  }

  // ------------------------------------------------------------- soundness

  lemma BuyIsSound(p: Policy, bar: T.Bar, signal: Signal, s: Sim, i: nat, capital: real)
    requires p.rules.step > 0.0 && s.entry == None && Sound(s, capital)
    ensures Sound(BuyAt(p, bar, signal, s, i), capital)
  {
    hide W.Up, Units, Scale, Notional;
    var b := BuyAt(p, bar, signal, s, i);
    if b.entry.Some? {
      EnterIsSound(s, b.entry.value, FEE, p.rules, capital);
    }
  }

  lemma CloseAtIsSound(p: Policy, s: Sim, i: nat, level: real, why: string, capital: real)
    requires ValidPolicy(p) && s.entry.Some? && Sound(s, capital)
    ensures Sound(CloseAt(p, s, i, level, why), capital)
  {
    CloseIsSound(s, i, W.Down(level, p.slip), why, FEE, p.rules, "EXIT_BELOW_MINIMUM", capital);
  }

  lemma BarIsSound(p: Policy, rows: seq<Row>, signals: seq<Option<Signal>>, s: Sim, i: nat, capital: real)
    requires 0 < i < |rows| <= |signals| && ValidPolicy(p) && W.ValidRows(rows) && W.Coherent(s) && Sound(s, capital)
    ensures Sound(Bar(p, rows, signals, s, i), capital)
  {
    hide Sound, BuyAt, CloseAt, Mark, OpenExit;
    var bar, signal := rows[i].bar, signals[i - 1];
    if s.quantity > 0.0 {
      forall level, why { CloseAtIsSound(p, s, i, level, why, capital); }
    } else if signal.Some? && signal.value.side == BUY {
      BuyIsSound(p, bar, signal.value, s, i, capital);
      var b := BuyAt(p, bar, signal.value, s, i);
      if b.entry.Some? {
        forall level, why { CloseAtIsSound(p, b, i, level, why, capital); }
      }
    }
    ActCoherent(p, bar, signal, s, i);
    assert bar.close > 0.0;
    MarkIsSound(Act(p, bar, signal, s, i), bar.close, capital);
  }

  lemma {:induction false} AlwaysSound(p: Policy, rows: seq<Row>, signals: seq<Option<Signal>>, capital: real,
                                       start: nat, i: nat)
    requires ValidPolicy(p) && W.ValidRows(rows) && capital > 0.0 && 0 < start && i <= |rows| <= |signals|
    ensures Sound(Before(p, rows, signals, capital, start, i), capital)
  {
    hide Sound, Bar, W.ValidRows;
    if i <= start {
      StartIsSound(capital);
    } else {
      AlwaysSound(p, rows, signals, capital, start, i - 1);
      BarIsSound(p, rows, signals, Before(p, rows, signals, capital, start, i - 1), i - 1, capital);
    }
  }

  // ------------------------------------------------------ exits and levels

  lemma BuyIsLeveled(p: Policy, bar: T.Bar, signal: Signal, s: Sim, i: nat)
    requires p.rules.step > 0.0 && s.entry == None && W.Leveled(s, p.slip)
    ensures var b := BuyAt(p, bar, signal, s, i);
            && W.Leveled(b, p.slip)
            && (b.entry.Some? ==>
                var e := b.entry.value;
                e.target - e.price == 3.0 * (e.price - e.stop))
  {
    hide W.Up, W.Down, Units, Notional, Scale, TradePnl;
  }

  lemma CloseAtIsLeveled(p: Policy, s: Sim, i: nat, level: real, why: string)
    requires 0.0 <= p.slip < 1.0 && s.entry.Some? && W.Leveled(s, p.slip)
    requires level <= s.entry.value.target && (!W.GapStop(why) ==> level >= s.entry.value.stop)
    ensures W.Leveled(CloseAt(p, s, i, level, why), p.slip)
  {
    W.CloseIsLeveled(s, i, level, why, p.slip, FEE, p.rules, "EXIT_BELOW_MINIMUM");
  }

  lemma OpeningIsLeveled(p: Policy, bar: T.Bar, signal: Option<Signal>, s: Sim, i: nat)
    requires p.rules.step > 0.0 && 0.0 <= p.slip < 1.0 && W.Coherent(s) && W.Leveled(s, p.slip)
    ensures W.Leveled(Opening(p, bar, signal, s, i).0, p.slip)
  {
    hide BuyAt, CloseAt, W.Down;
    if s.quantity > 0.0 {
      var exit := OpenExit(bar, signal, s.entry.value);
      if exit.Some? { CloseAtIsLeveled(p, s, i, exit.value.0, exit.value.1); }
    } else if signal.Some? && signal.value.side == BUY {
      BuyIsLeveled(p, bar, signal.value, s, i);
      var b := BuyAt(p, bar, signal.value, s, i);
      if b.entry.Some? && bar.open <= b.entry.value.stop { CloseAtIsLeveled(p, b, i, bar.open, "ENTRY_GAP_STOP"); }
    }
  }

  lemma IntrabarIsLeveled(p: Policy, bar: T.Bar, s: Sim, i: nat)
    requires 0.0 <= p.slip < 1.0 && W.Leveled(s, p.slip)
    ensures W.Leveled(Intrabar(p, bar, s, i), p.slip)
  {
    hide CloseAt;
    if s.entry.Some? {
      var exit := T.Named(T.IntrabarTrigger(bar, s.entry.value.stop, s.entry.value.target));
      if exit.Some? { CloseAtIsLeveled(p, s, i, exit.value.0, exit.value.1); }
    }
  }

  lemma BarIsLeveled(p: Policy, rows: seq<Row>, signals: seq<Option<Signal>>, s: Sim, i: nat)
    requires 0 < i < |rows| <= |signals| && ValidPolicy(p) && W.Coherent(s) && W.Leveled(s, p.slip)
    ensures W.Leveled(Bar(p, rows, signals, s, i), p.slip)
  {
    hide Opening, Intrabar, Mark, W.Leveled;
    var bar, signal := rows[i].bar, signals[i - 1];
    OpeningIsLeveled(p, bar, signal, s, i);
    IntrabarIsLeveled(p, bar, Opening(p, bar, signal, s, i).0, i);
    ActCoherent(p, bar, signal, s, i);
    W.MarkIsLeveled(Act(p, bar, signal, s, i), bar.close, p.slip);
  }

  /** In every run each entry lies strictly between its levels and each trade exits within them. */
  lemma {:induction false} AlwaysWithinLevels(p: Policy, rows: seq<Row>, signals: seq<Option<Signal>>,
                                              capital: real, start: nat, i: nat)
    requires ValidPolicy(p) && capital > 0.0 && 0 < start && i <= |rows| <= |signals|
    ensures W.Leveled(Before(p, rows, signals, capital, start, i), p.slip)
  {
    hide Bar, W.Leveled;
    if i <= start {
      W.StartIsLeveled(capital, p.slip);
    } else {
      AlwaysWithinLevels(p, rows, signals, capital, start, i - 1);
      BarIsLeveled(p, rows, signals, Before(p, rows, signals, capital, start, i - 1), i - 1);
    }
  }

  /** In every run each closed trade's P&L is bounded by its levels. */
  lemma EveryTradeIsBounded(p: Policy, rows: seq<Row>, signals: seq<Option<Signal>>, capital: real, start: nat, i: nat)
    requires ValidPolicy(p) && capital > 0.0 && 0 < start && i <= |rows| <= |signals|
    ensures forall t :: t in Before(p, rows, signals, capital, start, i).trades ==> W.Bounded(t, p.slip)
  {
    AlwaysWithinLevels(p, rows, signals, capital, start, i);
    hide Before, W.Bounded, W.WithinLevels, W.Bracketed, TradePnl;
    forall t | t in Before(p, rows, signals, capital, start, i).trades ensures W.Bounded(t, p.slip) {
      W.TradeIsBounded(t, p.slip);
    }
  }

  lemma FitsQuotient(n: real, d: real, u: real)
    requires d > 0.0 && u <= n / d
    ensures Notional(u, d) <= n
  {
    QuotientBetween(n, d, u, u);
  }

  lemma UnitsAreBounded(p: Policy, cash: real, distance: real, price: real)
    requires distance > 0.0 && price > 0.0 && p.rules.step > 0.0
    ensures var u := Units(p, cash, distance, price);
            u > 0.0 ==>
              && Notional(u, distance) <= cash * 0.01 && Notional(u, price) <= cash * 0.2
              && u <= p.rules.maximumQuantity
  {
    var u := Units(p, cash, distance, price);
    var raw := Min(Min(cash * 0.01 / distance, cash * 0.2 / price),
                   Min(cash / W.Up(price, FEE), p.rules.maximumQuantity));
    hide Notional, W.Up;
    if u > 0.0 {
      StepsRoundDown(raw, p.rules.step);
      hide WholeSteps;
      FitsQuotient(cash * 0.01, distance, u);
      FitsQuotient(cash * 0.2, price, u);
    }
  }

  /** A breakout entry risks at most one percent of the cash over its stop distance and invests at
      most a fifth of it. */
  lemma EntryRisksOnePercent(p: Policy, bar: T.Bar, signal: Signal, s: Sim, i: nat)
    requires ValidPolicy(p) && s.entry == None && s.cash > 0.0 && BuyAt(p, bar, signal, s, i).entry.Some?
    ensures var e := BuyAt(p, bar, signal, s, i).entry.value;
            && Notional(e.quantity, e.price - e.stop) <= s.cash * 0.01
            && Notional(e.quantity, e.price) <= s.cash * 0.2
            && e.quantity <= p.rules.maximumQuantity
  {
    var price, distance := W.Up(bar.open, p.slip), signal.atr * 2.0;
    hide Units, W.Up, Scale, Notional;
    UnitsAreBounded(p, s.cash, distance, price);
    assert BuyAt(p, bar, signal, s, i).entry.value.quantity == Units(p, s.cash, distance, price);
  }

  // ---------------------------------------------------------- the simulator

  method ActOn(a: Account, p: Policy, bar: T.Bar, signal: Option<Signal>, i: nat)
    requires W.Coherent(a.View()) && p.rules.step > 0.0
    modifies a
    ensures a.View() == Act(p, bar, signal, old(a.View()), i)
  {
    hide Opening, Intrabar;
    var attempted := OpenOn(a, p, bar, signal, i);
    if a.quantity > 0.0 && !attempted { CloseOn(a, p, bar, i); }
  }

  /** A held position closes at the stop or the target that the bar touches, the stop first. */
  method CloseOn(a: Account, p: Policy, bar: T.Bar, i: nat)
    requires a.entry.Some?
    modifies a
    ensures a.View() == Intrabar(p, bar, old(a.View()), i)
  {
    hide Close, W.Down;
    var e := a.entry.value;
    var stop, target := bar.low <= e.stop, bar.high >= e.target;
    if stop || target {
      a.Sell(i, W.Down(if stop then e.stop else e.target, p.slip),
             if stop && target then "BOTH_TOUCHED_STOP_FIRST" else if stop then "STOP" else "TARGET",
             FEE, p.rules, "EXIT_BELOW_MINIMUM");
    }
  }

  /** The opening of a bar: an exit of what is held, or an entry. */
  method OpenOn(a: Account, p: Policy, bar: T.Bar, signal: Option<Signal>, i: nat) returns (attempted: bool)
    requires W.Coherent(a.View()) && p.rules.step > 0.0
    modifies a
    ensures (a.View(), attempted) == Opening(p, bar, signal, old(a.View()), i)
    ensures W.Coherent(a.View())
  {
    hide BuyAt, Notional, Scale, Units, TradePnl;
    attempted := false;
    if a.quantity > 0.0 {
      var exit := OpenExit(bar, signal, a.entry.value);
      if exit.Some? {
        a.Sell(i, W.Down(exit.value.0, p.slip), exit.value.1, FEE, p.rules, "EXIT_BELOW_MINIMUM");
        attempted := true;
      }
    } else if signal.Some? && signal.value.side == BUY {
      attempted := BuyOn(a, p, bar, signal.value, i);
    }
  }

  method BuyOn(a: Account, p: Policy, bar: T.Bar, signal: Signal, i: nat) returns (attempted: bool)
    requires W.Coherent(a.View()) && p.rules.step > 0.0 && a.entry == None && a.quantity == 0.0 && signal.side == BUY
    modifies a
    ensures (a.View(), attempted) == Opening(p, bar, Some(signal), old(a.View()), i)
    ensures W.Coherent(a.View())
  {
    hide Notional, Scale, Units, TradePnl;
    attempted := false;
    BuyCoherent(p, bar, signal, a.View(), i);
    var price := W.Up(bar.open, p.slip);
    var distance := signal.atr * 2.0;
    if !(0.0 < distance < price) {
      a.Refuse("INVALID_STOP_DISTANCE");
      return;
    }
    var units := Units(p, a.cash, distance, price);
    if !Affordable(a.cash, units, price, FEE, p.rules) {
      a.Refuse("ENTRY_SIZE_OR_CASH");
      return;
    }
    a.Buy(Entry(i, price, Scale(Notional(units, price), FEE), units, price - distance, price + 3.0 * distance,
                "SPOT_BREAKOUT_15M_V1"));
    if bar.open <= a.entry.value.stop {
      a.Sell(i, W.Down(bar.open, p.slip), "ENTRY_GAP_STOP", FEE, p.rules, "EXIT_BELOW_MINIMUM");
      attempted := true;
    }
  }

  method Simulate(p: Policy, rows: seq<Row>, signals: seq<Option<Signal>>, capital: real,
                  start: nat) returns (a: Account)
    requires ValidPolicy(p) && W.ValidRows(rows) && capital > 0.0 && 0 < start <= |rows| <= |signals|
    ensures fresh(a) && a.View() == Before(p, rows, signals, capital, start, |rows|)
  {
    hide Act, W.ValidRows;
    a := new Account(capital);
    for i := start to |rows|
      invariant fresh(a) && a.View() == Before(p, rows, signals, capital, start, i)
    {
      ActCoherent(p, rows[i].bar, signals[i - 1], a.View(), i);
      ActOn(a, p, rows[i].bar, signals[i - 1], i);
      a.MarkClose(rows[i].bar.close);
    }
  }

  // ---------------------------------------------------------- no look-ahead

  /** A decision at the last row of a complete candle, from the 200 candles that end with it. */
  ghost function DecisionAt(rows: seq<Row>, origin: nat, oracle: seq<Row> -> Signal, i: int): Option<Signal> {
    var j := F.CandleAt(|rows|, origin, i);
    if j >= W.WARMUP - 1 then Some(oracle(F.Slices(rows, origin, j + 1)[j - W.WARMUP + 1..])) else None
  }

  ghost function DecisionsOf(rows: seq<Row>, origin: nat, oracle: seq<Row> -> Signal): (s: seq<Option<Signal>>)
    ensures |s| == |rows|
  {
    seq(|rows|, i => DecisionAt(rows, origin, oracle, i))
  }

  /** The averages and the range that the rule reads off its candles. */
  datatype Indicators = Indicators(fast: seq<Row> -> real, slow: seq<Row> -> real, atr: seq<Row> -> real)

  const LOOKBACK := 20

  /** The candles before the last, as far back as the breakout looks. */
  function Prior(window: seq<Row>): seq<Row>
    requires |window| > LOOKBACK
  {
    window[|window| - 1 - LOOKBACK..|window| - 1]
  }

  function Volume(rows: seq<Row>): real {
    if rows == [] then 0.0 else Volume(rows[..|rows| - 1]) + rows[|rows| - 1].volume
  }

  predicate AboveAll(close: real, rows: seq<Row>) {
    forall i :: 0 <= i < |rows| ==> close > rows[i].bar.high
  }

  /** The rule: SELL below the fast average; BUY on a close above every prior high, with the fast
      average above the slow one and at least one and a half times the mean prior volume. */
  function RuleOn(window: seq<Row>, ind: Indicators): Signal
    requires |window| > LOOKBACK
  {
    var current, prior := window[|window| - 1], Prior(window);
    var mean := Volume(prior) / LOOKBACK as real;
    var buy := AboveAll(current.bar.close, prior) && ind.fast(window) > ind.slow(window)
               && mean > 0.0 && current.volume >= 1.5 * mean;
    Signal(if current.bar.close < ind.fast(window) then SELL else if buy then BUY else HOLD, ind.atr(window))
  }

  function Rule(ind: Indicators): seq<Row> -> Signal {
    (window: seq<Row>) => if |window| > LOOKBACK then RuleOn(window, ind) else Signal(HOLD, 0.0)
  }

  method Decide(window: seq<Row>, ind: Indicators) returns (signal: Signal)
    requires |window| > LOOKBACK
    ensures signal == RuleOn(window, ind)
  {
    var current, prior := window[|window| - 1], Prior(window);
    var highest, total := prior[0].bar.high, 0.0;
    for i := 0 to |prior|
      invariant total == Volume(prior[..i])
      invariant highest in {prior[0].bar.high} + set k | 0 <= k < i :: prior[k].bar.high
      invariant prior[0].bar.high <= highest && forall k :: 0 <= k < i ==> prior[k].bar.high <= highest
    {
      total := total + prior[i].volume;
      highest := Max(highest, prior[i].bar.high);
      assert prior[..i + 1][..i] == prior[..i];
    }
    assert prior[..|prior|] == prior;
    var mean := total / LOOKBACK as real;
    var fast := ind.fast(window);
    var buy := current.bar.close > highest && fast > ind.slow(window) && mean > 0.0 && current.volume >= 1.5 * mean;
    assert current.bar.close > highest <==> AboveAll(current.bar.close, prior);
    signal := Signal(if current.bar.close < fast then SELL else if buy then BUY else HOLD, ind.atr(window));
  }

  method Decisions(rows: seq<Row>, ind: Indicators, ghost origin: nat) returns (signals: array?<Option<Signal>>)
    requires F.Contiguous(rows, origin)
    ensures signals == null <==> F.Complete(|rows|, origin) == 0
    ensures signals != null ==> fresh(signals) && signals[..] == DecisionsOf(rows, origin, Rule(ind))
  {
    hide RuleOn;
    var grouped := F.AggregateFifteen(rows, origin);
    if grouped.Error? { return null; }
    var (bars, indices) := grouped.value;
    ghost var n := |rows|;
    signals := new Option<Signal>[|rows|](_ => None);
    var j := W.WARMUP - 1;
    while j < |bars|
      invariant W.WARMUP - 1 <= j
      invariant forall i :: 0 <= i < n ==>
        signals[i] == if F.CandleAt(n, origin, i) < j then DecisionAt(rows, origin, Rule(ind), i) else None
    {
      F.CandleOfLast(n, origin, j);
      var window := bars[j - W.WARMUP + 1..j + 1];
      F.SlicesPrefix(rows, origin, j + 1, |bars|);
      assert window == bars[..j + 1][j - W.WARMUP + 1..];
      var signal := Decide(window, ind);
      assert signal == Rule(ind)(window);
      signals[indices[j]] := Some(signal);
      j := j + 1;
    }
  }

  /** A decision means what it says of its candles. */
  lemma RuleMeans(window: seq<Row>, ind: Indicators)
    requires |window| > LOOKBACK
    ensures var current, signal := window[|window| - 1], RuleOn(window, ind);
      && (signal.side == SELL <==> current.bar.close < ind.fast(window))
      && (signal.side == BUY <==>
          && current.bar.close >= ind.fast(window) > ind.slow(window)
          && (forall k :: |window| - 1 - LOOKBACK <= k < |window| - 1 ==> current.bar.close > window[k].bar.high)
          && Volume(Prior(window)) > 0.0 && 40.0 * current.volume >= 3.0 * Volume(Prior(window)))
  {
    var prior := Prior(window);
    assert forall i :: 0 <= i < LOOKBACK ==> prior[i] == window[|window| - 1 - LOOKBACK + i];
    assert Volume(prior) / LOOKBACK as real == Volume(prior) / 20.0;
    if RuleOn(window, ind).side == BUY {
      forall k | |window| - 1 - LOOKBACK <= k < |window| - 1
        ensures window[|window| - 1].bar.close > window[k].bar.high
      {
        assert window[k] == prior[k - (|window| - 1 - LOOKBACK)];
      }
    }
  }

  lemma DecisionsAgree(rows1: seq<Row>, rows2: seq<Row>, origin: nat, oracle: seq<Row> -> Signal, n: nat, k: nat)
    requires n < |rows1| && n < |rows2| && rows1[..n + 1] == rows2[..n + 1] && k < n
    ensures DecisionAt(rows1, origin, oracle, k) == DecisionAt(rows2, origin, oracle, k)
  {
    F.SlicesAgree(rows1, rows2, origin, n, k);
  }

  /** Two histories that agree through bar `n` give the same account through bar `n`,
      candles and decisions included. */
  lemma {:induction false} NoLookAhead(p: Policy, rows1: seq<Row>, rows2: seq<Row>, origin: nat,
                                       oracle: seq<Row> -> Signal, capital: real, start: nat, n: nat)
    requires p.rules.step > 0.0 && capital > 0.0 && 0 < start
    requires n < |rows1| && n < |rows2| && rows1[..n + 1] == rows2[..n + 1]
    ensures Before(p, rows1, DecisionsOf(rows1, origin, oracle), capital, start, n + 1)
         == Before(p, rows2, DecisionsOf(rows2, origin, oracle), capital, start, n + 1)
  {
    hide Act, DecisionAt;
    if n + 1 > start {
      assert rows1[n] == rows1[..n + 1][n] && rows2[n] == rows2[..n + 1][n];
      if n > start {
        assert rows1[..n] == rows1[..n + 1][..n] && rows2[..n] == rows2[..n + 1][..n];
        NoLookAhead(p, rows1, rows2, origin, oracle, capital, start, n - 1);
      }
      DecisionsAgree(rows1, rows2, origin, oracle, n, n - 1);
    }
  }
}
