/** The Spot baseline: signals on completed bars, next-open fills, signal exits, and the
    walk-forward folds.  `oracle` stands for signal generation and routing of one window. */
module SpotWalkForward {
  import opened Wrappers
  import opened RealArith
  import opened PaperExecution
  import opened SpotAccount
  import T = Triggers

  const WARMUP := 200

  datatype Row = Row(stamp: int, bar: T.Bar, volume: real)

  datatype Signal = Signal(side: Decision, strength: real, blocked: bool, route: string)

  /** Settings of one scenario; `fee` and `slip` are rates per leg. */
  datatype Config = Config(minimumStrength: real, sizing: Sizing, rules: Rules, fee: real, slip: real,
                           round: real -> real)

  ghost predicate ValidConfig(c: Config) {
    && ValidRules(c.rules) && 0.0 <= c.fee < 1.0 && 0.0 <= c.slip < 1.0
    && c.sizing.riskPct > 0.0 && c.sizing.stopMultiplier > 0.0 && c.sizing.targetRr > 0.0
    && 0.0 < c.sizing.maxNotionalPct <= 100.0
  }

  ghost predicate ValidRows(rows: seq<Row>) {
    forall i :: 0 <= i < |rows| ==> T.ValidBar(rows[i].bar)
  }

  // --------------------------------------------------------------- signals

  /** The decision taken at the close of bar `i`, from the 200 bars that end with it. */
  function SignalAt(rows: seq<Row>, oracle: seq<Row> -> Signal, i: int): Option<Signal> {
    if WARMUP - 1 <= i < |rows| - 1 then Some(oracle(rows[i - WARMUP + 1..i + 1])) else None
  }

  ghost function SignalsOf(rows: seq<Row>, oracle: seq<Row> -> Signal): (s: seq<Option<Signal>>)
    ensures |s| == |rows|
  {
    seq(|rows|, i => SignalAt(rows, oracle, i))
  }

  method Signals(rows: seq<Row>, oracle: seq<Row> -> Signal) returns (signals: array<Option<Signal>>)
    ensures fresh(signals) && signals[..] == SignalsOf(rows, oracle)
  {
    signals := new Option<Signal>[|rows|](_ => None);
    var i := WARMUP - 1;
    while i < |rows| - 1
      invariant WARMUP - 1 <= i
      invariant forall k :: 0 <= k < |rows| ==> signals[k] == if k < i then SignalAt(rows, oracle, k) else None
    {
      var window := rows[i - WARMUP + 1..i + 1];
      signals[i] := Some(oracle(window));
      i := i + 1;
    }
  }

  // --------------------------------------------------------------- one bar

  predicate Coherent(s: Sim) {
    s.peak > 0.0 && s.quantity >= 0.0 && (s.quantity > 0.0 <==> s.entry.Some?)
  }

  predicate Eligible(signal: Option<Signal>, c: Config) {
    signal.Some? && !signal.value.blocked && signal.value.strength >= c.minimumStrength
  }

  function Up(price: real, rate: real): real {
    price * (1.0 + rate)
  }

  function Down(price: real, rate: real): real {
    price * (1.0 - rate)
  }

  /** The sizing call shared by the baseline and the ATR variant: previous close, all cash,
      no measured range. */
  function PlanFor(c: Config, close: real, cash: real): Result<Plan, string> {
    BuildExecutionPlan(BUY, close, cash, cash, None, c.sizing, c.round)
  }

  function Units(c: Config, plan: Plan): real
    requires c.rules.step > 0.0
  {
    WholeSteps(plan.quantity, c.rules.step)
  }

  predicate Fits(c: Config, cash: real, units: real, price: real) {
    units <= c.rules.maximumQuantity && Affordable(cash, units, price, c.fee, c.rules)
  }

  function Fill(c: Config, s: Sim, i: int, units: real, price: real, stop: real, target: real, route: string): Sim {
    if Fits(c, s.cash, units, price) then
      Enter(s, Entry(i, price, Scale(Notional(units, price), c.fee), units, stop, target, route))
    else Block(s, "ENTRY_SIZE_OR_CASH")
  }

  function Act(c: Config, rows: seq<Row>, signal: Option<Signal>, s: Sim, i: nat): Sim
    requires 0 < i < |rows| && Coherent(s) && c.rules.step > 0.0
  {
    if !Eligible(signal, c) then s
    else if signal.value.side == BUY && s.quantity == 0.0 then
      var plan := PlanFor(c, rows[i - 1].bar.close, s.cash);
      if plan.Error? then s
      else Fill(c, s, i, Units(c, plan.value), Up(rows[i].bar.open, c.slip), 0.0, 0.0, signal.value.route)
    else if signal.value.side == SELL && s.quantity > 0.0 then
      Close(s, i, Down(rows[i].bar.open, c.slip), "SIGNAL", c.fee, c.rules, "EXIT_DUST")
    else s
  }

  lemma ActCoherent(c: Config, rows: seq<Row>, signal: Option<Signal>, s: Sim, i: nat)
    requires 0 < i < |rows| && Coherent(s) && c.rules.step > 0.0
    ensures Coherent(Act(c, rows, signal, s, i))
  {
  }

  function Bar(c: Config, rows: seq<Row>, signals: seq<Option<Signal>>, s: Sim, i: nat): (r: Sim)
    requires 0 < i < |rows| <= |signals| && Coherent(s) && c.rules.step > 0.0
    ensures Coherent(r)
  {
    ActCoherent(c, rows, signals[i - 1], s, i);
    Mark(Act(c, rows, signals[i - 1], s, i), rows[i].bar.close)
  }

  /** The state before bar `i` of a run that starts at bar `start`. */
  ghost function Before(c: Config, rows: seq<Row>, signals: seq<Option<Signal>>, capital: real, start: nat,
                        i: nat): (s: Sim)
    requires c.rules.step > 0.0 && capital > 0.0 && 0 < start && i <= |rows| <= |signals|
    ensures Coherent(s)
  {
    if i <= start then SpotAccount.Start(capital)
    else Bar(c, rows, signals, Before(c, rows, signals, capital, start, i - 1), i - 1)
  }

  // ------------------------------------------------------------- soundness

  lemma ActIsSound(c: Config, rows: seq<Row>, signal: Option<Signal>, s: Sim, i: nat, capital: real)
    requires 0 < i < |rows| && ValidConfig(c) && Coherent(s) && Sound(s, capital)
    ensures Sound(Act(c, rows, signal, s, i), capital)
  {
    hide Sound, Notional, Scale, PlanFor, Units;
    assert (s.entry == None) == (s.quantity == 0.0);
    if Eligible(signal, c) && signal.value.side == BUY && s.quantity == 0.0 {
      var plan := PlanFor(c, rows[i - 1].bar.close, s.cash);
      if plan.Ok? {
        var units, price := Units(c, plan.value), Up(rows[i].bar.open, c.slip);
        FillIsSound(c, s, i, units, price, 0.0, 0.0, signal.value.route, capital);
      }
    } else if Eligible(signal, c) && signal.value.side == SELL && s.quantity > 0.0 {
      CloseIsSound(s, i, Down(rows[i].bar.open, c.slip), "SIGNAL", c.fee, c.rules, "EXIT_DUST", capital);
    }
  }

  lemma FillIsSound(c: Config, s: Sim, i: int, units: real, price: real, stop: real, target: real, route: string,
                    capital: real)
    requires s.entry == None && Sound(s, capital)
    ensures Sound(Fill(c, s, i, units, price, stop, target, route), capital)
  {
    if Fits(c, s.cash, units, price) {
      var e := Entry(i, price, Scale(Notional(units, price), c.fee), units, stop, target, route);
      EnterIsSound(s, e, c.fee, c.rules, capital);
    }
  }

  lemma BarIsSound(c: Config, rows: seq<Row>, signals: seq<Option<Signal>>, s: Sim, i: nat, capital: real)
    requires 0 < i < |rows| <= |signals| && ValidConfig(c) && ValidRows(rows) && Coherent(s) && Sound(s, capital)
    ensures Sound(Bar(c, rows, signals, s, i), capital)
  {
    hide Sound, Act, Mark;
    ActIsSound(c, rows, signals[i - 1], s, i, capital);
    ActCoherent(c, rows, signals[i - 1], s, i);
    assert rows[i].bar.close > 0.0;
    MarkIsSound(Act(c, rows, signals[i - 1], s, i), rows[i].bar.close, capital);
  }

  /** After every bar of every run the account is sound: exact accounting, cash never
      negative, cash positive when flat, peak and drawdown those of the whole curve. */
  lemma {:induction false} AlwaysSound(c: Config, rows: seq<Row>, signals: seq<Option<Signal>>, capital: real,
                                       start: nat, i: nat)
    requires ValidConfig(c) && ValidRows(rows) && capital > 0.0 && 0 < start && i <= |rows| <= |signals|
    ensures Sound(Before(c, rows, signals, capital, start, i), capital)
  {
    hide Sound, Bar, ValidRows;
    if i <= start {
      StartIsSound(capital);
    } else {
      AlwaysSound(c, rows, signals, capital, start, i - 1);
      BarIsSound(c, rows, signals, Before(c, rows, signals, capital, start, i - 1), i - 1, capital);
    }
  }

  /** The sizing call of a flat sound account never raises. */
  lemma SizingNeverRaises(c: Config, s: Sim, close: real, capital: real)
    requires ValidConfig(c) && Sound(s, capital) && s.entry == None && close > 0.0
    ensures PlanFor(c, close, s.cash).Ok?
  {
    PlanSucceedsIff(BUY, close, s.cash, s.cash, None, c.sizing, c.round);
  }

  // ---------------------------------------------------------- the simulator

  /** What happens at the opening of bar `i`, in place. */
  method ActOn(a: Account, c: Config, rows: seq<Row>, signal: Option<Signal>, i: nat, ghost capital: real)
    requires 0 < i < |rows| && ValidConfig(c) && ValidRows(rows) && Coherent(a.View()) && Sound(a.View(), capital)
    modifies a
    ensures a.View() == Act(c, rows, signal, old(a.View()), i)
  {
    hide Sound, Notional, Scale, Fits, Coherent, Units;
    assert (a.quantity > 0.0 <==> a.entry.Some?) && a.quantity >= 0.0 by { CoherentMeans(a.View()); }
    if signal.Some? && !signal.value.blocked && signal.value.strength >= c.minimumStrength {
      if signal.value.side == BUY && a.quantity == 0.0 {
        var price := Up(rows[i].bar.open, c.slip);
        SizingNeverRaises(c, a.View(), rows[i - 1].bar.close, capital);
        var plan := PlanFor(c, rows[i - 1].bar.close, a.cash).value;
        var units := Units(c, plan);
        if !Fits(c, a.cash, units, price) {
          a.Refuse("ENTRY_SIZE_OR_CASH");
        } else {
          a.Buy(Entry(i, price, Scale(Notional(units, price), c.fee), units, 0.0, 0.0, signal.value.route));
        }
      } else if signal.value.side == SELL && a.quantity > 0.0 {
        a.Sell(i, Down(rows[i].bar.open, c.slip), "SIGNAL", c.fee, c.rules, "EXIT_DUST");
      }
    }
  }

  lemma CoherentMeans(s: Sim)
    requires Coherent(s)
    ensures s.peak > 0.0 && s.quantity >= 0.0 && (s.quantity > 0.0 <==> s.entry.Some?)
  {
  }

  method Simulate(c: Config, rows: seq<Row>, signals: seq<Option<Signal>>, capital: real, start: nat, end: nat)
    returns (a: Account)
    requires ValidConfig(c) && ValidRows(rows) && capital > 0.0 && 0 < start <= end <= |rows| <= |signals|
    ensures fresh(a) && a.View() == Before(c, rows, signals, capital, start, end)
  {
    hide Sound, Act, ValidRows;
    a := new Account(capital);
    for i := start to end
      invariant fresh(a) && a.View() == Before(c, rows, signals, capital, start, i)
    {
      AlwaysSound(c, rows, signals, capital, start, i);
      ActCoherent(c, rows, signals[i - 1], a.View(), i);
      ActOn(a, c, rows, signals[i - 1], i, capital);
      a.MarkClose(rows[i].bar.close);
    }
  }

  // ---------------------------------------------------------- no look-ahead

  lemma SliceOfPrefix<T>(s: seq<T>, lo: nat, hi: nat, m: nat)
    requires lo <= hi <= m <= |s|
    ensures s[lo..hi] == s[..m][lo..hi]
  {
  }

  lemma SignalsAgree(rows1: seq<Row>, rows2: seq<Row>, oracle: seq<Row> -> Signal, n: nat, k: nat)
    requires n < |rows1| && n < |rows2| && rows1[..n + 1] == rows2[..n + 1] && k < n
    ensures SignalsOf(rows1, oracle)[k] == SignalsOf(rows2, oracle)[k]
  {
    if k >= WARMUP - 1 {
      SliceOfPrefix(rows1, k - WARMUP + 1, k + 1, n + 1);
      SliceOfPrefix(rows2, k - WARMUP + 1, k + 1, n + 1);
    }
  }

  /** Bars through `n` and decisions before `n` determine the account through bar `n`. */
  lemma {:induction false} SameBarsSameAccount(c: Config, rows1: seq<Row>, rows2: seq<Row>,
                                               signals1: seq<Option<Signal>>, signals2: seq<Option<Signal>>,
                                               capital: real, start: nat, n: nat)
    requires c.rules.step > 0.0 && capital > 0.0 && 0 < start
    requires n < |rows1| <= |signals1| && n < |rows2| <= |signals2|
    requires forall k :: 0 <= k <= n ==> rows1[k] == rows2[k]
    requires forall k :: 0 <= k < n ==> signals1[k] == signals2[k]
    ensures Before(c, rows1, signals1, capital, start, n + 1) == Before(c, rows2, signals2, capital, start, n + 1)
  {
    if n + 1 > start {
      if n > start {
        SameBarsSameAccount(c, rows1, rows2, signals1, signals2, capital, start, n - 1);
      }
      ActReadsTwoBars(c, rows1, rows2, signals1[n - 1], Before(c, rows1, signals1, capital, start, n), n);
    }
  }

  /** Two histories that agree through bar `n` give the same account through bar `n`:
      the same trades, blockers and equity curve, signals included. */
  lemma NoLookAhead(c: Config, rows1: seq<Row>, rows2: seq<Row>, oracle: seq<Row> -> Signal,
                    capital: real, start: nat, n: nat)
    requires c.rules.step > 0.0 && capital > 0.0 && 0 < start
    requires n < |rows1| && n < |rows2| && rows1[..n + 1] == rows2[..n + 1]
    ensures Before(c, rows1, SignalsOf(rows1, oracle), capital, start, n + 1)
         == Before(c, rows2, SignalsOf(rows2, oracle), capital, start, n + 1)
  {
    hide Before;
    forall k | 0 <= k <= n ensures rows1[k] == rows2[k] {
      assert rows1[k] == rows1[..n + 1][k] && rows2[k] == rows2[..n + 1][k];
    }
    forall k | 0 <= k < n ensures SignalsOf(rows1, oracle)[k] == SignalsOf(rows2, oracle)[k] {
      SignalsAgree(rows1, rows2, oracle, n, k);
    }
    SameBarsSameAccount(c, rows1, rows2, SignalsOf(rows1, oracle), SignalsOf(rows2, oracle), capital, start, n);
  }

  lemma ActReadsTwoBars(c: Config, rows1: seq<Row>, rows2: seq<Row>, signal: Option<Signal>, s: Sim, i: nat)
    requires 0 < i < |rows1| && i < |rows2| && Coherent(s) && c.rules.step > 0.0
    requires rows1[i] == rows2[i] && rows1[i - 1] == rows2[i - 1]
    ensures Act(c, rows1, signal, s, i) == Act(c, rows2, signal, s, i)
  {
    hide Notional, Scale, Up, Down, PlanFor, Units, Fill, Close;
  }

  /** A training fold depends only on the bars before its fold begins. */
  lemma TrainingUsesOnlyEarlierBars(c: Config, rows: seq<Row>, oracle: seq<Row> -> Signal, capital: real,
                                    trainBars: nat, foldStart: nat)
    requires c.rules.step > 0.0 && capital > 0.0 && 0 < trainBars < foldStart <= |rows|
    ensures Before(c, rows, SignalsOf(rows, oracle), capital, foldStart - trainBars, foldStart)
         == Before(c, rows[..foldStart], SignalsOf(rows[..foldStart], oracle), capital, foldStart - trainBars,
                   foldStart)
  {
    hide SignalsOf, SignalAt, Bar, Before;
    assert rows[..foldStart][..foldStart] == rows[..foldStart];
    NoLookAhead(c, rows, rows[..foldStart], oracle, capital, foldStart - trainBars, foldStart - 1);
  }

  // ----------------------------------------------------------------- folds

  function ClosedWithin(trades: seq<Trade>, lo: int, hi: int): seq<Trade> {
    if trades == [] then []
    else if lo <= trades[0].exitIndex < hi then [trades[0]] + ClosedWithin(trades[1..], lo, hi)
    else ClosedWithin(trades[1..], lo, hi)
  }

  ghost predicate InOrder(trades: seq<Trade>, lo: int, hi: int) {
    && (forall i :: 0 <= i < |trades| ==> lo <= trades[i].exitIndex < hi)
    && (forall i, j :: 0 <= i < j < |trades| ==> trades[i].exitIndex < trades[j].exitIndex)
  }

  ghost function Flatten(folds: seq<seq<Trade>>): seq<Trade> {
    if folds == [] then [] else Flatten(folds[..|folds| - 1]) + folds[|folds| - 1]
  }

  lemma {:induction false} WithinAll(trades: seq<Trade>, lo: int, hi: int)
    requires InOrder(trades, lo, hi)
    ensures ClosedWithin(trades, lo, hi) == trades
  {
    if trades != [] {
      assert InOrder(trades[1..], lo, hi);
      WithinAll(trades[1..], lo, hi);
    }
  }

  lemma {:induction false} WithinNone(trades: seq<Trade>, lo: int, mid: int)
    requires forall i :: 0 <= i < |trades| ==> trades[i].exitIndex >= mid
    ensures ClosedWithin(trades, lo, mid) == []
  {
    if trades != [] { WithinNone(trades[1..], lo, mid); }
  }

  ghost predicate Ascending(trades: seq<Trade>) {
    forall i, j :: 0 <= i < j < |trades| ==> trades[i].exitIndex < trades[j].exitIndex
  }

  lemma {:induction false} WithinSplits(trades: seq<Trade>, lo: int, mid: int, hi: int)
    requires lo <= mid <= hi && Ascending(trades)
    ensures ClosedWithin(trades, lo, hi) == ClosedWithin(trades, lo, mid) + ClosedWithin(trades, mid, hi)
  {
    if trades != [] {
      var x, rest := trades[0].exitIndex, trades[1..];
      assert Ascending(rest);
      WithinSplits(rest, lo, mid, hi);
      if mid <= x {
        WithinNone(rest, lo, mid);
        assert ClosedWithin(trades, lo, mid) == [];
      } else {
        assert ClosedWithin(trades, mid, hi) == ClosedWithin(rest, mid, hi);
      }
    }
  }

  /** First bar of fold `k`. */
  function FoldStart(firstTest: int, testBars: nat, k: nat): int {
    firstTest + k * testBars
  }

  lemma FoldStarts(firstTest: int, testBars: nat, k: nat)
    ensures FoldStart(firstTest, testBars, 0) == firstTest
    ensures FoldStart(firstTest, testBars, k + 1) == FoldStart(firstTest, testBars, k) + testBars
  {
  }

  ghost predicate IsFold(fold: seq<Trade>, trades: seq<Trade>, start: int, bars: int, testBars: nat) {
    fold == ClosedWithin(trades, start, MinInt(start + testBars, bars))
  }

  /** The validation folds: consecutive windows of `testBars` bars over one run's trades.
      Together they hold every closed trade exactly once, in order. */
  method ValidationFolds(trades: seq<Trade>, firstTest: int, bars: int, testBars: nat) returns (folds: seq<seq<Trade>>)
    requires testBars > 0 && firstTest <= bars && InOrder(trades, firstTest, bars)
    ensures Flatten(folds) == trades
    ensures forall k :: 0 <= k < |folds| ==>
      && firstTest <= FoldStart(firstTest, testBars, k) < bars
      && IsFold(folds[k], trades, FoldStart(firstTest, testBars, k), bars, testBars)
    ensures FoldStart(firstTest, testBars, |folds|) >= bars
  {
    hide FoldStart, ClosedWithin;
    folds := [];
    var start := firstTest;
    FoldStarts(firstTest, testBars, 0);
    WithinNone(trades, firstTest, firstTest);
    assert Ascending(trades);
    WithinAll(trades, firstTest, bars);
    hide InOrder, Ascending;
    while start < bars
      invariant firstTest <= start == FoldStart(firstTest, testBars, |folds|)
      invariant Flatten(folds) == ClosedWithin(trades, firstTest, MinInt(start, bars))
      invariant forall k :: 0 <= k < |folds| ==>
        && firstTest <= FoldStart(firstTest, testBars, k) < bars
        && IsFold(folds[k], trades, FoldStart(firstTest, testBars, k), bars, testBars)
      decreases bars - start
    {
      var end := MinInt(start + testBars, bars);
      var closed := ClosedWithin(trades, start, end);
      WithinSplits(trades, firstTest, start, end);
      FoldStarts(firstTest, testBars, |folds|);
      assert IsFold(closed, trades, start, bars, testBars);
      folds := folds + [closed];
      assert folds[..|folds| - 1] + [closed] == folds;
      start := start + testBars;
    }
  }

  lemma ActClosesAtMostOne(c: Config, rows: seq<Row>, signal: Option<Signal>, s: Sim, i: nat)
    requires 0 < i < |rows| && Coherent(s) && c.rules.step > 0.0
    ensures var t := Act(c, rows, signal, s, i).trades;
      t == s.trades || (|t| == |s.trades| + 1 && t[..|s.trades|] == s.trades && t[|s.trades|].exitIndex == i)
  {
    hide Notional, Scale, Up, Down, PlanFor, Units, Fits, TradePnl;
  }

  lemma OneMoreTrade(trades: seq<Trade>, more: seq<Trade>, lo: int, i: int)
    requires InOrder(trades, lo, i) && lo <= i
    requires more == trades
      || (|more| == |trades| + 1 && more[..|trades|] == trades && more[|trades|].exitIndex == i)
    ensures InOrder(more, lo, i + 1)
  {
    assert forall k :: 0 <= k < |trades| ==> more[k] == trades[k];
  }

  lemma NoTrades(lo: int)
    ensures InOrder([], lo, lo)
  {
  }

  lemma BarKeepsOrder(c: Config, rows: seq<Row>, signals: seq<Option<Signal>>, s: Sim, lo: int, i: nat)
    requires 0 < i < |rows| <= |signals| && Coherent(s) && c.rules.step > 0.0
    requires lo <= i && InOrder(s.trades, lo, i)
    ensures InOrder(Bar(c, rows, signals, s, i).trades, lo, i + 1)
  {
    hide Act, InOrder, Coherent, Equity;
    ActClosesAtMostOne(c, rows, signals[i - 1], s, i);
    OneMoreTrade(s.trades, Act(c, rows, signals[i - 1], s, i).trades, lo, i);
  }

  /** A run closes at most one trade per bar, so its trades are in exit order. */
  lemma {:induction false} TradesAreInOrder(c: Config, rows: seq<Row>, signals: seq<Option<Signal>>, capital: real,
                                            start: nat, i: nat)
    requires c.rules.step > 0.0 && capital > 0.0 && 0 < start <= i <= |rows| <= |signals|
    ensures InOrder(Before(c, rows, signals, capital, start, i).trades, start, i)
  {
    hide Bar, InOrder;
    if i > start {
      TradesAreInOrder(c, rows, signals, capital, start, i - 1);
      BarKeepsOrder(c, rows, signals, Before(c, rows, signals, capital, start, i - 1), start, i - 1);
    } else {
      NoTrades(start);
    }
  }

  /** The training runs: each ends where its fold begins. */
  method TrainingRuns(c: Config, rows: seq<Row>, signals: seq<Option<Signal>>, capital: real, first: nat,
                      trainBars: nat, testBars: nat, n: nat) returns (training: seq<Sim>)
    requires ValidConfig(c) && ValidRows(rows) && capital > 0.0 && |rows| <= |signals| && trainBars < first
    requires forall k :: 0 <= k < n ==> first <= FoldStart(first, testBars, k) < |rows|
    ensures |training| == n
    ensures forall k :: 0 <= k < n ==>
      var start := FoldStart(first, testBars, k);
      training[k] == Before(c, rows, signals, capital, start - trainBars, start)
  {
    hide ValidRows, ValidConfig, FoldStart, Before;
    ConfigHasStep(c);
    training := [];
    for k := 0 to n
      invariant |training| == k
      invariant forall j :: 0 <= j < k ==>
        var start := FoldStart(first, testBars, j);
        training[j] == Before(c, rows, signals, capital, start - trainBars, start)
    {
      var start := FoldStart(first, testBars, k);
      var t := Simulate(c, rows, signals, capital, start - trainBars, start);
      training := training + [t.View()];
    }
  }

  lemma ConfigHasStep(c: Config)
    requires ValidConfig(c)
    ensures c.rules.step > 0.0
  {
  }

  // ----------------------------------------------------- the whole report

  datatype Scenario = Scenario(run: Sim, folds: seq<seq<Trade>>, training: seq<Sim>)

  /** What the report demands of its settings, before any bar is simulated. */
  predicate ValidSettings(c: Config, bars: nat, capital: real, feeBps: real, cases: seq<real>, trainBars: int,
                          testBars: int)
  {
    && 0.0 < c.minimumStrength <= 100.0 && 0.0 < c.sizing.riskPct <= 100.0 && 0.0 < c.sizing.stopMultiplier
    && 0.0 < c.sizing.targetRr && 0.0 < c.sizing.maxNotionalPct <= 100.0
    && 0.0 < capital <= 1000000000.0 && 0.0 <= feeBps <= 100.0
    && 1 <= |cases| <= 5 && (forall i :: 0 <= i < |cases| ==> 0.0 <= cases[i] <= 100.0)
    && trainBars >= WARMUP && testBars >= 100 && bars >= WARMUP + trainBars + 2 * testBars
  }

  function At(c: Config, feeBps: real, slipBps: real): Config {
    c.(fee := feeBps / 10000.0, slip := slipBps / 10000.0)
  }

  /** A run over all test bars, folds that hold its trades once each, and training runs that end
      where their folds begin. */
  ghost predicate IsScenario(x: Scenario, c: Config, rows: seq<Row>, signals: seq<Option<Signal>>, capital: real,
                             trainBars: nat, testBars: nat)
    requires c.rules.step > 0.0 && capital > 0.0 && |rows| <= |signals|
    requires trainBars > 0 && testBars > 0 && WARMUP + trainBars <= |rows|
  {
    && x.run == Before(c, rows, signals, capital, WARMUP + trainBars, |rows|)
    && Flatten(x.folds) == x.run.trades && |x.training| == |x.folds|
    && forall k :: 0 <= k < |x.folds| ==>
      var start := FoldStart(WARMUP + trainBars, testBars, k);
      && WARMUP + trainBars <= start < |rows|
      && IsFold(x.folds[k], x.run.trades, start, |rows|, testBars)
      && x.training[k] == Before(c, rows, signals, capital, start - trainBars, start)
  }

  /** One scenario of the report, for one case of slippage. */
  method WalkForward(c: Config, rows: seq<Row>, signals: seq<Option<Signal>>, capital: real, trainBars: nat,
                     testBars: nat) returns (x: Scenario)
    requires ValidConfig(c) && ValidRows(rows) && c.rules.step > 0.0 && capital > 0.0 && |rows| <= |signals|
    requires trainBars > 0 && testBars > 0 && WARMUP + trainBars <= |rows|
    ensures IsScenario(x, c, rows, signals, capital, trainBars, testBars)
  {
    hide ValidRows, ValidConfig, Flatten, IsFold, InOrder, FoldStart, Before;
    var first := WARMUP + trainBars;
    var a := Simulate(c, rows, signals, capital, first, |rows|);
    var run := a.View();
    TradesAreInOrder(c, rows, signals, capital, first, |rows|);
    var folds := ValidationFolds(run.trades, first, |rows|, testBars);
    var training := TrainingRuns(c, rows, signals, capital, first, trainBars, testBars, |folds|);
    x := Scenario(run, folds, training);
  }

  lemma SettingsFit(c: Config, bars: nat, capital: real, feeBps: real, cases: seq<real>, trainBars: int, testBars: int,
                    i: nat)
    requires ValidRules(c.rules) && ValidSettings(c, bars, capital, feeBps, cases, trainBars, testBars) && i < |cases|
    ensures ValidConfig(At(c, feeBps, cases[i]))
  {
  }

  /** The report: refused exactly for settings outside their bounds, and otherwise one scenario for
      each case of slippage. */
  method Report(c: Config, rows: seq<Row>, oracle: seq<Row> -> Signal, capital: real, feeBps: real, cases: seq<real>,
                trainBars: int, testBars: int) returns (r: Result<seq<Scenario>, string>)
    requires ValidRules(c.rules) && ValidRows(rows)
    ensures r.Ok? <==> ValidSettings(c, |rows|, capital, feeBps, cases, trainBars, testBars)
    ensures r.Ok? ==> |r.value| == |cases| && forall i :: 0 <= i < |cases| ==>
      IsScenario(r.value[i], At(c, feeBps, cases[i]), rows, SignalsOf(rows, oracle), capital, trainBars, testBars)
  {
    if !ValidSettings(c, |rows|, capital, feeBps, cases, trainBars, testBars) {
      return Error("Insufficient history or invalid simulation assumptions");
    }
    hide ValidRows, ValidConfig, SignalsOf, IsScenario;
    var stream := Signals(rows, oracle);
    var signals := stream[..];
    var scenarios: seq<Scenario> := [];
    for i := 0 to |cases|
      invariant |scenarios| == i
      invariant forall j :: 0 <= j < i ==>
        IsScenario(scenarios[j], At(c, feeBps, cases[j]), rows, signals, capital, trainBars, testBars)
    {
      SettingsFit(c, |rows|, capital, feeBps, cases, trainBars, testBars, i);
      var x := WalkForward(At(c, feeBps, cases[i]), rows, signals, capital, trainBars, testBars);
      scenarios := scenarios + [x];
    }
    r := Ok(scenarios);
  }

  // -------------------------------------------- exits and their levels

  /** Entries of the two simulators that set levels. */
  ghost predicate Bracketed(e: Entry) {
    0.0 < e.stop < e.price < e.target && e.quantity > 0.0
  }

  predicate GapStop(why: string) {
    why in {"GAP_STOP", "ENTRY_GAP_STOP"}
  }

  /** Before slippage no exit is above its target, and only a gap is below its stop. */
  ghost predicate WithinLevels(t: Trade, slip: real) {
    && t.exitPrice <= Down(t.entry.target, slip)
    && (!GapStop(t.reason) ==> t.exitPrice >= Down(t.entry.stop, slip))
  }

  ghost predicate Leveled(s: Sim, slip: real) {
    && (s.entry.Some? ==> Bracketed(s.entry.value) && s.quantity == s.entry.value.quantity)
    && (forall t :: t in s.trades ==>
        Bracketed(t.entry) && WithinLevels(t, slip) && t.pnl == TradePnl(t.entry, t.exitPrice, t.exitFee))
  }

  lemma MarkIsLeveled(s: Sim, close: real, slip: real)
    requires Leveled(s, slip) && s.peak > 0.0
    ensures Leveled(Mark(s, close), slip)
  {
    hide Down, TradePnl;
  }

  lemma StartIsLeveled(capital: real, slip: real)
    ensures Leveled(SpotAccount.Start(capital), slip)
  {
  }

  lemma DownOrdered(a: real, b: real, slip: real)
    requires a <= b && 0.0 <= slip < 1.0
    ensures Down(a, slip) <= Down(b, slip)
  {
    Scaled(a, b, 1.0 - slip);
  }

  lemma CloseIsLeveled(s: Sim, index: int, level: real, why: string, slip: real, fee: real, r: Rules, dust: string)
    requires Leveled(s, slip) && s.entry.Some? && 0.0 <= slip < 1.0
    requires level <= s.entry.value.target && (!GapStop(why) ==> level >= s.entry.value.stop)
    ensures Leveled(Close(s, index, Down(level, slip), why, fee, r, dust), slip)
  {
    DownOrdered(level, s.entry.value.target, slip);
    if !GapStop(why) { DownOrdered(s.entry.value.stop, level, slip); }
    hide Down, Notional, Scale, TradePnl;
  }

  /** Gains at most the distance to its target and, gaps aside, loses at most the distance to its
      stop plus the slippage on the stop, both less fees. */
  ghost predicate Bounded(t: Trade, slip: real) {
    var e, fees := t.entry, t.entry.fee + t.exitFee;
    && t.pnl <= e.quantity * (e.target - e.price) - fees
    && (!GapStop(t.reason) ==> t.pnl >= -(e.quantity * (e.price - e.stop)) - e.quantity * (e.stop * slip) - fees)
  }

  /** So a trade gains at most the distance to its target and, gaps aside, loses at most the
      distance to its stop plus the slippage on the stop and both fees. */
  lemma TradeIsBounded(t: Trade, slip: real)
    requires Bracketed(t.entry) && WithinLevels(t, slip) && 0.0 <= slip < 1.0
    requires t.pnl == TradePnl(t.entry, t.exitPrice, t.exitFee)
    ensures Bounded(t, slip)
  {
    var e := t.entry;
    ProductSign(e.target, slip);
    Scaled(t.exitPrice - e.price, e.target - e.price, e.quantity);
    if !GapStop(t.reason) {
      var worst := e.stop * slip;
      assert Down(e.stop, slip) == e.stop - worst;
      Scaled(e.stop - worst - e.price, t.exitPrice - e.price, e.quantity);
      Distribute(e.stop - e.price, worst, e.quantity);
    }
  }
}
