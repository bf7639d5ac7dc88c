/** The long/short simulator on regular-hours bars: accounting, the loss bound of stop
    exits, and the intraday policy that is always flat. */
module IbkrBacktest {
  import opened Wrappers
  import opened RealArith
  import opened PaperExecution
  import T = Triggers

  const WARMUP := 200
  const ENTRY_CUTOFF := 900
  const SESSION_EXIT := 945
  const SIZING := PaperExecution.Sizing(1.0, 1.5, 2.0, 20.0)

  /** A regular-hours bar: its opening time in milliseconds, the local date (days since the
      Thursday 1 January 1970) and minute of the day that the exchange's clock shows, its prices. */
  datatype Row = Row(stamp: int, day: int, minute: int, bar: T.Bar, volume: real)

  datatype ExitReason = Level(reason: T.Reason) | SessionEnd

  datatype Position = Position(index: nat, day: int, long: bool, quantity: int, price: real,
                               stop: real, target: real, entryFee: real, plannedRisk: real)

  /** `pnl` is the rounded figure that the report keeps. */
  datatype Trade = Trade(entry: Position, exitIndex: nat, exitDay: int, exitPrice: real, reason: ExitReason, pnl: real)

  datatype Sim = Sim(cash: real, position: Option<Position>, peak: real, maxDrawdown: real,
                     trades: seq<Trade>, skipped: nat, fees: real)

  /** Slippage per leg, and the commission per share with its minimum. */
  datatype Terms = Terms(slip: real, perShare: real, minimumFee: real)

  /** Everything a run depends on.  `stream` holds the eligible decisions; `atr` is the
      measured range of a window, or None when it is unavailable. */
  datatype Env = Env(rows: seq<Row>, stream: map<int, Decision>, measured: bool, terms: Terms, capital: real,
                     intraday: bool,
                     atr: seq<Row> -> Option<real>, round: real -> real)

  // ------------------------------------------------------------ validation

  ghost predicate InOrder(a: Row, b: Row, step: int) {
    a.stamp < b.stamp && (a.day == b.day ==> b.stamp - a.stamp == step)
  }

  /** Monday is 0. */
  function Weekday(day: int): int {
    (day + 3) % 7
  }

  predicate ValidPrices(r: Row) {
    && r.bar.open > 0.0 && r.bar.high > 0.0 && r.bar.low > 0.0 && r.bar.close > 0.0
    && r.bar.low <= Min(r.bar.open, r.bar.close) && Max(r.bar.open, r.bar.close) <= r.bar.high
  }

  predicate RegularHours(r: Row) {
    Weekday(r.day) < 5 && 570 <= r.minute < 960
  }

  predicate ValidRow(r: Row) {
    ValidPrices(r) && r.volume >= 0.0 && RegularHours(r)
  }

  predicate Finished(r: Row, step: int, collected: int) {
    0 < r.stamp && r.stamp + step <= collected
  }

  ghost predicate ValidRows(rows: seq<Row>, step: int, collected: int) {
    && |rows| >= WARMUP + 2
    && (forall i :: 0 <= i < |rows| ==> ValidRow(rows[i]) && Finished(rows[i], step, collected))
    && (forall i :: 0 < i < |rows| ==> InOrder(rows[i - 1], rows[i], step))
  }

  /** The exchange's clock does not run backward over the bars: it is only changed at night. */
  ghost predicate OneClock(rows: seq<Row>) {
    forall i, j :: 0 <= i < |rows| && 0 <= j < |rows| && rows[i].stamp <= rows[j].stamp ==>
      rows[i].day < rows[j].day || (rows[i].day == rows[j].day && rows[i].minute <= rows[j].minute)
  }

  /** A row of a bundle; a figure that is not a finite number is missing. */
  datatype Quote = Quote(stamp: int, day: int, minute: int, open: Option<real>, high: Option<real>, low: Option<real>,
                         close: Option<real>, volume: Option<real>)

  datatype Bundle = Bundle(provider: string, regularHours: bool, timeframe: string, collected: int, quotes: seq<Quote>)

  function StepOf(timeframe: string): Option<int> {
    if timeframe == "3m" then Some(180_000)
    else if timeframe == "5m" then Some(300_000)
    else if timeframe == "15m" then Some(900_000)
    else None
  }

  predicate Priced(q: Quote) {
    q.open.Some? && q.high.Some? && q.low.Some? && q.close.Some?
  }

  predicate Complete(q: Quote) {
    Priced(q) && q.volume.Some?
  }

  function RowOf(q: Quote): Row
    requires Complete(q)
  {
    Row(q.stamp, q.day, q.minute, T.Bar(q.open.value, q.high.value, q.low.value, q.close.value), q.volume.value)
  }

  function RowsOf(quotes: seq<Quote>): (rows: seq<Row>)
    requires forall i :: 0 <= i < |quotes| ==> Complete(quotes[i])
    ensures |rows| == |quotes| && forall i :: 0 <= i < |rows| ==> rows[i] == RowOf(quotes[i])
  {
    seq(|quotes|, i requires 0 <= i < |quotes| => RowOf(quotes[i]))
  }

  ghost predicate ValidBundle(b: Bundle) {
    && b.provider == "IBKR" && b.regularHours && StepOf(b.timeframe).Some?
    && (forall i :: 0 <= i < |b.quotes| ==> Complete(b.quotes[i]))
    && ValidRows(RowsOf(b.quotes), StepOf(b.timeframe).value, b.collected)
  }

  /** The reason why a bar is refused by itself. */
  function Fault(q: Quote): Option<string> {
    if !Priced(q) then Some("INVALID_OHLC")
    else if q.volume == None then Some("INVALID_VOLUME")
    else
      var r := RowOf(q);
      if !ValidPrices(r) then Some("INVALID_OHLC")
      else if r.volume < 0.0 then Some("INVALID_VOLUME")
      else if !RegularHours(r) then Some("NON_RTH_BAR")
      else None
  }

  lemma BundleRow(b: Bundle, i: nat)
    requires i < |b.quotes| && StepOf(b.timeframe).Some?
    ensures ValidBundle(b) ==> Fault(b.quotes[i]) == None && Finished(RowOf(b.quotes[i]), StepOf(b.timeframe).value,
                                                                      b.collected)
    ensures ValidBundle(b) && i > 0 ==>
      var p, q := b.quotes[i - 1], b.quotes[i];
      p.stamp < q.stamp && (p.day == q.day ==> q.stamp - p.stamp == StepOf(b.timeframe).value)
  {
    if ValidBundle(b) {
      var rows := RowsOf(b.quotes);
      assert rows[i] == RowOf(b.quotes[i]) && ValidRow(rows[i]);
      if i > 0 { assert InOrder(rows[i - 1], rows[i], StepOf(b.timeframe).value); }
    }
  }

  /** One pass over the bundle; a refusal names the first fault. */
  method Validate(b: Bundle) returns (r: Result<seq<Row>, string>)
    ensures r.Ok? <==> ValidBundle(b)
    ensures r.Ok? ==> r.value == RowsOf(b.quotes)
  {
    if b.provider != "IBKR" || !b.regularHours { return Error("IBKR_RTH_DATASET_REQUIRED"); }
    if StepOf(b.timeframe) == None { return Error("UNSUPPORTED_TIMEFRAME"); }
    var step := StepOf(b.timeframe).value;
    if |b.quotes| < WARMUP + 2 { return Error("INSUFFICIENT_COMPLETED_HISTORY"); }
    var rows: seq<Row> := [];
    for i := 0 to |b.quotes|
      invariant |rows| == i
      invariant forall k :: 0 <= k < i ==> Complete(b.quotes[k]) && rows[k] == RowOf(b.quotes[k])
      invariant forall k :: 0 <= k < i ==> ValidRow(rows[k]) && Finished(rows[k], step, b.collected)
      invariant forall k :: 0 < k < i ==> InOrder(rows[k - 1], rows[k], step)
    {
      var q := b.quotes[i];
      BundleRow(b, i);
      if q.stamp <= 0 || q.stamp + step > b.collected { return Error("INVALID_OR_UNFINISHED_BAR"); }
      if i > 0 && q.stamp <= b.quotes[i - 1].stamp {
        return Error("UNSORTED_OR_DUPLICATE_BARS");
      }
      if Fault(q).Some? { return Error(Fault(q).value); }
      if i > 0 && b.quotes[i - 1].day == q.day && q.stamp - b.quotes[i - 1].stamp != step {
        return Error("INTRADAY_DATA_GAP");
      }
      rows := rows + [RowOf(q)];
    }
    assert rows == RowsOf(b.quotes);
    r := Ok(rows);
  }

  ghost predicate HasExitBar(rows: seq<Row>, day: int) {
    exists k :: WARMUP <= k < |rows| && rows[k].day == day && rows[k].minute == SESSION_EXIT
  }

  /** Every validation session contains the scheduled exit bar. */
  ghost predicate SessionsComplete(rows: seq<Row>) {
    forall i :: WARMUP <= i < |rows| ==> HasExitBar(rows, rows[i].day)
  }

  /** Minutes per date, gathered in one pass and then checked. */
  method ValidateSessions(rows: seq<Row>) returns (ok: bool)
    requires |rows| >= WARMUP
    ensures ok <==> SessionsComplete(rows)
  {
    var sessions: map<int, set<int>> := map[];
    for i := WARMUP to |rows|
      invariant forall d :: d in sessions <==> exists k :: WARMUP <= k < i && rows[k].day == d
      invariant forall d, m :: d in sessions ==>
        (m in sessions[d] <==> exists k :: WARMUP <= k < i && rows[k].day == d && rows[k].minute == m)
    {
      var day, minute := rows[i].day, rows[i].minute;
      sessions := sessions[day := (if day in sessions then sessions[day] else {}) + {minute}];
    }
    ok := forall d :: d in sessions ==> SESSION_EXIT in sessions[d];
    if ok {
      forall i | WARMUP <= i < |rows| ensures HasExitBar(rows, rows[i].day) {
        assert SESSION_EXIT in sessions[rows[i].day];
      }
    } else {
      var d :| d in sessions && SESSION_EXIT !in sessions[d];
      var k :| WARMUP <= k < |rows| && rows[k].day == d;
      assert !HasExitBar(rows, rows[k].day);
    }
  }

  // ------------------------------------------------------------ one bar

  function Signed(long: bool, x: real): real {
    if long then x else -x
  }

  function Fee(t: Terms, quantity: int): real {
    Max(t.minimumFee, quantity as real * t.perShare)
  }

  function Start(e: Env): Sim {
    Sim(e.capital, None, e.capital, 0.0, [], 0, 0.0)
  }

  /** The quantity whose stop loss and both commissions fit the risk budget. */
  function BudgetQuantity(t: Terms, risk: real, distance: real): int
    requires distance + 2.0 * t.perShare > 0.0
  {
    var n := ((risk - 2.0 * t.minimumFee) / (distance + 2.0 * t.perShare)).Floor;
    if n > 0 then n else 0
  }

  /** Whole shares that the allowed part of the cash buys. */
  function ShareQuantity(cash: real, price: real): int
    requires price > 0.0
  {
    (cash * SIZING.maxNotionalPct / 100.0 / price).Floor
  }

  ghost predicate ValidEnv(e: Env) {
    && (forall i :: 0 <= i < |e.rows| ==> ValidRow(e.rows[i]))
    && e.capital > 0.0 && 0.0 <= e.terms.slip < 1.0 && e.terms.perShare > 0.0 && e.terms.minimumFee > 0.0
  }

  function Risk(quantity: int, distance: real): real {
    quantity as real * distance
  }

  /** The bar's opening, worsened by slippage. */
  function EntryPrice(t: Terms, row: Row, long: bool): (price: real)
    requires row.bar.open > 0.0 && 0.0 <= t.slip < 1.0
    ensures price > 0.0
  {
    var rate := 1.0 + Signed(long, t.slip);
    ProductSign(row.bar.open, rate);
    row.bar.open * rate
  }

  /** The position that a plan opens on bar `i`, or None when nothing affordable is left. */
  function Sized(t: Terms, plan: Plan, long: bool, reference: real, i: nat, row: Row, cash: real): Option<Position>
    requires row.bar.open > 0.0 && 0.0 <= t.slip < 1.0 && t.perShare > 0.0
  {
    var distance := Max(reference - plan.stopLoss, plan.stopLoss - reference);
    var price := EntryPrice(t, row, long);
    var quantity := MinInt(MinInt(plan.quantity.Floor, BudgetQuantity(t, plan.riskAmount, distance)),
                           ShareQuantity(cash, price));
    var stop := price - Signed(long, distance);
    var target := price + Signed(long, distance * SIZING.targetRr);
    if quantity < 1 || Min(stop, target) <= 0.0 then None
    else Some(Position(i, row.day, long, quantity, price, stop, target, Fee(t, quantity), Risk(quantity, distance)))
  }

  /** The opened position, or None when the attempt is counted as skipped. */
  function Entry(e: Env, i: nat, cash: real): Option<Position>
    requires ValidEnv(e) && WARMUP <= i < |e.rows| && i in e.stream && cash > 0.0
  {
    var side, reference := e.stream[i], e.rows[i - 1].bar.close;
    var range := e.atr(e.rows[i - 200..i]);
    if e.measured && range == None then None
    else
      var plan := BuildExecutionPlan(side, reference, cash, cash, if e.measured then range else None, SIZING, e.round);
      if plan.Error? then None else Sized(e.terms, plan.value, side == BUY, reference, i, e.rows[i], cash)
  }

  function TryEntry(e: Env, s: Sim, i: nat): (r: Sim)
    requires ValidEnv(e) && WARMUP <= i < |e.rows|
    ensures r.peak == s.peak
  {
    if s.position.Some? || i !in e.stream || s.cash <= 0.0 || (e.intraday && e.rows[i].minute >= ENTRY_CUTOFF) then s
    else
      var p := Entry(e, i, s.cash);
      if p.Some? then
        s.(cash := s.cash - p.value.entryFee, fees := s.fees + p.value.entryFee, position := p)
      else s.(skipped := s.skipped + 1)
  }

  /** At the scheduled exit only the opening of the bar is looked at. */
  function Outcome(e: Env, i: nat, p: Position): Option<(real, ExitReason)>
    requires i < |e.rows|
  {
    var bar := e.rows[i].bar;
    if e.intraday && e.rows[i].minute >= SESSION_EXIT then
      match T.Trigger(T.Bar(bar.open, bar.open, bar.open, bar.open), p.long, p.stop, p.target)
      case Some(t) => Some((t.0, Level(t.1)))
      case None => Some((bar.open, SessionEnd))
    else
      match T.Trigger(bar, p.long, p.stop, p.target)
      case Some(t) => Some((t.0, Level(t.1)))
      case None => None
  }

  function ExitPrice(e: Env, p: Position, level: real): real {
    level * (1.0 - Signed(p.long, e.terms.slip))
  }

  function Gross(p: Position, price: real): real {
    Signed(p.long, p.quantity as real * (price - p.price))
  }

  function Unrounded(e: Env, p: Position, price: real): real {
    Gross(p, price) - p.entryFee - Fee(e.terms, p.quantity)
  }

  function TryExit(e: Env, s: Sim, i: nat): (r: Sim)
    requires i < |e.rows|
    ensures r.peak == s.peak
  {
    if s.position == None then s
    else
      var p := s.position.value;
      match Outcome(e, i, p)
      case None => s
      case Some(out) =>
        var price := ExitPrice(e, p, out.0);
        var fee := Fee(e.terms, p.quantity);
        s.(cash := s.cash + (Gross(p, price) - fee), fees := s.fees + fee, position := None,
           trades := s.trades + [Trade(p, i, e.rows[i].day, price, out.1, e.round(Unrounded(e, p, price)))])
  }

  function Equity(s: Sim, close: real): real {
    s.cash + if s.position.Some? then Gross(s.position.value, close) else 0.0
  }

  function Mark(s: Sim, close: real): Sim
    requires s.peak > 0.0
  {
    var equity := Equity(s, close);
    var peak := Max(s.peak, equity);
    s.(peak := peak, maxDrawdown := Max(s.maxDrawdown, (peak - equity) / peak * 100.0))
  }

  function Bar(e: Env, s: Sim, i: nat): (r: Sim)
    requires ValidEnv(e) && WARMUP <= i < |e.rows| && s.peak > 0.0
    ensures r.peak > 0.0
  {
    Mark(TryExit(e, TryEntry(e, s, i), i), e.rows[i].bar.close)
  }

  /** The state before bar `i`. */
  function Before(e: Env, i: nat): (s: Sim)
    requires ValidEnv(e) && i <= |e.rows|
    ensures s.peak > 0.0
  {
    if i <= WARMUP then Start(e) else Bar(e, Before(e, i - 1), i - 1)
  }

  lemma BarIs(e: Env, s: Sim, i: nat)
    requires ValidEnv(e) && WARMUP <= i < |e.rows| && s.peak > 0.0
    ensures Bar(e, s, i) == Mark(TryExit(e, TryEntry(e, s, i), i), e.rows[i].bar.close)
  {
  }

  lemma EntryIs(e: Env, s: Sim, i: nat)
    requires ValidEnv(e) && WARMUP <= i < |e.rows|
    ensures TryEntry(e, s, i) ==
      if s.position.Some? || i !in e.stream || s.cash <= 0.0 || (e.intraday && e.rows[i].minute >= ENTRY_CUTOFF) then s
      else if Entry(e, i, s.cash) == None then s.(skipped := s.skipped + 1)
      else var fee := Entry(e, i, s.cash).value.entryFee;
        s.(cash := s.cash - fee, fees := s.fees + fee, position := Entry(e, i, s.cash))
  {
    hide Entry;
  }

  /** The loop: a flat account may take the decision of the bar, an open position may be closed in
      it, and the equity is marked at its close. */
  method Simulate(e: Env) returns (s: Sim)
    requires ValidEnv(e) && |e.rows| >= WARMUP
    ensures s == Before(e, |e.rows|)
  {
    hide Entry, Outcome, Unrounded, Gross, Fee, ExitPrice, TryEntry, Bar;
    var cash, position: Option<Position>, peak, maxDrawdown := e.capital, None, e.capital, 0.0;
    var trades: seq<Trade>, skipped: nat, fees := [], 0, 0.0;
    for index := WARMUP to |e.rows|
      invariant Sim(cash, position, peak, maxDrawdown, trades, skipped, fees) == Before(e, index)
    {
      ghost var before := Before(e, index);
      EntryIs(e, before, index);
      BarIs(e, before, index);
      var row := e.rows[index];
      var held := position.Some?;
      if !held && index in e.stream && cash > 0.0 && (!e.intraday || row.minute < ENTRY_CUTOFF) {
        var opening := Entry(e, index, cash);
        if opening.Some? {
          var fee := opening.value.entryFee;
          cash, fees := cash - fee, fees + fee;
          position := opening;
        } else {
          skipped := skipped + 1;
        }
      }
      assert Sim(cash, position, peak, maxDrawdown, trades, skipped, fees) == TryEntry(e, before, index);
      ghost var entered := TryEntry(e, before, index);
      if position.Some? {
        var p := position.value;
        var outcome := Outcome(e, index, p);
        if outcome.Some? {
          var price := ExitPrice(e, p, outcome.value.0);
          var fee := Fee(e.terms, p.quantity);
          var gross := Gross(p, price);
          cash, fees := cash + (gross - fee), fees + fee;
          trades := trades + [Trade(p, index, row.day, price, outcome.value.1, e.round(Unrounded(e, p, price)))];
          position := None;
        }
      }
      assert Sim(cash, position, peak, maxDrawdown, trades, skipped, fees) == TryExit(e, entered, index);
      var equity := cash + if position.Some? then Gross(position.value, row.bar.close) else 0.0;
      peak := Max(peak, equity);
      maxDrawdown := Max(maxDrawdown, (peak - equity) / peak * 100.0);
    }
    s := Sim(cash, position, peak, maxDrawdown, trades, skipped, fees);
  }

  // --------------------------------------------------------- accounting

  ghost function SumPnl(e: Env, trades: seq<Trade>): real {
    if trades == [] then 0.0
    else
      var t := trades[|trades| - 1];
      SumPnl(e, trades[..|trades| - 1]) + Unrounded(e, t.entry, t.exitPrice)
  }

  ghost function SumFees(e: Env, trades: seq<Trade>): real {
    if trades == [] then 0.0
    else
      var t := trades[|trades| - 1];
      SumFees(e, trades[..|trades| - 1]) + t.entry.entryFee + Fee(e.terms, t.entry.quantity)
  }

  /** Cash is the capital plus the unrounded P&L of all closed trades, less the entry fee
      of an open position; both commissions of every trade are in `fees`. */
  ghost predicate Accounted(e: Env, s: Sim) {
    && s.cash == e.capital + SumPnl(e, s.trades) - (if s.position.Some? then s.position.value.entryFee else 0.0)
    && (s.position.Some? ==> s.position.value.entryFee == Fee(e.terms, s.position.value.quantity))
    && s.fees == SumFees(e, s.trades) + (if s.position.Some? then s.position.value.entryFee else 0.0)
  }

  lemma EntryAccounted(e: Env, s: Sim, i: nat)
    requires ValidEnv(e) && WARMUP <= i < |e.rows| && Accounted(e, s)
    ensures Accounted(e, TryEntry(e, s, i))
  {
    hide Fee, SumPnl, SumFees, BudgetQuantity, BuildExecutionPlan;
  }

  lemma ExitAccounted(e: Env, s: Sim, i: nat)
    requires i < |e.rows| && Accounted(e, s)
    ensures Accounted(e, TryExit(e, s, i))
  {
    var r := TryExit(e, s, i);
    if |r.trades| > |s.trades| {
      assert r.trades[..|r.trades| - 1] == s.trades;
    }
  }

  lemma MarkAccounted(e: Env, s: Sim, close: real)
    requires s.peak > 0.0 && Accounted(e, s)
    ensures Accounted(e, Mark(s, close))
  {
  }

  lemma BarAccounted(e: Env, s: Sim, i: nat)
    requires ValidEnv(e) && WARMUP <= i < |e.rows| && s.peak > 0.0 && Accounted(e, s)
    ensures Accounted(e, Bar(e, s, i))
  {
    hide Accounted, TryEntry, TryExit, Mark, ValidEnv;
    EntryAccounted(e, s, i);
    ExitAccounted(e, TryEntry(e, s, i), i);
    MarkAccounted(e, TryExit(e, TryEntry(e, s, i), i), e.rows[i].bar.close);
  }

  lemma AccountedEquity(e: Env, s: Sim, close: real)
    requires Accounted(e, s)
    ensures Equity(s, close) == e.capital + SumPnl(e, s.trades)
      + (if s.position.Some? then Gross(s.position.value, close) - s.position.value.entryFee else 0.0)
  {
    hide Gross, Fee;
  }

  /** After every bar the marked equity is the capital, plus the closed P&L, plus the open
      position marked to the close less its entry fee. */
  lemma {:induction false} EquityIsAccounted(e: Env, n: nat, close: real)
    requires ValidEnv(e) && n <= |e.rows|
    ensures Accounted(e, Before(e, n))
    ensures var s := Before(e, n);
      Equity(s, close) == e.capital + SumPnl(e, s.trades)
        + (if s.position.Some? then Gross(s.position.value, close) - s.position.value.entryFee else 0.0)
  {
    hide Bar, Equity, Fee, ValidEnv;
    if n <= WARMUP {
      assert Accounted(e, Start(e));
    } else {
      hide Accounted;
      EquityIsAccounted(e, n - 1, close);
      BarAccounted(e, Before(e, n - 1), n - 1);
    }
    AccountedEquity(e, Before(e, n), close);
  }

  // --------------------------------------------------------- loss bound

  /** The risk amount planned for an entry at bar `i`: one percent of the cash, rounded. */
  ghost function PlannedRisk(e: Env, i: nat): real
    requires ValidEnv(e) && i <= |e.rows|
  {
    e.round(Share(Before(e, i).cash, SIZING.riskPct))
  }

  ghost function Distance(p: Position): real {
    Max(p.price - p.stop, p.stop - p.price)
  }

  /** The stop distance and two per-share commissions of every share, and two minimum
      commissions, fit the planned risk. */
  ghost predicate FitsBudget(e: Env, p: Position, risk: real) {
    && p.quantity >= 1
    && p.entryFee == Fee(e.terms, p.quantity)
    && (if p.long then p.stop <= p.price else p.price <= p.stop)
    && p.quantity as real * (Distance(p) + 2.0 * e.terms.perShare) + 2.0 * e.terms.minimumFee <= risk
  }

  lemma BudgetFits(e: Env, risk: real, distance: real, quantity: int)
    requires e.terms.perShare > 0.0 && distance >= 0.0 && 1 <= quantity <= BudgetQuantity(e.terms, risk, distance)
    ensures quantity as real * (distance + 2.0 * e.terms.perShare) + 2.0 * e.terms.minimumFee <= risk
  {
    QuotientBetween(risk - 2.0 * e.terms.minimumFee, distance + 2.0 * e.terms.perShare, quantity as real, 0.0);
  }

  lemma EntryFitsBudget(e: Env, i: nat, cash: real)
    requires ValidEnv(e) && WARMUP <= i < |e.rows| && i in e.stream && cash > 0.0
    requires Entry(e, i, cash).Some?
    ensures var p := Entry(e, i, cash).value;
      p.index == i && p.day == e.rows[i].day && FitsBudget(e, p, e.round(Share(cash, SIZING.riskPct)))
  {
    hide Share, Fee;
    var range := e.atr(e.rows[i - 200..i]);
    var reference := e.rows[i - 1].bar.close;
    var plan := BuildExecutionPlan(e.stream[i], reference, cash, cash, if e.measured then range else None, SIZING,
                                   e.round).value;
    assert plan.riskAmount == e.round(Share(cash, SIZING.riskPct));
    hide BuildExecutionPlan;
    SizedFitsBudget(e, plan, e.stream[i] == BUY, reference, i, cash);
  }

  lemma SizedFitsBudget(e: Env, plan: Plan, long: bool, reference: real, i: nat, cash: real)
    requires ValidEnv(e) && i < |e.rows| && Sized(e.terms, plan, long, reference, i, e.rows[i], cash).Some?
    ensures var p := Sized(e.terms, plan, long, reference, i, e.rows[i], cash).value;
      p.index == i && p.day == e.rows[i].day && FitsBudget(e, p, plan.riskAmount)
  {
    hide BudgetQuantity, Fee;
    var p := Sized(e.terms, plan, long, reference, i, e.rows[i], cash).value;
    var distance := Max(reference - plan.stopLoss, plan.stopLoss - reference);
    assert Distance(p) == distance;
    BudgetFits(e, plan.riskAmount, distance, p.quantity);
  }

  /** An entry lies between its positive levels, its target twice as far as its stop, and costs at
      most a fifth of the cash. */
  lemma EntryIsBracketed(e: Env, i: nat, cash: real)
    requires ValidEnv(e) && WARMUP <= i < |e.rows| && i in e.stream && cash > 0.0
    requires Entry(e, i, cash).Some?
    ensures var p := Entry(e, i, cash).value;
            && p.stop > 0.0 && p.target > 0.0
            && (if p.long then p.stop <= p.price <= p.target else p.target <= p.price <= p.stop)
            && p.target - p.price == 2.0 * (p.price - p.stop)
            && p.quantity as real * p.price <= cash * 0.2
  {
    hide BuildExecutionPlan, BudgetQuantity, Fee;
    var p := Entry(e, i, cash).value;
    hide EntryPrice;
    assert p.quantity <= ShareQuantity(cash, p.price) by { hide ShareQuantity; }
    QuotientBetween(cash * SIZING.maxNotionalPct / 100.0, p.price, p.quantity as real, 0.0);
  }

  lemma FeesWithinBudget(e: Env, q: real, d: real, risk: real)
    requires q >= 0.0 && e.terms.perShare > 0.0 && e.terms.minimumFee > 0.0
    requires q * (d + 2.0 * e.terms.perShare) + 2.0 * e.terms.minimumFee <= risk
    ensures q * d + 2.0 * Max(e.terms.minimumFee, q * e.terms.perShare) <= risk
  {
    assert q * (d + 2.0 * e.terms.perShare) == q * d + 2.0 * (q * e.terms.perShare);
    ProductSign(q, e.terms.perShare);
  }

  /** A stop fill loses the stop distance and the slippage on the stop, per share. */
  lemma StopGross(e: Env, p: Position)
    requires if p.long then p.stop <= p.price else p.price <= p.stop
    ensures Gross(p, ExitPrice(e, p, p.stop))
         == -(p.quantity as real * Distance(p)) - p.quantity as real * (p.stop * e.terms.slip)
  {
    var q := p.quantity as real;
    var x := p.stop * e.terms.slip;
    if p.long {
      assert ExitPrice(e, p, p.stop) == p.stop - x;
      assert q * (p.stop - x - p.price) == -(q * (p.price - p.stop)) - q * x;
    } else {
      assert ExitPrice(e, p, p.stop) == p.stop + x;
      assert q * (p.stop + x - p.price) == q * (p.stop - p.price) + q * x;
    }
  }

  predicate StoppedOut(t: Trade) {
    t.reason == Level(T.Stop) || t.reason == Level(T.StopFirst)
  }

  /** Unrounded P&L of the trade, both commissions included, against the planned risk. */
  ghost predicate LossBounded(e: Env, t: Trade)
    requires ValidEnv(e)
  {
    && t.entry.index < |e.rows|
    && Unrounded(e, t.entry, t.exitPrice)
         >= -PlannedRisk(e, t.entry.index) - t.entry.quantity as real * (t.entry.stop * e.terms.slip)
  }

  lemma StopTradeLoss(e: Env, p: Position, risk: real)
    requires e.terms.perShare > 0.0 && e.terms.minimumFee > 0.0 && FitsBudget(e, p, risk)
    ensures Unrounded(e, p, ExitPrice(e, p, p.stop)) >= -risk - p.quantity as real * (p.stop * e.terms.slip)
  {
    StopGross(e, p);
    FeesWithinBudget(e, p.quantity as real, Distance(p), risk);
  }

  lemma StopExitLossBounded(e: Env, s: Sim, i: nat)
    requires ValidEnv(e) && i < |e.rows| && s.position.Some?
    requires s.position.value.index < |e.rows|
    requires FitsBudget(e, s.position.value, PlannedRisk(e, s.position.value.index))
    ensures forall t :: t in TryExit(e, s, i).trades && t !in s.trades && StoppedOut(t) ==> LossBounded(e, t)
  {
    hide FitsBudget, PlannedRisk, Unrounded, Gross, ExitPrice, Fee, Distance;
    var p := s.position.value;
    var out := Outcome(e, i, p);
    if out.Some? && (out.value.1 == Level(T.Stop) || out.value.1 == Level(T.StopFirst)) {
      assert out.value.0 == p.stop;
      StopTradeLoss(e, p, PlannedRisk(e, p.index));
    }
  }

  /** What is known of the open position before and after the entry of a bar. */
  ghost predicate HeldFits(e: Env, s: Sim, n: nat)
    requires ValidEnv(e) && n <= |e.rows|
  {
    s.position.Some? ==>
      var p := s.position.value;
      p.index < n && FitsBudget(e, p, PlannedRisk(e, p.index))
  }

  lemma EntryHeldFits(e: Env, i: nat)
    requires ValidEnv(e) && WARMUP <= i < |e.rows| && HeldFits(e, Before(e, i), i)
    ensures var entered := TryEntry(e, Before(e, i), i);
      entered.trades == Before(e, i).trades && HeldFits(e, entered, i + 1)
  {
    hide Entry, FitsBudget;
    var s := Before(e, i);
    if s.position == None && TryEntry(e, s, i).position.Some? { EntryFitsBudget(e, i, s.cash); }
  }

  lemma ExitHeldFits(e: Env, s: Sim, i: nat)
    requires ValidEnv(e) && i < |e.rows| && HeldFits(e, s, i + 1)
    ensures HeldFits(e, TryExit(e, s, i), i + 1)
    ensures forall t :: t in TryExit(e, s, i).trades && t !in s.trades && StoppedOut(t) ==> LossBounded(e, t)
  {
    if s.position.Some? { StopExitLossBounded(e, s, i); }
    hide FitsBudget, LossBounded, Outcome, Unrounded, Gross, ExitPrice, PlannedRisk;
  }

  /** Every trade that a stop closed inside a bar, long or short, loses at most its planned
      risk plus the slippage on the stop. */
  lemma {:induction false} StopLossesAreBounded(e: Env, n: nat)
    requires ValidEnv(e) && n <= |e.rows|
    ensures forall t :: t in Before(e, n).trades && StoppedOut(t) ==> LossBounded(e, t)
    ensures HeldFits(e, Before(e, n), n)
  {
    if n > WARMUP {
      hide TryEntry, TryExit, HeldFits, LossBounded, StoppedOut, Equity, ValidEnv;
      var i := n - 1;
      StopLossesAreBounded(e, i);
      EntryHeldFits(e, i);
      ExitHeldFits(e, TryEntry(e, Before(e, i), i), i);
      MarkHeldFits(e, TryExit(e, TryEntry(e, Before(e, i), i), i), e.rows[i].bar.close, n);
    }
  }

  lemma MarkHeldFits(e: Env, s: Sim, close: real, n: nat)
    requires ValidEnv(e) && n <= |e.rows| && s.peak > 0.0 && HeldFits(e, s, n)
    ensures HeldFits(e, Mark(s, close), n) && Mark(s, close).trades == s.trades
  {
    hide FitsBudget, PlannedRisk;
  }

  // --------------------------------------------------------- intraday policy

  lemma {:induction false} StampsAscend(rows: seq<Row>, step: int, collected: int, i: nat, j: nat)
    requires ValidRows(rows, step, collected) && i <= j < |rows|
    ensures rows[i].stamp <= rows[j].stamp
    decreases j - i
  {
    if i < j {
      StampsAscend(rows, step, collected, i, j - 1);
      assert InOrder(rows[j - 1], rows[j], step);
    }
  }

  /** On a day with its exit bar still ahead, the next bar is on the same day. */
  lemma SameDayUntilExitBar(rows: seq<Row>, step: int, collected: int, i: nat)
    requires ValidRows(rows, step, collected) && OneClock(rows) && SessionsComplete(rows)
    requires WARMUP <= i < |rows| && rows[i].minute < SESSION_EXIT
    ensures i + 1 < |rows| && rows[i + 1].day == rows[i].day
  {
    assert HasExitBar(rows, rows[i].day);
    var k :| WARMUP <= k < |rows| && rows[k].day == rows[i].day && rows[k].minute == SESSION_EXIT;
    if k < i {
      StampsAscend(rows, step, collected, k, i);
    } else {
      StampsAscend(rows, step, collected, i, i + 1);
      StampsAscend(rows, step, collected, i + 1, k);
    }
  }

  ghost predicate FlatOvernight(e: Env, n: nat, s: Sim)
    requires n <= |e.rows|
  {
    && (s.position.Some? ==> n > 0 && s.position.value.day == e.rows[n - 1].day && e.rows[n - 1].minute < SESSION_EXIT)
    && (forall t :: t in s.trades ==> t.entry.day == t.exitDay)
  }

  /** A bar that is entered flat or on the day of its position keeps to that day. */
  lemma BarNeverOvernight(e: Env, s: Sim, i: nat)
    requires ValidEnv(e) && e.intraday && WARMUP <= i < |e.rows| && s.peak > 0.0
    requires s.position.Some? ==> s.position.value.day == e.rows[i].day
    requires forall t :: t in s.trades ==> t.entry.day == t.exitDay
    ensures FlatOvernight(e, i + 1, Bar(e, s, i))
  {
    var entered := TryEntry(e, s, i);
    if s.position == None && entered.position.Some? { EntryFitsBudget(e, i, s.cash); }
    assert entered.position.Some? ==> entered.position.value.day == e.rows[i].day;
    hide Entry, TryEntry, FitsBudget, Unrounded, Gross, Fee, ExitPrice;
    assert entered.trades == s.trades by { EntryIs(e, s, i); }
  }

  lemma {:induction false} NeverOvernight(e: Env, step: int, collected: int, n: nat)
    requires ValidEnv(e) && e.intraday && n <= |e.rows|
    requires ValidRows(e.rows, step, collected) && OneClock(e.rows) && SessionsComplete(e.rows)
    ensures FlatOvernight(e, n, Before(e, n))
  {
    hide Bar, ValidRows, OneClock, SessionsComplete, ValidEnv;
    if n > WARMUP {
      var i := n - 1;
      NeverOvernight(e, step, collected, i);
      if i > WARMUP && Before(e, i).position.Some? { SameDayUntilExitBar(e.rows, step, collected, i - 1); }
      BarNeverOvernight(e, Before(e, i), i);
    }
  }

  /** The intraday policy ends flat and opens and closes every trade on one date, for every
      validated bundle with complete sessions: the check for it can never raise. */
  lemma IntradayPolicyIsAlwaysFlat(e: Env, step: int, collected: int)
    requires ValidEnv(e) && e.intraday
    requires ValidRows(e.rows, step, collected) && OneClock(e.rows) && SessionsComplete(e.rows)
    ensures Before(e, |e.rows|).position == None
    ensures forall t :: t in Before(e, |e.rows|).trades ==> t.entry.day == t.exitDay
  {
    NeverOvernight(e, step, collected, |e.rows|);
    var last := |e.rows| - 1;
    if Before(e, |e.rows|).position.Some? {
      SameDayUntilExitBar(e.rows, step, collected, last);
    }
  }

  // -------------------------------------------------------- no look-ahead

  /** The eligible decisions: at each bar, what the 200 bars before it call for. */
  function StreamOf(rows: seq<Row>, oracle: seq<Row> -> Option<Decision>): map<int, Decision> {
    StreamTo(rows, oracle, |rows|)
  }

  function StreamTo(rows: seq<Row>, oracle: seq<Row> -> Option<Decision>, n: nat): map<int, Decision> {
    map i | WARMUP <= i < n && DecisionAt(rows, oracle, i).Some? :: DecisionAt(rows, oracle, i).value
  }

  function DecisionAt(rows: seq<Row>, oracle: seq<Row> -> Option<Decision>, i: int): Option<Decision> {
    if WARMUP <= i <= |rows| then oracle(rows[i - WARMUP..i]) else None
  }

  lemma StreamStep(rows: seq<Row>, oracle: seq<Row> -> Option<Decision>, n: nat)
    requires WARMUP <= n
    ensures StreamTo(rows, oracle, n + 1) ==
      if DecisionAt(rows, oracle, n).Some? then StreamTo(rows, oracle, n)[n := DecisionAt(rows, oracle, n).value]
      else StreamTo(rows, oracle, n)
  {
    hide DecisionAt;
  }

  method Signals(rows: seq<Row>, oracle: seq<Row> -> Option<Decision>) returns (stream: map<int, Decision>)
    requires |rows| >= WARMUP
    ensures stream == StreamOf(rows, oracle)
  {
    assert StreamTo(rows, oracle, WARMUP) == map[];
    hide StreamTo;
    stream := map[];
    for index := WARMUP to |rows|
      invariant stream == StreamTo(rows, oracle, index)
    {
      StreamStep(rows, oracle, index);
      var generated := oracle(rows[index - WARMUP..index]);
      if generated.Some? { stream := stream[index := generated.value]; }
    }
  }

  /** The same run on other bars. */
  function On(e: Env, rows: seq<Row>, oracle: seq<Row> -> Option<Decision>): Env {
    e.(rows := rows, stream := StreamOf(rows, oracle))
  }

  lemma EntryReadsItsWindow(e1: Env, e2: Env, i: nat, cash: real)
    requires ValidEnv(e1) && ValidEnv(e2) && e2 == e1.(rows := e2.rows, stream := e2.stream) && cash > 0.0
    requires WARMUP <= i < |e1.rows| && i < |e2.rows| && i in e1.stream && i in e2.stream
    requires e1.rows[i] == e2.rows[i] && e1.rows[i - 1] == e2.rows[i - 1] && e1.stream[i] == e2.stream[i]
    requires e1.rows[i - WARMUP..i] == e2.rows[i - WARMUP..i]
    ensures Entry(e1, i, cash) == Entry(e2, i, cash)
  {
    hide BuildExecutionPlan, Sized;
  }

  lemma ExitReadsItsBar(e1: Env, e2: Env, s: Sim, i: nat)
    requires i < |e1.rows| && i < |e2.rows| && e1.rows[i] == e2.rows[i]
      && e2 == e1.(rows := e2.rows, stream := e2.stream)
    ensures TryExit(e1, s, i) == TryExit(e2, s, i)
  {
    if s.position.Some? {
      var p := s.position.value;
      assert Outcome(e1, i, p) == Outcome(e2, i, p);
      assert forall level :: ExitPrice(e1, p, level) == ExitPrice(e2, p, level);
      assert forall price :: Unrounded(e1, p, price) == Unrounded(e2, p, price);
      hide Outcome, Fee, ExitPrice, Unrounded, Gross;
    }
  }

  lemma WindowOfPrefix(rows: seq<Row>, i: nat)
    requires WARMUP <= i < |rows|
    ensures rows[i - WARMUP..i] == rows[..i + 1][i - WARMUP..i]
  {
  }

  lemma BarReadsOnlyThrough(e: Env, rows1: seq<Row>, rows2: seq<Row>, oracle: seq<Row> -> Option<Decision>, s: Sim,
                            i: nat)
    requires ValidEnv(On(e, rows1, oracle)) && ValidEnv(On(e, rows2, oracle)) && s.peak > 0.0
    requires WARMUP <= i < |rows1| && i < |rows2| && rows1[..i + 1] == rows2[..i + 1]
    ensures Bar(On(e, rows1, oracle), s, i) == Bar(On(e, rows2, oracle), s, i)
  {
    var e1, e2 := On(e, rows1, oracle), On(e, rows2, oracle);
    assert rows1[i] == rows1[..i + 1][i] == rows2[i];
    assert rows1[i - 1] == rows1[..i + 1][i - 1] == rows2[i - 1];
    WindowOfPrefix(rows1, i);
    WindowOfPrefix(rows2, i);
    assert i in e1.stream <==> i in e2.stream;
    assert i in e1.stream ==> e1.stream[i] == e2.stream[i];
    if i in e1.stream && s.cash > 0.0 { EntryReadsItsWindow(e1, e2, i, s.cash); }
    hide Entry, StreamOf;
    assert TryEntry(e1, s, i) == TryEntry(e2, s, i);
    ExitReadsItsBar(e1, e2, TryEntry(e1, s, i), i);
  }

  /** Two histories that agree through bar `n` give the same state after bar `n`: the same
      trades, position, fees and drawdown, decisions and measured ranges included. */
  lemma {:induction false} NoLookAhead(e: Env, rows1: seq<Row>, rows2: seq<Row>,
                                       oracle: seq<Row> -> Option<Decision>, n: nat)
    requires ValidEnv(On(e, rows1, oracle)) && ValidEnv(On(e, rows2, oracle))
    requires n < |rows1| && n < |rows2| && rows1[..n + 1] == rows2[..n + 1]
    ensures Before(On(e, rows1, oracle), n + 1) == Before(On(e, rows2, oracle), n + 1)
  {
    hide Bar, ValidEnv;
    if n >= WARMUP {
      assert rows1[..n] == rows1[..n + 1][..n] == rows2[..n];
      assert rows1[..n - 1 + 1] == rows2[..n - 1 + 1];
      NoLookAhead(e, rows1, rows2, oracle, n - 1);
      BarReadsOnlyThrough(e, rows1, rows2, oracle, Before(On(e, rows1, oracle), n), n);
    }
  }
}
