/** The second, separately written FIFO loop: realized P&L of one Bybit profile's Spot
    rows, and its agreement with the execution ledger that later reads the same rows. */
module BybitReport {
  import opened Wrappers
  import opened RealArith
  import opened Ordering
  import opened Lots
  import E = ExecutionLots

  type Row = E.Row

  type Inventory = map<string, seq<Lot>>

  function Get(inventory: Inventory, symbol: string): seq<Lot> {
    if symbol in inventory then inventory[symbol] else []
  }

  function Symbol(x: Row): string {
    x.key.1
  }

  function Proceeds(x: Row): real {
    Cost(x.qty, x.price)
  }

  /** `price` is 0 where the code has no price. */
  predicate Priced(x: Row) {
    x.price != 0.0 && x.qty > 0.0
  }

  predicate Sells(x: Row) {
    Priced(x) && x.side == E.Sell
  }

  /** A sell found enough earlier buys. */
  predicate Full(d: Draining, eps: real) {
    d.matched > 0.0 && d.remaining <= eps
  }

  /** What the loop writes into a sell that drained `d`. */
  function Sold(x: Row, d: Draining, round: real -> real, eps: real): Row {
    var c := if d.times != [] then x.context.(openedAt := d.times[0]) else x.context;
    if Full(d, eps) then
      x.(pnl := round(Proceeds(x) - d.cost), pnlAvailable := true,
         context := c.(entryPrice := d.cost / d.matched, invested := d.cost))
    else x.(context := c)
  }

  function ReportOf(x: Row, queue: seq<Lot>, round: real -> real, eps: real): Row
    requires eps >= 0.0
  {
    if Sells(x) then Sold(x, Drain(Start(queue, x.qty), eps), round, eps) else x
  }

  ghost function StepQueue(queue: seq<Lot>, x: Row, eps: real): seq<Lot>
    requires eps >= 0.0
  {
    if !Priced(x) then queue
    else if x.side == E.Buy then queue + [E.LotOf(x)]
    else if x.side == E.Sell then Drain(Start(queue, x.qty), eps).queue
    else queue
  }

  ghost function QueueAfter(rows: seq<Row>, symbol: string, eps: real): seq<Lot>
    requires eps >= 0.0
  {
    if rows == [] then []
    else
      var n := |rows| - 1;
      var q := QueueAfter(rows[..n], symbol, eps);
      if Symbol(rows[n]) == symbol then StepQueue(q, rows[n], eps) else q
  }

  /** The `k`-th row visited, as it is reported. */
  ghost function ReportAt(rows: seq<Row>, k: nat, round: real -> real, eps: real): Row
    requires eps >= 0.0 && k < |rows|
  {
    ReportOf(rows[k], QueueAfter(rows[..k], Symbol(rows[k]), eps), round, eps)
  }

  /** The loop over the symbol's lots.  The opening time is set once, by the first lot
      visited (a fresh report row has none). */
  method MatchLots(lots: seq<Lot>, qty: real, eps: real)
    returns (queue: seq<Lot>, remaining: real, cost: real, matched: real, openedAt: Option<int>)
    requires eps >= 0.0
    ensures var d := Drain(Start(lots, qty), eps);
      && queue == d.queue && remaining == d.remaining && cost == d.cost && matched == d.matched
      && openedAt == if d.times == [] then None else Some(d.times[0])
  {
    hide Cost;
    queue, remaining, cost, matched, openedAt := lots, qty, 0.0, 0.0, None;
    ghost var times: seq<int>, actions: seq<string> := [], [];
    while remaining > eps && queue != []
      invariant Drain(Draining(queue, remaining, cost, matched, times, actions), eps) == Drain(Start(lots, qty), eps)
      invariant openedAt == if times == [] then None else Some(times[0])
      decreases |queue|, if remaining > eps then 1 else 0
    {
      ghost var d := Draining(queue, remaining, cost, matched, times, actions);
      var lot := queue[0];
      var take := Min(remaining, lot.qty);
      cost, matched := cost + Cost(take, lot.price), matched + take;
      times, actions := times + [lot.time], actions + [lot.action];
      if openedAt == None { openedAt := Some(lot.time); }
      queue := [lot.(qty := lot.qty - take)] + queue[1..];
      remaining := remaining - take;
      if queue[0].qty <= eps { queue := queue[1..]; }
      assert Draining(queue, remaining, cost, matched, times, actions) == DrainStep(d, eps);
    }
  }

  method MatchSell(x: Row, lots: seq<Lot>, round: real -> real, eps: real) returns (r: Row, queue: seq<Lot>)
    requires eps >= 0.0 && Sells(x)
    ensures r == ReportOf(x, lots, round, eps)
    ensures queue == StepQueue(lots, x, eps)
  {
    var remaining, cost, matched, openedAt;
    queue, remaining, cost, matched, openedAt := MatchLots(lots, x.qty, eps);
    r := x;
    if openedAt.Some? { r := r.(context := r.context.(openedAt := openedAt.value)); }
    if matched > 0.0 && remaining <= eps {
      r := r.(pnl := round(Proceeds(x) - cost));
      r := r.(pnlAvailable := true);
      r := r.(context := r.context.(entryPrice := cost / matched, invested := cost));
    }
  }

  /** A row moves the queue of its symbol, and no other. */
  ghost predicate Moves(before: Inventory, next: Inventory, x: Row, eps: real)
    requires eps >= 0.0
  {
    && Get(next, Symbol(x)) == StepQueue(Get(before, Symbol(x)), x, eps)
    && forall symbol :: symbol != Symbol(x) ==> Get(next, symbol) == Get(before, symbol)
  }

  /** Every symbol has the queue that the first `k` rows leave. */
  ghost predicate Queues(inventory: Inventory, sorted: seq<Row>, k: nat, eps: real)
    requires eps >= 0.0 && k <= |sorted|
  {
    forall symbol :: Get(inventory, symbol) == QueueAfter(sorted[..k], symbol, eps)
  }

  /** One visit: a sell is reported in place, and the queue of its symbol changes. */
  method VisitRow(rows: array<Row>, i: nat, inventory: Inventory, round: real -> real, eps: real)
    returns (next: Inventory)
    requires eps >= 0.0 && i < rows.Length
    modifies rows
    ensures rows[..] == old(rows[..])[i := ReportOf(old(rows[i]), Get(inventory, Symbol(old(rows[i]))), round, eps)]
    ensures Moves(inventory, next, old(rows[i]), eps)
  {
    next := inventory;
    var x, symbol := rows[i], Symbol(rows[i]);
    if x.price == 0.0 || x.qty <= 0.0 { return; }
    if x.side == E.Buy {
      next := inventory[symbol := Get(inventory, symbol) + [E.LotOf(x)]];
    } else if x.side == E.Sell {
      var r, queue := MatchSell(x, Get(inventory, symbol), round, eps);
      rows[i] := r;
      next := inventory[symbol := queue];
    }
  }

  ghost function Reported(rows: seq<Row>, round: real -> real, eps: real): (out: seq<Row>)
    requires eps >= 0.0
    ensures |out| == |rows| && forall k :: 0 <= k < |out| ==> out[k] == ReportAt(rows, k, round, eps)
  {
    seq(|rows|, k requires 0 <= k < |rows| => ReportAt(rows, k, round, eps))
  }

  lemma QueueStep(sorted: seq<Row>, k: nat, before: Inventory, next: Inventory, eps: real)
    requires eps >= 0.0 && k < |sorted|
    requires Queues(before, sorted, k, eps) && Moves(before, next, sorted[k], eps)
    ensures Queues(next, sorted, k + 1, eps)
  {
    hide StepQueue, Get;
    assert sorted[..k + 1][..k] == sorted[..k];
  }

  /** The first `k` rows in order are reported where they stand, and the queues are theirs. */
  ghost predicate Visited(was: seq<Row>, now: seq<Row>, inventory: Inventory, k: nat, round: real -> real, eps: real)
    requires eps >= 0.0 && k <= |was|
  {
    && now == Scatter(was, StableOrder(E.TimesOf(was)), Reported(E.Sorted(was), round, eps), k)
    && Queues(inventory, E.Sorted(was), k, eps)
  }

  lemma VisitedNone(was: seq<Row>, round: real -> real, eps: real)
    requires eps >= 0.0
    ensures Visited(was, was, map[], 0, round, eps)
  {
    hide QueueAfter, Get;
    NoQueues(eps);
  }

  lemma VisitedNext(was: seq<Row>, now: seq<Row>, after: seq<Row>, before: Inventory, next: Inventory, k: nat,
                    round: real -> real, eps: real)
    requires eps >= 0.0 && k < |was| == |now| && Visited(was, now, before, k, round, eps)
    requires var i := StableOrder(E.TimesOf(was))[k];
      && after == now[i := ReportOf(now[i], Get(before, Symbol(now[i])), round, eps)]
      && Moves(before, next, now[i], eps)
    ensures Visited(was, after, next, k + 1, round, eps)
  {
    var order, sorted := StableOrder(E.TimesOf(was)), E.Sorted(was);
    var out := Reported(sorted, round, eps);
    hide StableOrder, Reported, ReportOf, StepQueue, Get, QueueAfter, Queues, Moves, Scatter;
    NeverTwice(E.TimesOf(was));
    ScatterAt(was, order, out, k);
    ScatterStep(was, order, out, k);
    assert now[order[k]] == sorted[k];
    ReportedHere(before, sorted, k, round, eps);
    QueueStep(sorted, k, before, next, eps);
  }

  lemma VisitedAll(was: seq<Row>, now: seq<Row>, inventory: Inventory, round: real -> real, eps: real)
    requires eps >= 0.0 && Visited(was, now, inventory, |was|, round, eps)
    ensures var order := StableOrder(E.TimesOf(was));
      |now| == |was| && forall k :: 0 <= k < |was| ==> now[order[k]] == ReportAt(E.Sorted(was), k, round, eps)
    ensures forall symbol :: Get(inventory, symbol) == QueueAfter(E.Sorted(was), symbol, eps)
  {
    var order, sorted := StableOrder(E.TimesOf(was)), E.Sorted(was);
    hide StableOrder, ReportAt, Get, QueueAfter, Queues, Scatter;
    NeverTwice(E.TimesOf(was));
    ScatterAt(was, order, Reported(sorted, round, eps), |was|);
    AllQueues(inventory, sorted, eps);
  }

  /** The whole loop, over the rows sorted by time; each sell is reported where it stands. */
  method MatchReportRows(rows: array<Row>, round: real -> real, eps: real) returns (inventory: Inventory)
    requires eps >= 0.0
    modifies rows
    ensures var order := StableOrder(E.TimesOf(old(rows[..])));
      forall k :: 0 <= k < rows.Length ==> rows[order[k]] == ReportAt(E.Sorted(old(rows[..])), k, round, eps)
    ensures forall symbol :: Get(inventory, symbol) == QueueAfter(E.Sorted(old(rows[..])), symbol, eps)
  {
    inventory := map[];
    ghost var was := rows[..];
    var order := StableOrder(E.TimesOf(rows[..]));
    hide StableOrder, E.Sorted, ReportOf, ReportAt, Get, QueueAfter, Visited, Moves;
    VisitedNone(was, round, eps);
    for k := 0 to |order|
      invariant Visited(was, rows[..], inventory, k, round, eps)
    {
      ghost var now, before := rows[..], inventory;
      inventory := VisitRow(rows, order[k], inventory, round, eps);
      VisitedNext(was, now, rows[..], before, inventory, k, round, eps);
    }
    VisitedAll(was, rows[..], inventory, round, eps);
    forall k | 0 <= k < rows.Length ensures rows[order[k]] == ReportAt(E.Sorted(was), k, round, eps) {
      assert rows[order[k]] == rows[..][order[k]];
    }
  }

  lemma ReportedHere(inventory: Inventory, sorted: seq<Row>, k: nat, round: real -> real, eps: real)
    requires eps >= 0.0 && k < |sorted| && Queues(inventory, sorted, k, eps)
    ensures ReportOf(sorted[k], Get(inventory, Symbol(sorted[k])), round, eps) == Reported(sorted, round, eps)[k]
  {
    hide ReportOf, QueueAfter, Get;
  }

  lemma AllQueues(inventory: Inventory, sorted: seq<Row>, eps: real)
    requires eps >= 0.0 && Queues(inventory, sorted, |sorted|, eps)
    ensures forall symbol :: Get(inventory, symbol) == QueueAfter(sorted, symbol, eps)
  {
    assert sorted[..|sorted|] == sorted;
  }

  lemma NoQueues(eps: real)
    requires eps >= 0.0
    ensures forall symbol :: Get(map[], symbol) == QueueAfter([], symbol, eps)
  {
  }

  // ------------------------------------------------------------- agreement

  /** A row as the report builds it from an executed action: the price is a quotient of
      positive sums or missing, and nothing has been derived yet. */
  ghost predicate Fresh(x: Row) {
    && x.price >= 0.0 && !x.pnlAvailable && !x.closedTrade
    && x.entryActionId == "" && x.pnl == 0.0
    && x.context.openedAt == 0 && x.context.entryPrice == 0.0
  }

  /** Every sell of the symbol found enough earlier buys. */
  ghost predicate Covered(rows: seq<Row>, symbol: string, eps: real)
    requires eps >= 0.0
  {
    forall i :: 0 <= i < |rows| && Sells(rows[i]) && Symbol(rows[i]) == symbol ==>
      Full(Drain(Start(QueueAfter(rows[..i], symbol, eps), rows[i].qty), eps), eps)
  }

  lemma CoveredBefore(rows: seq<Row>, n: nat, symbol: string, eps: real)
    requires eps >= 0.0 && n <= |rows| && Covered(rows, symbol, eps)
    ensures Covered(rows[..n], symbol, eps)
  {
    hide Full, QueueAfter;
    var prior := rows[..n];
    forall i | 0 <= i < n && Sells(prior[i]) && Symbol(prior[i]) == symbol
      ensures Full(Drain(Start(QueueAfter(prior[..i], symbol, eps), prior[i].qty), eps), eps)
    {
      assert prior[..i] == rows[..i];
    }
  }

  lemma ReportedBefore(rows: seq<Row>, n: nat, round: real -> real, eps: real)
    requires eps >= 0.0 && n <= |rows|
    ensures Reported(rows, round, eps)[..n] == Reported(rows[..n], round, eps)
  {
    hide ReportOf;
    forall k | 0 <= k < n ensures Reported(rows, round, eps)[k] == Reported(rows[..n], round, eps)[k] {
      assert rows[..n][..k] == rows[..k];
    }
  }

  lemma {:induction false} QueuePositive(rows: seq<Row>, symbol: string, eps: real)
    requires eps >= 0.0
    ensures Positive(QueueAfter(rows, symbol, eps))
  {
    if rows != [] {
      var n := |rows| - 1;
      QueuePositive(rows[..n], symbol, eps);
      if Priced(rows[n]) {
        DrainRefines(Start(QueueAfter(rows[..n], symbol, eps), rows[n].qty), eps);
      }
    }
  }

  /** One reported row moves the ledger's buys as it moved the report's queue. */
  lemma LedgerFollows(x: Row, book: E.Book, round: real -> real, eps: real)
    requires eps >= 0.0 && Fresh(x)
    requires Sells(x) ==> Full(Drain(Start(book.buys, x.qty), eps), eps)
    ensures E.Step(book, ReportOf(x, book.buys, round, eps), eps).buys == StepQueue(book.buys, x, eps)
  {
    hide Drain;
    E.StepOnSide(book, ReportOf(x, book.buys, round, eps), E.Buy, eps);
  }

  /** Once the sells of a symbol are covered, the ledger reads the reported rows of one profile
      into the same queue of buys that the report had; other symbols play no part. */
  lemma {:induction false} SameQueues(rows: seq<Row>, profile: string, symbol: string, round: real -> real, eps: real)
    requires eps >= 0.0 && Covered(rows, symbol, eps)
    requires forall i :: 0 <= i < |rows| ==> Fresh(rows[i]) && rows[i].key.0 == profile
    ensures E.BookAfter(Reported(rows, round, eps), (profile, symbol), eps).buys == QueueAfter(rows, symbol, eps)
  {
    if rows != [] {
      var n := |rows| - 1;
      var prior := rows[..n];
      CoveredBefore(rows, n, symbol, eps);
      SameQueues(prior, profile, symbol, round, eps);
      ReportedBefore(rows, n, round, eps);
      if Symbol(rows[n]) == symbol {
        LedgerFollows(rows[n], E.BookAfter(Reported(prior, round, eps), (profile, symbol), eps), round, eps);
      }
      hide Covered, StepQueue, E.Step, ReportOf, Reported, Fresh;
      assert Reported(rows, round, eps)[n].key == rows[n].key by { ReportKeepsKey(rows, n, round, eps); }
    }
  }

  lemma ReportKeepsKey(rows: seq<Row>, k: nat, round: real -> real, eps: real)
    requires eps >= 0.0 && k < |rows|
    ensures ReportAt(rows, k, round, eps).key == rows[k].key
  {
  }

  lemma CoveredSellAgrees(x: Row, queue: seq<Lot>, round: real -> real, eps: real)
    requires eps >= 0.0 && Sells(x) && Fresh(x) && Full(Drain(Start(queue, x.qty), eps), eps)
    ensures var r := ReportOf(x, queue, round, eps);
      && E.Usable(r) && !E.Opens(r) && !E.Linked(r) && r.key == x.key && r.side == E.Sell && r.qty == x.qty
    ensures var r := ReportOf(x, queue, round, eps);
      var c := E.Annotate(r, queue, eps).context;
      && c.entryPrice == r.context.entryPrice && c.invested == r.context.invested
      && r.pnl == round(Proceeds(x) - c.invested)
  {
    var d := Drain(Start(queue, x.qty), eps);
    var r := ReportOf(x, queue, round, eps);
    assert r == Sold(x, d, round, eps) && r.qty == x.qty && !E.Linked(r);
    hide Drain;
    var c := E.FromMatch(r, d, eps);
    assert c.invested == d.cost && c.entryPrice == d.cost / d.matched;
    assert E.Annotate(r, queue, eps) == E.Closed(r, c);
  }

  /** The two matchers agree on every sell that is covered with all earlier sells of its symbol:
      the ledger gives it the entry price and the cost that the report gave it. */
  lemma MatchersAgree(rows: seq<Row>, i: nat, profile: string, round: real -> real, eps: real)
    requires eps >= 0.0 && i < |rows| && Sells(rows[i]) && Covered(rows[..i + 1], Symbol(rows[i]), eps)
    requires forall k :: 0 <= k < |rows| ==> Fresh(rows[k]) && rows[k].key.0 == profile
    ensures var x := ReportAt(rows, i, round, eps);
      var ledger := E.AnnotateIn(x, E.BookAfter(Reported(rows[..i], round, eps), x.key, eps), eps);
      && ledger.context.entryPrice == x.context.entryPrice
      && ledger.context.invested == x.context.invested
      && x.pnl == round(Proceeds(rows[i]) - ledger.context.invested)
  {
    var prior, symbol := rows[..i], Symbol(rows[i]);
    assert rows[..i + 1][..i] == prior && rows[..i + 1][i] == rows[i];
    CoveredBefore(rows[..i + 1], i, symbol, eps);
    hide Sold, Reported, QueueAfter, Fresh;
    SameQueues(prior, profile, symbol, round, eps);
    CoveredSellAgrees(rows[i], QueueAfter(prior, symbol, eps), round, eps);
    assert rows[i].key == (profile, symbol);
  }

  // ------------------------------------------------------------- total P&L

  /** Cost of the dust that a drain dropped. */
  ghost function DroppedValue(d: Draining, eps: real): real
    requires eps >= 0.0
    decreases |d.queue|, if d.remaining > eps then 1 else 0
  {
    if d.remaining <= eps || d.queue == [] then 0.0
    else
      var left := d.queue[0].qty - Min(d.remaining, d.queue[0].qty);
      (if left <= eps then Cost(left, d.queue[0].price) else 0.0) + DroppedValue(DrainStep(d, eps), eps)
  }

  lemma {:induction false} DrainConservesValue(d: Draining, eps: real)
    requires eps >= 0.0 && Positive(d.queue) && d.remaining >= 0.0
    ensures var r := Drain(d, eps);
      Value(d.queue) == (r.cost - d.cost) + Value(r.queue) + DroppedValue(d, eps)
    ensures eps == 0.0 ==> DroppedValue(d, eps) == 0.0
    decreases |d.queue|, if d.remaining > eps then 1 else 0
  {
    hide Cost;
    if d.remaining > eps && d.queue != [] {
      var lot, s := d.queue[0], DrainStep(d, eps);
      var take := Min(d.remaining, lot.qty);
      DrainConservesValue(s, eps);
      CostSplits(lot.qty, take, lot.price);
      if lot.qty - take > eps { assert s.queue[1..] == d.queue[1..]; }
    }
  }

  /** One figure for each row of a symbol, summed over the rows. */
  ghost function Sum(rows: seq<Row>, symbol: string, figure: (Row, seq<Lot>) -> real, eps: real): real
    requires eps >= 0.0
  {
    if rows == [] then 0.0
    else
      var n := |rows| - 1;
      var before := Sum(rows[..n], symbol, figure, eps);
      if Priced(rows[n]) && Symbol(rows[n]) == symbol
      then before + figure(rows[n], QueueAfter(rows[..n], symbol, eps)) else before
  }

  /** The figures: value traded on one side; cost of the dust a sell drops; and what a sell that
      is not covered brings beyond the cost it drains. */
  ghost function Traded(side: E.Side): (Row, seq<Lot>) -> real {
    (x: Row, queue: seq<Lot>) => if x.side == side then Proceeds(x) else 0.0
  }

  ghost function Dropped(eps: real): (Row, seq<Lot>) -> real
    requires eps >= 0.0
  {
    (x: Row, queue: seq<Lot>) => if x.side == E.Sell then DroppedValue(Start(queue, x.qty), eps) else 0.0
  }

  ghost function Unreported(eps: real): (Row, seq<Lot>) -> real
    requires eps >= 0.0
  {
    (x: Row, queue: seq<Lot>) =>
      var d := Drain(Start(queue, x.qty), eps);
      if x.side == E.Sell && !Full(d, eps) then Proceeds(x) - d.cost else 0.0
  }

  ghost predicate CoveredAt(rows: seq<Row>, k: nat, symbol: string, eps: real)
    requires eps >= 0.0 && k < |rows|
  {
    Sells(rows[k]) && Symbol(rows[k]) == symbol
    && Full(Drain(Start(QueueAfter(rows[..k], symbol, eps), rows[k].qty), eps), eps)
  }

  ghost function CoveredSells(rows: seq<Row>, symbol: string, eps: real): nat
    requires eps >= 0.0
  {
    if rows == [] then 0
    else CoveredSells(rows[..|rows| - 1], symbol, eps) + if CoveredAt(rows, |rows| - 1, symbol, eps) then 1 else 0
  }

  /** The P&L that the report shows for a symbol. */
  ghost function ShownPnl(out: seq<Row>, symbol: string): real {
    if out == [] then 0.0
    else
      var n := |out| - 1;
      ShownPnl(out[..n], symbol) + if Symbol(out[n]) == symbol then out[n].pnl else 0.0
  }

  ghost predicate RoundsWithin(round: real -> real, h: real) {
    forall x :: x - h <= round(x) <= x + h
  }

  /** What the shown P&L would be without rounding: sold less bought, plus the cost of what is
      still held and of the dust, less what uncovered sells brought beyond their drained cost. */
  ghost function ExactPnl(rows: seq<Row>, symbol: string, eps: real): real
    requires eps >= 0.0
  {
    Sum(rows, symbol, Traded(E.Sell), eps) - Sum(rows, symbol, Traded(E.Buy), eps)
      + Value(QueueAfter(rows, symbol, eps)) + Sum(rows, symbol, Dropped(eps), eps)
      - Sum(rows, symbol, Unreported(eps), eps)
  }

  lemma SellMovesExactPnl(x: Row, queue: seq<Lot>, eps: real)
    requires eps >= 0.0 && Positive(queue) && Sells(x)
    ensures var d := Drain(Start(queue, x.qty), eps);
      Traded(E.Sell)(x, queue) - Traded(E.Buy)(x, queue) + Value(d.queue) - Value(queue)
        + Dropped(eps)(x, queue) - Unreported(eps)(x, queue)
      == if Full(d, eps) then Proceeds(x) - d.cost else 0.0
  {
    hide Cost, Drain, DroppedValue;
    DrainConservesValue(Start(queue, x.qty), eps);
  }

  /** One more row moves the exact P&L by what its report would show without rounding. */
  lemma ExactPnlStep(rows: seq<Row>, symbol: string, eps: real)
    requires eps >= 0.0 && rows != []
    ensures var n := |rows| - 1;
      var x, queue := rows[n], QueueAfter(rows[..n], symbol, eps);
      ExactPnl(rows, symbol, eps) - ExactPnl(rows[..n], symbol, eps)
      == if CoveredAt(rows, n, symbol, eps)
         then Proceeds(x) - Drain(Start(queue, x.qty), eps).cost else 0.0
  {
    var n := |rows| - 1;
    var x, queue := rows[n], QueueAfter(rows[..n], symbol, eps);
    QueuePositive(rows[..n], symbol, eps);
    if Symbol(x) == symbol && Sells(x) {
      SellMovesExactPnl(x, queue, eps);
    } else if Symbol(x) == symbol && Priced(x) && x.side == E.Buy {
      TotalAppend(queue, [E.LotOf(x)]);
    }
  }

  lemma ShownRow(x: Row, queue: seq<Lot>, round: real -> real, eps: real)
    requires eps >= 0.0 && x.pnl == 0.0
    ensures var d, r := Drain(Start(queue, x.qty), eps), ReportOf(x, queue, round, eps);
      && Symbol(r) == Symbol(x)
      && r.pnl == if Sells(x) && Full(d, eps) then round(Proceeds(x) - d.cost) else 0.0
  {
    hide Drain;
  }

  lemma ShownPnlStep(rows: seq<Row>, symbol: string, round: real -> real, eps: real)
    requires eps >= 0.0 && rows != [] && rows[|rows| - 1].pnl == 0.0
    ensures var n := |rows| - 1;
      var x, queue := rows[n], QueueAfter(rows[..n], symbol, eps);
      ShownPnl(Reported(rows, round, eps), symbol) - ShownPnl(Reported(rows[..n], round, eps), symbol)
      == if CoveredAt(rows, n, symbol, eps)
         then round(Proceeds(x) - Drain(Start(queue, x.qty), eps).cost) else 0.0
  {
    hide Drain, Full, ReportOf, QueueAfter, Proceeds, Sells, Reported;
    var n := |rows| - 1;
    ReportedBefore(rows, n, round, eps);
    ShownRow(rows[n], QueueAfter(rows[..n], Symbol(rows[n]), eps), round, eps);
    var out := Reported(rows, round, eps);
    assert out[n] == ReportAt(rows, n, round, eps);
    assert out[..n] == Reported(rows[..n], round, eps);
  }

  /** Over any run the shown P&L is the exact one, up to the rounding of each covered sell. */
  lemma {:induction false} PnlIsConserved(rows: seq<Row>, symbol: string, round: real -> real, h: real, eps: real)
    requires eps >= 0.0 && h >= 0.0 && RoundsWithin(round, h)
    requires forall i :: 0 <= i < |rows| ==> rows[i].pnl == 0.0
    ensures var error := ShownPnl(Reported(rows, round, eps), symbol) - ExactPnl(rows, symbol, eps);
      -Slack(h, CoveredSells(rows, symbol, eps)) <= error <= Slack(h, CoveredSells(rows, symbol, eps))
  {
    if rows == [] {
      SlackAdds(h, 0, 0);
    } else {
      PnlIsConserved(rows[..|rows| - 1], symbol, round, h, eps);
      OneMoreRow(rows, symbol, round, h, eps);
    }
  }

  lemma OneMoreRow(rows: seq<Row>, symbol: string, round: real -> real, h: real, eps: real)
    requires eps >= 0.0 && h >= 0.0 && RoundsWithin(round, h) && rows != [] && rows[|rows| - 1].pnl == 0.0
    ensures var prior := rows[..|rows| - 1];
      var more := ShownPnl(Reported(rows, round, eps), symbol) - ShownPnl(Reported(prior, round, eps), symbol);
      var exact := ExactPnl(rows, symbol, eps) - ExactPnl(prior, symbol, eps);
      var slack := Slack(h, CoveredSells(rows, symbol, eps)) - Slack(h, CoveredSells(prior, symbol, eps));
      -slack <= more - exact <= slack
  {
    hide Slack, ExactPnl, ShownPnl, Reported, CoveredAt, QueueAfter, Drain, Cost, Proceeds;
    var n := |rows| - 1;
    var gain := Proceeds(rows[n]) - Drain(Start(QueueAfter(rows[..n], symbol, eps), rows[n].qty), eps).cost;
    assert gain - h <= round(gain) <= gain + h;
    ExactPnlStep(rows, symbol, eps);
    ShownPnlStep(rows, symbol, round, eps);
    SlackAdds(h, CoveredSells(rows[..n], symbol, eps), 1);
    hide RoundsWithin;
  }

  lemma {:induction false} NothingUnreported(rows: seq<Row>, symbol: string, eps: real)
    requires eps >= 0.0 && Covered(rows, symbol, eps)
    ensures Sum(rows, symbol, Unreported(eps), eps) == 0.0
  {
    hide Drain;
    if rows != [] {
      CoveredBefore(rows, |rows| - 1, symbol, eps);
      NothingUnreported(rows[..|rows| - 1], symbol, eps);
    }
  }

  lemma {:induction false} NothingDropped(rows: seq<Row>, symbol: string)
    ensures Sum(rows, symbol, Dropped(0.0), 0.0) == 0.0
  {
    if rows != [] {
      var n := |rows| - 1;
      NothingDropped(rows[..n], symbol);
      QueuePositive(rows[..n], symbol, 0.0);
      if Sells(rows[n]) && Symbol(rows[n]) == symbol {
        DrainConservesValue(Start(QueueAfter(rows[..n], symbol, 0.0), rows[n].qty), 0.0);
      }
    }
  }

  /** With every sell covered, exact rounding and no dust, the shown P&L of a symbol is what was
      sold, less what was bought, plus the cost of what is still held. */
  lemma CoveredPnlIsConserved(rows: seq<Row>, symbol: string, round: real -> real)
    requires Covered(rows, symbol, 0.0) && RoundsWithin(round, 0.0)
    requires forall i :: 0 <= i < |rows| ==> rows[i].pnl == 0.0
    ensures ShownPnl(Reported(rows, round, 0.0), symbol)
         == Sum(rows, symbol, Traded(E.Sell), 0.0) - Sum(rows, symbol, Traded(E.Buy), 0.0)
            + Value(QueueAfter(rows, symbol, 0.0))
  {
    PnlIsConserved(rows, symbol, round, 0.0, 0.0);
    NothingUnreported(rows, symbol, 0.0);
    NothingDropped(rows, symbol);
    assert Slack(0.0, CoveredSells(rows, symbol, 0.0)) == 0.0;
    hide Slack, Sum, ShownPnl, Reported, QueueAfter, Covered;
  }

  // ------------------------------------------------------- what a sell shows

  /** What the report writes into a sell: full cover gives the rounded proceeds less the cost of the
      first slice of its symbol's queue; any visit gives the first lot's time. */
  lemma SellFigures(rows: seq<Row>, k: nat, round: real -> real, eps: real) returns (matched: real)
    requires eps >= 0.0 && k < |rows|
    requires rows[k].side == E.Sell && rows[k].price != 0.0 && rows[k].qty > 0.0
    ensures var x, r, queue := rows[k], ReportAt(rows, k, round, eps), QueueAfter(rows[..k], rows[k].key.1, eps);
      && 0.0 <= matched <= Min(x.qty, Total(queue)) <= matched + eps
      && r == x.(pnl := r.pnl, pnlAvailable := r.pnlAvailable, context := r.context)
      && r.context == x.context.(entryPrice := r.context.entryPrice, invested := r.context.invested,
                                 openedAt := r.context.openedAt)
      && r.context.openedAt == (if x.qty > eps && queue != [] then queue[0].time else x.context.openedAt)
      && (if matched > 0.0 && x.qty - matched <= eps then
            && r.pnlAvailable && r.pnl == round(Cost(x.qty, x.price) - CostOf(queue, matched))
            && r.context.invested == CostOf(queue, matched)
            && r.context.entryPrice == CostOf(queue, matched) / matched
          else
            && r.pnlAvailable == x.pnlAvailable && r.pnl == x.pnl
            && r.context.invested == x.context.invested && r.context.entryPrice == x.context.entryPrice)
  {
    var x, queue := rows[k], QueueAfter(rows[..k], rows[k].key.1, eps);
    var d := Start(queue, x.qty);
    QueuePositive(rows[..k], rows[k].key.1, eps);
    DrainRefines(d, eps);
    DrainRecordsPrefix(d, eps);
    FirstTime(queue, x.qty, eps);
    matched := Drain(d, eps).matched;
    hide Drain, QueueAfter, CostOf, Cost, After, Visits, Times, Actions, Total, Slack;
  }

  lemma FirstTime(queue: seq<Lot>, qty: real, eps: real)
    requires eps >= 0.0 && Positive(queue) && qty > 0.0
    ensures var times := Drain(Start(queue, qty), eps).times;
      if qty > eps && queue != [] then times != [] && times[0] == queue[0].time else times == []
  {
    DrainRecordsPrefix(Start(queue, qty), eps);
    if qty > eps && queue != [] {
      var n := Visits(Start(queue, qty), eps);
      assert n >= 1 by { hide Cost, Drain; }
      hide Drain, Visits;
      assert queue[..n][0] == queue[0];
    }
  }

  /** Other rows stay as they are; a priced buy opens a lot of its own figures. */
  lemma OtherRowsStay(rows: seq<Row>, k: nat, round: real -> real, eps: real)
    requires eps >= 0.0 && k < |rows|
    ensures rows[k].side != E.Sell || rows[k].price == 0.0 || rows[k].qty <= 0.0 ==>
      ReportAt(rows, k, round, eps) == rows[k]
    ensures var x, queue := rows[k], QueueAfter(rows[..k], rows[k].key.1, eps);
      rows[k].side == E.Buy && rows[k].price != 0.0 && rows[k].qty > 0.0 ==>
        QueueAfter(rows[..k + 1], rows[k].key.1, eps) == queue + [Lot(x.qty, x.price, x.time, x.auditActionId)]
  {
    assert rows[..k + 1][..k] == rows[..k];
  }
}
