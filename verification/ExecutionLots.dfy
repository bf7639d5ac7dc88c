/** The execution ledger of `_pair_execution_lots`: per (profile, symbol) a two-sided
    first-in first-out queue of open lots.  `eps` stands for the dust threshold. */
module ExecutionLots {
  import opened Wrappers
  import opened Lots
  import opened Ordering
  import opened RealArith

  datatype Side = Buy | Sell | Other

  type Key = (string, string)

  /** What the ledger adds to a row about its entry. */
  datatype Context = Context(entryPrice: real, invested: real, openedAt: int, openedSource: string,
                             entryActions: Option<set<string>>, closedAt: int, duration: Option<int>,
                             returnPct: Option<real>)

  /** A ledger row: what the broker reported, and the entry context.
      Absent text is "", absent numbers that the code tests for truth are 0. */
  datatype Row = Row(
    key: Key, side: Side, qty: real, price: real, time: int,
    pnlAvailable: bool, pnl: real, closedTrade: bool, auditActionId: string,
    entryActionId: string, linkedEntryPrice: real, linkedEntryTime: int, linkedSource: string, context: Context)

  /** Open lots of one key. */
  datatype Book = Book(buys: seq<Lot>, sells: seq<Lot>) {
    function Queue(s: Side): seq<Lot> {
      if s == Buy then buys else if s == Sell then sells else []
    }

    function With(s: Side, lots: seq<Lot>): Book {
      if s == Buy then this.(buys := lots) else if s == Sell then this.(sells := lots) else this
    }
  }

  type Inventory = map<Key, Book>

  const EMPTY := Book([], [])

  function Get(inventory: Inventory, key: Key): Book {
    if key in inventory then inventory[key] else EMPTY
  }

  function Opposite(s: Side): Side {
    if s == Buy then Sell else Buy
  }

  predicate Usable(row: Row) {
    row.side != Other && row.qty > 0.0 && row.price > 0.0
  }

  predicate Opens(row: Row) {
    !row.pnlAvailable && !row.closedTrade
  }

  predicate Linked(row: Row) {
    row.entryActionId != "" && row.linkedEntryPrice != 0.0 && row.linkedEntryTime != 0
  }

  function LotOf(row: Row): Lot {
    Lot(row.qty, row.price, row.time, row.auditActionId)
  }

  // ------------------------------------------------------------ linked exits

  function RemoveFirst(lots: seq<Lot>, x: Lot): seq<Lot>
    requires x in lots
  {
    if lots[0] == x then lots[1..] else [lots[0]] + RemoveFirst(lots[1..], x)
  }

  lemma {:induction false} RemoveFirstAt(lots: seq<Lot>, i: nat)
    requires i < |lots| && lots[i] !in lots[..i]
    ensures RemoveFirst(lots, lots[i]) == lots[..i] + lots[i + 1..]
  {
    if i > 0 {
      assert lots[1..][..i - 1] == lots[..i][1..];
      assert lots[0] == lots[..i][0];
      RemoveFirstAt(lots[1..], i - 1);
    }
  }

  /** What the loop leaves of one lot of the entry: nothing once only dust remains. */
  function Reduced(lot: Lot, take: real, eps: real): seq<Lot> {
    if lot.qty - take <= eps then [] else [lot.(qty := lot.qty - take)]
  }

  /** What a linked exit leaves of a queue: it reduces only the lots of its own entry,
      oldest first, until the quantity is used up. */
  ghost function Unlink(lots: seq<Lot>, action: string, wanted: real, eps: real): seq<Lot> {
    if lots == [] then []
    else if lots[0].action != action then [lots[0]] + Unlink(lots[1..], action, wanted, eps)
    else
      var take := Min(wanted, lots[0].qty);
      Reduced(lots[0], take, eps)
      + (if wanted - take <= eps then lots[1..] else Unlink(lots[1..], action, wanted - take, eps))
  }

  /** Quantity that a linked exit takes from the lots of its entry. */
  ghost function Unlinked(lots: seq<Lot>, action: string, wanted: real, eps: real): real {
    if lots == [] then 0.0
    else if lots[0].action != action then Unlinked(lots[1..], action, wanted, eps)
    else
      var take := Min(wanted, lots[0].qty);
      take + (if wanted - take <= eps then 0.0 else Unlinked(lots[1..], action, wanted - take, eps))
  }

  /** One lot in the middle of the live queue is reduced, and removed by equality once
      only dust is left.  No earlier lot has its entry, so it is the one removed. */
  method ReduceAt(live: seq<Lot>, at: nat, take: real, eps: real) returns (r: seq<Lot>)
    requires at < |live| && forall l :: l in live[..at] ==> l.action != live[at].action
    ensures r == live[..at] + Reduced(live[at], take, eps) + live[at + 1..]
  {
    r := live[at := live[at].(qty := live[at].qty - take)];
    assert r[..at] == live[..at];
    if r[at].qty <= eps {
      RemoveFirstAt(r, at);
      r := RemoveFirst(r, r[at]);
    }
  }

  lemma UnlinkRound(kept: seq<Lot>, todo: seq<Lot>, action: string, wanted: real, eps: real)
    requires todo != []
    ensures todo[0].action != action ==>
      kept + Unlink(todo, action, wanted, eps) == (kept + [todo[0]]) + Unlink(todo[1..], action, wanted, eps)
    ensures todo[0].action == action && wanted - Min(wanted, todo[0].qty) > eps >= 0.0 ==>
      && Reduced(todo[0], Min(wanted, todo[0].qty), eps) == []
      && Unlink(todo, action, wanted, eps) == Unlink(todo[1..], action, wanted - Min(wanted, todo[0].qty), eps)
    ensures todo[0].action == action && wanted - Min(wanted, todo[0].qty) <= eps ==>
      kept + Unlink(todo, action, wanted, eps)
        == kept + Reduced(todo[0], Min(wanted, todo[0].qty), eps) + todo[1..]
  {
  }

  lemma SplitAt(live: seq<Lot>, kept: seq<Lot>, todo: seq<Lot>)
    requires live == kept + todo && todo != []
    ensures live[..|kept|] == kept && live[|kept|] == todo[0] && live[|kept| + 1..] == todo[1..]
    ensures live == (kept + [todo[0]]) + todo[1..]
  {
  }

  /** The loop over a snapshot that reduces and removes lots of the live queue. */
  method UnlinkEntry(lots: seq<Lot>, action: string, qty: real, eps: real) returns (live: seq<Lot>)
    requires eps >= 0.0 && qty > 0.0
    ensures live == Unlink(lots, action, qty, eps)
  {
    hide Unlink, Reduced, Min;
    live := lots;
    var remaining := qty;
    var j := 0;
    ghost var kept: seq<Lot>, todo := [], lots;
    while j < |lots|
      invariant 0 <= j <= |lots| && todo == lots[j..]
      invariant live == kept + todo
      invariant forall l :: l in kept ==> l.action != action
      invariant Unlink(lots, action, qty, eps) == kept + Unlink(todo, action, remaining, eps)
    {
      var at := |live| - (|lots| - j);
      SplitAt(live, kept, todo);
      UnlinkRound(kept, todo, action, remaining, eps);
      if live[at].action != action {
        kept := kept + [live[at]];
      } else {
        var take := Min(remaining, live[at].qty);
        live := ReduceAt(live, at, take, eps);
        remaining := remaining - take;
        if remaining <= eps { return; }
        assert live == kept + todo[1..];
      }
      assert lots[j..][1..] == lots[j + 1..];
      todo := todo[1..];
      j := j + 1;
    }
    assert Unlink(todo, action, remaining, eps) == [] by { UnlinkNothing(action, remaining, eps); }
  }

  lemma UnlinkNothing(action: string, wanted: real, eps: real)
    ensures Unlink([], action, wanted, eps) == []
  {
  }

  ghost function Others(lots: seq<Lot>, action: string): seq<Lot> {
    if lots == [] then []
    else (if lots[0].action == action then [] else [lots[0]]) + Others(lots[1..], action)
  }

  lemma {:induction false} OthersAppend(a: seq<Lot>, b: seq<Lot>, action: string)
    ensures Others(a + b, action) == Others(a, action) + Others(b, action)
  {
    if a == [] {
      assert a + b == b;
    } else {
      assert (a + b)[1..] == a[1..] + b;
      OthersAppend(a[1..], b, action);
    }
  }

  lemma ReducedIsOwn(lot: Lot, take: real, eps: real)
    ensures Others(Reduced(lot, take, eps), lot.action) == []
  {
  }

  /** A linked exit leaves every lot of another entry untouched and in order. */
  lemma {:induction false} LinkedExitSparesOthers(lots: seq<Lot>, action: string, wanted: real, eps: real)
    ensures Others(Unlink(lots, action, wanted, eps), action) == Others(lots, action)
  {
    if lots == [] {
    } else if lots[0].action != action {
      LinkedExitSparesOthers(lots[1..], action, wanted, eps);
      OthersAppend([lots[0]], Unlink(lots[1..], action, wanted, eps), action);
    } else {
      hide Reduced, Min;
      var take := Min(wanted, lots[0].qty);
      LinkedExitSparesOthers(lots[1..], action, wanted - take, eps);
      ReducedIsOwn(lots[0], take, eps);
      var tail := if wanted - take <= eps then lots[1..] else Unlink(lots[1..], action, wanted - take, eps);
      OthersAppend(Reduced(lots[0], take, eps), tail, action);
    }
  }

  lemma {:induction false} LinkedExitStaysPositive(lots: seq<Lot>, action: string, wanted: real, eps: real)
    requires eps >= 0.0 && Positive(lots) && wanted >= 0.0
    ensures Positive(Unlink(lots, action, wanted, eps))
    ensures 0.0 <= Unlinked(lots, action, wanted, eps) <= wanted
  {
    if lots != [] {
      var take := if lots[0].action != action then 0.0 else Min(wanted, lots[0].qty);
      LinkedExitStaysPositive(lots[1..], action, wanted - take, eps);
    }
  }

  /** Between two queues nothing but dust was lost: at most `eps` per dropped lot. */
  ghost predicate LosesDust(before: seq<Lot>, taken: real, after: seq<Lot>, eps: real) {
    |after| <= |before| && 0.0 <= Total(before) - taken - Total(after) <= Slack(eps, |before| - |after|)
  }

  lemma LosesDustBehind(lot: Lot, take: real, rest: seq<Lot>, taken: real, after: seq<Lot>, eps: real)
    requires eps >= 0.0 && 0.0 <= take <= lot.qty && LosesDust(rest, taken, after, eps)
    ensures LosesDust([lot] + rest, take + taken, Reduced(lot, take, eps) + after, eps)
  {
    hide Slack;
    var head := Reduced(lot, take, eps);
    TotalAppend(head, after);
    TotalAppend([lot], rest);
    SlackAdds(eps, |rest| - |after|, 1 - |head|);
  }

  lemma {:induction false} LinkedExitConserves(lots: seq<Lot>, action: string, wanted: real, eps: real)
    requires eps >= 0.0 && Positive(lots) && wanted >= 0.0
    ensures LosesDust(lots, Unlinked(lots, action, wanted, eps), Unlink(lots, action, wanted, eps), eps)
  {
    hide Slack;
    SlackAdds(eps, 0, 0);
    if lots != [] {
      var lot, rest := lots[0], lots[1..];
      assert lots == [lot] + rest;
      if lot.action != action {
        LinkedExitConserves(rest, action, wanted, eps);
        TotalAppend([lot], Unlink(rest, action, wanted, eps));
      } else {
        var take := Min(wanted, lot.qty);
        if wanted - take <= eps {
          assert LosesDust(rest, 0.0, rest, eps);
          LosesDustBehind(lot, take, rest, 0.0, rest, eps);
        } else {
          LinkedExitConserves(rest, action, wanted - take, eps);
          LosesDustBehind(lot, take, rest, Unlinked(rest, action, wanted - take, eps),
                          Unlink(rest, action, wanted - take, eps), eps);
        }
      }
    }
  }

  // ------------------------------------------------------------- one row

  /** The FIFO loop of the ledger. */
  method DrainQueue(lots: seq<Lot>, qty: real, eps: real)
    returns (queue: seq<Lot>, remaining: real, cost: real, matched: real, times: seq<int>, actions: seq<string>)
    requires eps >= 0.0
    ensures Draining(queue, remaining, cost, matched, times, actions) == Drain(Start(lots, qty), eps)
  {
    hide Cost;
    queue, remaining, cost, matched, times, actions := lots, qty, 0.0, 0.0, [], [];
    while remaining > eps && queue != []
      invariant Drain(Draining(queue, remaining, cost, matched, times, actions), eps) == Drain(Start(lots, qty), eps)
      decreases |queue|, if remaining > eps then 1 else 0
    {
      ghost var d := Draining(queue, remaining, cost, matched, times, actions);
      var lot := queue[0];
      var take := Min(remaining, lot.qty);
      cost, matched := cost + Cost(take, lot.price), matched + take;
      times, actions := times + [lot.time], actions + [lot.action];
      queue := [lot.(qty := lot.qty - take)] + queue[1..];
      remaining := remaining - take;
      if queue[0].qty <= eps { queue := queue[1..]; }
      assert Draining(queue, remaining, cost, matched, times, actions) == DrainStep(d, eps);
    }
  }

  function Earliest(times: seq<int>): (t: int)
    requires times != []
    ensures t in times && forall u :: u in times ==> t <= u
  {
    if |times| == 1 then times[0]
    else
      var t := Earliest(times[1..]);
      assert times == [times[0]] + times[1..];
      if times[0] <= t then times[0] else t
  }

  function Seconds(from: int, to: int): int {
    if (to - from) / 1000 > 0 then (to - from) / 1000 else 0
  }

  /** The entry context of a closing row that drained `d` from the opposite queue. */
  function FromMatch(row: Row, d: Draining, eps: real): Context {
    var c := row.context;
    if d.matched > 0.0 then
      c.(entryPrice := d.cost / d.matched, invested := d.cost,
         openedAt := if d.times == [] then 0 else Earliest(d.times),
         entryActions := if d.remaining <= eps && "" !in d.actions
                         then Some(set a | a in d.actions) else c.entryActions)
    else if c.entryPrice != 0.0 then c.(invested := row.qty * c.entryPrice)
    else c
  }

  function FromLink(row: Row): Context {
    row.context.(entryPrice := row.linkedEntryPrice, invested := row.qty * row.linkedEntryPrice,
                 openedAt := row.linkedEntryTime, openedSource := row.linkedSource,
                 entryActions := Some({row.entryActionId}))
  }

  function Return(row: Row, invested: real): Option<real> {
    if row.pnlAvailable && invested != 0.0 then Some(RoundTo4(row.pnl / invested * 100.0)) else None
  }

  function Closed(row: Row, c: Context): Row {
    row.(context := c.(closedAt := row.time,
                       duration := if c.openedAt == 0 then None else Some(Seconds(c.openedAt, row.time)),
                       returnPct := Return(row, c.invested)))
  }

  /** A closing row with its entry context, given the queue of the opposite side. */
  function Annotate(row: Row, queue: seq<Lot>, eps: real): Row
    requires eps >= 0.0
  {
    Closed(row, if Linked(row) then FromLink(row) else FromMatch(row, Drain(Start(queue, row.qty), eps), eps))
  }

  function AnnotateIn(row: Row, book: Book, eps: real): Row
    requires eps >= 0.0
  {
    if Usable(row) && !Opens(row) then Annotate(row, book.Queue(Opposite(row.side)), eps) else row
  }

  ghost function Step(book: Book, row: Row, eps: real): Book
    requires eps >= 0.0
  {
    if !Usable(row) then book
    else if Opens(row) then book.With(row.side, book.Queue(row.side) + [LotOf(row)])
    else
      var o := Opposite(row.side);
      book.With(o, LeftBy(row, book.Queue(o), eps))
  }

  /** What a closing row leaves of the opposite queue. */
  ghost function LeftBy(row: Row, queue: seq<Lot>, eps: real): seq<Lot>
    requires eps >= 0.0
  {
    if Linked(row) then Unlink(queue, row.entryActionId, row.qty, eps)
    else Drain(Start(queue, row.qty), eps).queue
  }

  lemma StepOnSide(book: Book, row: Row, side: Side, eps: real)
    requires eps >= 0.0 && side != Other
    ensures Step(book, row, eps).Queue(side) ==
      if !Usable(row) then book.Queue(side)
      else if Opens(row) then
        if row.side == side then book.Queue(side) + [LotOf(row)] else book.Queue(side)
      else if Opposite(row.side) == side then LeftBy(row, book.Queue(side), eps)
      else book.Queue(side)
  {
  }

  /** The book of `key` after `rows`: rows of other keys play no part in it. */
  ghost function BookAfter(rows: seq<Row>, key: Key, eps: real): Book
    requires eps >= 0.0
  {
    if rows == [] then EMPTY
    else
      var n := |rows| - 1;
      var b := BookAfter(rows[..n], key, eps);
      if rows[n].key == key then Step(b, rows[n], eps) else b
  }

  ghost predicate PositiveBook(b: Book) {
    Positive(b.buys) && Positive(b.sells)
  }

  lemma StepPositive(b: Book, row: Row, eps: real)
    requires eps >= 0.0 && PositiveBook(b)
    ensures PositiveBook(Step(b, row, eps))
  {
    if Usable(row) && !Opens(row) {
      var q := b.Queue(Opposite(row.side));
      if Linked(row) {
        LinkedExitStaysPositive(q, row.entryActionId, row.qty, eps);
      } else {
        DrainRefines(Start(q, row.qty), eps);
      }
    }
  }

  lemma {:induction false} LotsStayPositive(rows: seq<Row>, key: Key, eps: real)
    requires eps >= 0.0
    ensures PositiveBook(BookAfter(rows, key, eps))
  {
    if rows != [] {
      var n := |rows| - 1;
      LotsStayPositive(rows[..n], key, eps);
      StepPositive(BookAfter(rows[..n], key, eps), rows[n], eps);
    }
  }

  /** The entry context of a closing row and what it leaves of the opposite queue. */
  method CloseRow(row: Row, lots: seq<Lot>, eps: real) returns (c: Context, queue: seq<Lot>)
    requires eps >= 0.0 && Positive(lots) && row.qty > 0.0
    ensures c == if Linked(row) then FromLink(row) else FromMatch(row, Drain(Start(lots, row.qty), eps), eps)
    ensures queue == LeftBy(row, lots, eps)
  {
    hide Unlink, Earliest, Drain;
    c := row.context;
    if Linked(row) {
      queue := UnlinkEntry(lots, row.entryActionId, row.qty, eps);
      c := c.(entryPrice := row.linkedEntryPrice, invested := row.qty * row.linkedEntryPrice,
              openedAt := row.linkedEntryTime, openedSource := row.linkedSource,
              entryActions := Some({row.entryActionId}));
    } else {
      var remaining, cost, matched, times, actions;
      queue, remaining, cost, matched, times, actions := DrainQueue(lots, row.qty, eps);
      ghost var d := Drain(Start(lots, row.qty), eps);
      assert d == Draining(queue, remaining, cost, matched, times, actions);
      if matched > 0.0 {
        c := c.(entryPrice := cost / matched, invested := cost, openedAt := if times == [] then 0 else Earliest(times));
        if remaining <= eps && "" !in actions {
          c := c.(entryActions := Some(set a | a in actions));
        }
      } else if c.entryPrice != 0.0 {
        c := c.(invested := row.qty * c.entryPrice);
      }
      assert c == FromMatch(row, d, eps);
    }
  }

  /** One round of the pass: the row is annotated and the book of its key updated. */
  method PairRow(row: Row, book: Book, eps: real) returns (r: Row, after: Book)
    requires eps >= 0.0 && PositiveBook(book)
    ensures r == AnnotateIn(row, book, eps)
    ensures after == Step(book, row, eps)
  {
    hide Unlink, Drain, Seconds, Return, FromLink, FromMatch, LeftBy;
    r, after := row, book;
    if row.side == Other || row.qty <= 0.0 || row.price <= 0.0 { return; }
    if !row.pnlAvailable && !row.closedTrade {
      after := book.With(row.side, book.Queue(row.side) + [LotOf(row)]);
      return;
    }
    var o := Opposite(row.side);
    var c, queue := CloseRow(row, book.Queue(o), eps);
    after := book.With(o, queue);
    c := c.(closedAt := row.time);
    c := c.(duration := if c.openedAt == 0 then None else Some(Seconds(c.openedAt, c.closedAt)));
    c := c.(returnPct := Return(row, c.invested));
    r := r.(context := c);
  }

  function TimesOf(rows: seq<Row>): (t: seq<int>)
    ensures |t| == |rows|
  {
    seq(|rows|, i requires 0 <= i < |rows| => rows[i].time)
  }

  /** The rows in the order of a stable sort by time. */
  function Sorted(rows: seq<Row>): (r: seq<Row>)
    ensures |r| == |rows| && forall k :: 0 <= k < |r| ==> r[k] == rows[StableOrder(TimesOf(rows))[k]]
  {
    var order := StableOrder(TimesOf(rows));
    seq(|rows|, k requires 0 <= k < |rows| => rows[order[k]])
  }

  /** What the pass makes of the `k`-th row it visits. */
  ghost function Paired(sorted: seq<Row>, k: nat, eps: real): Row
    requires eps >= 0.0 && k < |sorted|
  {
    AnnotateIn(sorted[k], BookAfter(sorted[..k], sorted[k].key, eps), eps)
  }

  lemma BookStep(sorted: seq<Row>, k: nat, key: Key, eps: real)
    requires eps >= 0.0 && k < |sorted|
    ensures BookAfter(sorted[..k + 1], key, eps)
         == if sorted[k].key == key then Step(BookAfter(sorted[..k], key, eps), sorted[k], eps)
            else BookAfter(sorted[..k], key, eps)
  {
    assert sorted[..k + 1][..k] == sorted[..k];
  }

  ghost function PairedRows(sorted: seq<Row>, eps: real): (r: seq<Row>)
    requires eps >= 0.0
    ensures |r| == |sorted| && forall k :: 0 <= k < |r| ==> r[k] == Paired(sorted, k, eps)
  {
    seq(|sorted|, k requires 0 <= k < |sorted| => Paired(sorted, k, eps))
  }

  lemma InventoryStep(sorted: seq<Row>, k: nat, inventory: Inventory, book: Book, next: Inventory, eps: real)
    requires eps >= 0.0 && k < |sorted|
    requires forall key :: Get(inventory, key) == BookAfter(sorted[..k], key, eps)
    requires book == Step(BookAfter(sorted[..k], sorted[k].key, eps), sorted[k], eps)
    requires next == inventory[sorted[k].key := book]
    ensures forall key :: Get(next, key) == BookAfter(sorted[..k + 1], key, eps)
  {
    hide Step;
    forall key ensures Get(next, key) == BookAfter(sorted[..k + 1], key, eps) {
      BookStep(sorted, k, key, eps);
      assert Get(inventory, key) == BookAfter(sorted[..k], key, eps);
    }
  }

  /** One visit: the row is rewritten in place and its key's book replaced. */
  method VisitRow(rows: array<Row>, i: nat, inventory: Inventory, eps: real) returns (next: Inventory)
    requires eps >= 0.0 && i < rows.Length && PositiveBook(Get(inventory, rows[i].key))
    modifies rows
    ensures rows[..] == old(rows[..])[i := AnnotateIn(old(rows[i]), Get(inventory, old(rows[i]).key), eps)]
    ensures next == inventory[old(rows[i]).key := Step(Get(inventory, old(rows[i]).key), old(rows[i]), eps)]
  {
    hide AnnotateIn, Step, PositiveBook, Get;
    var key := rows[i].key;
    var row, book := PairRow(rows[i], Get(inventory, key), eps);
    rows[i] := row;
    next := inventory[key := book];
  }

  /** The whole pass, over the rows sorted by time; each is rewritten where it stands. */
  method PairExecutionLots(rows: array<Row>, eps: real) returns (inventory: Inventory)
    requires eps >= 0.0
    modifies rows
    ensures var order := StableOrder(TimesOf(old(rows[..])));
      forall k :: 0 <= k < rows.Length ==> rows[order[k]] == Paired(Sorted(old(rows[..])), k, eps)
    ensures forall key :: Get(inventory, key) == BookAfter(Sorted(old(rows[..])), key, eps)
  {
    inventory := map[];
    ghost var was := rows[..];
    var order := StableOrder(TimesOf(rows[..]));
    ghost var sorted := Sorted(was);
    ghost var out := PairedRows(sorted, eps);
    NeverTwice(TimesOf(was));
    hide AnnotateIn, Step, Sorted, TimesOf, StableOrder, PositiveBook, Get, Paired, PairedRows, Distinct;
    assert forall key :: Get(inventory, key) == BookAfter(sorted[..0], key, eps) by { EmptyInventory(); }
    for k := 0 to |order|
      invariant rows[..] == Scatter(was, order, out, k)
      invariant forall key :: Get(inventory, key) == BookAfter(sorted[..k], key, eps)
    {
      var i := order[k];
      assert rows[i] == rows[..][i] == sorted[k] by { ScatterAt(was, order, out, k); }
      var key := rows[i].key;
      LotsStayPositive(sorted[..k], key, eps);
      PairedIs(sorted, k, eps);
      ghost var before := inventory;
      inventory := VisitRow(rows, i, inventory, eps);
      InventoryStep(sorted, k, before, inventory[key], inventory, eps);
    }
    ScatterAt(was, order, out, |order|);
    assert sorted[..|order|] == sorted;
    forall k | 0 <= k < rows.Length ensures rows[order[k]] == out[k] {
      assert rows[order[k]] == rows[..][order[k]];
    }
  }

  lemma EmptyInventory()
    ensures forall key :: Get(map[], key) == EMPTY
  {
  }

  lemma PairedIs(sorted: seq<Row>, k: nat, eps: real)
    requires eps >= 0.0 && k < |sorted|
    ensures Paired(sorted, k, eps) == AnnotateIn(sorted[k], BookAfter(sorted[..k], sorted[k].key, eps), eps)
  {
  }

  // ------------------------------------------------------------ whole runs

  ghost predicate OpensOn(row: Row, key: Key, side: Side) {
    && row.key == key && row.side == side && side != Other && row.qty > 0.0 && row.price > 0.0
    && !row.pnlAvailable && !row.closedTrade
  }

  ghost predicate ClosesOn(row: Row, key: Key, side: Side) {
    && row.key == key && ((row.side == Buy && side == Sell) || (row.side == Sell && side == Buy))
    && row.qty > 0.0 && row.price > 0.0 && (row.pnlAvailable || row.closedTrade)
  }

  /** All lots ever opened on one side of one key, in opening order. */
  ghost function Opened(rows: seq<Row>, key: Key, side: Side): seq<Lot> {
    if rows == [] then []
    else
      var n := |rows| - 1;
      Opened(rows[..n], key, side) + (if OpensOn(rows[n], key, side)
        then [Lot(rows[n].qty, rows[n].price, rows[n].time, rows[n].auditActionId)] else [])
  }

  /** Quantity that the closing row takes from its queue. */
  ghost function TakenBy(row: Row, queue: seq<Lot>, eps: real): real
    requires eps >= 0.0
  {
    if Linked(row) then Unlinked(queue, row.entryActionId, row.qty, eps)
    else Drain(Start(queue, row.qty), eps).matched
  }

  /** Quantity that all closing rows took from one side of one key. */
  ghost function Consumed(rows: seq<Row>, key: Key, side: Side, eps: real): real
    requires eps >= 0.0
  {
    if rows == [] then 0.0
    else
      var n := |rows| - 1;
      Consumed(rows[..n], key, side, eps)
      + (if ClosesOn(rows[n], key, side) then TakenBy(rows[n], BookAfter(rows[..n], key, eps).Queue(side), eps)
        else 0.0)
  }

  lemma CloseConserves(row: Row, queue: seq<Lot>, eps: real)
    requires eps >= 0.0 && Positive(queue) && row.qty > 0.0
    ensures LosesDust(queue, TakenBy(row, queue, eps), LeftBy(row, queue, eps), eps)
  {
    if Linked(row) {
      LinkedExitConserves(queue, row.entryActionId, row.qty, eps);
    } else {
      DrainRefines(Start(queue, row.qty), eps);
    }
  }

  lemma LosesDustInTurn(openings: seq<Lot>, consumed: real, before: seq<Lot>, taken: real, after: seq<Lot>, eps: real)
    requires LosesDust(openings, consumed, before, eps) && LosesDust(before, taken, after, eps)
    ensures LosesDust(openings, consumed + taken, after, eps)
  {
    SlackAdds(eps, |openings| - |before|, |before| - |after|);
  }

  lemma LosesDustAppend(openings: seq<Lot>, consumed: real, before: seq<Lot>, lot: Lot, eps: real)
    requires LosesDust(openings, consumed, before, eps)
    ensures LosesDust(openings + [lot], consumed, before + [lot], eps)
  {
    TotalAppend(before, [lot]);
    TotalAppend(openings, [lot]);
  }

  lemma CloseLosesDust(openings: seq<Lot>, consumed: real, row: Row, queue: seq<Lot>, eps: real)
    requires eps >= 0.0 && Positive(queue) && row.qty > 0.0 && LosesDust(openings, consumed, queue, eps)
    ensures LosesDust(openings, consumed + TakenBy(row, queue, eps), LeftBy(row, queue, eps), eps)
  {
    hide TakenBy, LeftBy, LosesDust;
    CloseConserves(row, queue, eps);
    LosesDustInTurn(openings, consumed, queue, TakenBy(row, queue, eps), LeftBy(row, queue, eps), eps);
  }

  lemma EmptyLosesDust(eps: real)
    ensures LosesDust([], 0.0, [], eps)
  {
    SlackAdds(eps, 0, 0);
  }

  /** Conservation over any run: what was opened is consumed, still queued, or dust,
      and at most `eps` of dust per lot that left the queue. */
  lemma {:induction false} LedgerConserves(rows: seq<Row>, key: Key, side: Side, eps: real)
    requires eps >= 0.0 && side != Other
    ensures LosesDust(Opened(rows, key, side), Consumed(rows, key, side, eps),
                      BookAfter(rows, key, eps).Queue(side), eps)
  {
    hide TakenBy, LeftBy, LosesDust, Total, Step;
    if rows == [] {
      EmptyLosesDust(eps);
    } else {
      var n := |rows| - 1;
      var row, book := rows[n], BookAfter(rows[..n], key, eps);
      var openings, consumed := Opened(rows[..n], key, side), Consumed(rows[..n], key, side, eps);
      LedgerConserves(rows[..n], key, side, eps);
      LotsStayPositive(rows[..n], key, eps);
      StepOnSide(book, row, side, eps);
      if OpensOn(row, key, side) {
        LosesDustAppend(openings, consumed, book.Queue(side), LotOf(row), eps);
      } else if !ClosesOn(row, key, side) {
        assert Opened(rows, key, side) == openings;
      } else {
        assert Opened(rows, key, side) == openings;
        CloseLosesDust(openings, consumed, row, book.Queue(side), eps);
      }
    }
  }

  /** A linked exit takes from the lots of its own entry what a first-in first-out drain of these
      lots alone would take, oldest first.  (A quantity within `eps` is taken, too, where a drain
      would not begin.) */
  ghost function Owned(lots: seq<Lot>, action: string): seq<Lot> {
    if lots == [] then []
    else (if lots[0].action == action then [lots[0]] else []) + Owned(lots[1..], action)
  }

  lemma {:induction false} OwnedAppend(a: seq<Lot>, b: seq<Lot>, action: string)
    ensures Owned(a + b, action) == Owned(a, action) + Owned(b, action)
  {
    if a == [] {
      assert a + b == b;
    } else {
      assert (a + b)[1..] == a[1..] + b && (a + b)[0] == a[0];
      OwnedAppend(a[1..], b, action);
      var head := if a[0].action == action then [a[0]] else [];
      var x, y := Owned(a[1..], action), Owned(b, action);
      assert (head + x) + y == head + (x + y) && Owned(a, action) == head + x;
      hide Owned;
    }
  }

  lemma {:induction false} LinkedExitDrainsOwn(lots: seq<Lot>, action: string, wanted: real, eps: real)
    requires eps >= 0.0 && Positive(lots) && wanted > eps
    ensures var d := Drain(Start(Owned(lots, action), wanted), eps);
      && Owned(Unlink(lots, action, wanted, eps), action) == d.queue
      && Unlinked(lots, action, wanted, eps) == d.matched
    decreases lots, 1
  {
    hide Cost;
    if lots == [] {
    } else if lots[0].action != action {
      LinkedExitDrainsOwn(lots[1..], action, wanted, eps);
      assert Owned(lots, action) == Owned(lots[1..], action) && Owned([lots[0]], action) == [];
      hide Drain;
      OwnedAppend([lots[0]], Unlink(lots[1..], action, wanted, eps), action);
    } else {
      OwnLotDrains(lots, action, wanted, eps);
    }
  }

  lemma ReducedIsOwned(lot: Lot, take: real, eps: real)
    ensures Owned(Reduced(lot, take, eps), lot.action) == Reduced(lot, take, eps)
  {
  }

  lemma DrainFrom(d: Draining, queue: seq<Lot>, remaining: real, eps: real)
    requires eps >= 0.0 && d.queue == queue && d.remaining == remaining
    ensures Drain(d, eps).queue == Drain(Start(queue, remaining), eps).queue
    ensures Drain(d, eps).matched - d.matched == Drain(Start(queue, remaining), eps).matched
    decreases |queue|, if remaining > eps then 1 else 0
  {
    hide Cost;
    if remaining > eps && queue != [] {
      var s := Start(queue, remaining);
      var x, y := DrainStep(d, eps), DrainStep(s, eps);
      DrainFrom(x, x.queue, x.remaining, eps);
      DrainFrom(y, x.queue, x.remaining, eps);
    }
  }

  lemma {:induction false} OwnLotDrains(lots: seq<Lot>, action: string, wanted: real, eps: real)
    requires eps >= 0.0 && Positive(lots) && wanted > eps && lots != [] && lots[0].action == action
    ensures var d := Drain(Start(Owned(lots, action), wanted), eps);
      && Owned(Unlink(lots, action, wanted, eps), action) == d.queue
      && Unlinked(lots, action, wanted, eps) == d.matched
    decreases lots, 0
  {
    hide Unlink, Unlinked, Owned, Drain, DrainStep, Reduced;
    var lot, rest, take := lots[0], lots[1..], Min(wanted, lots[0].qty);
    var own := Owned(rest, action);
    OwnHead(lots, action, wanted, eps);
    var s := DrainStep(Start([lot] + own, wanted), eps);
    FirstDrain(lot, own, wanted, eps);
    ReducedIsOwned(lot, take, eps);
    if wanted - take <= eps {
      OwnedAppend(Reduced(lot, take, eps), rest, action);
    } else {
      OwnedAppend(Reduced(lot, take, eps), Unlink(rest, action, wanted - take, eps), action);
      DrainFrom(s, own, wanted - take, eps);
      LinkedExitDrainsOwn(rest, action, wanted - take, eps);
    }
  }

  lemma OwnHead(lots: seq<Lot>, action: string, wanted: real, eps: real)
    requires lots != [] && lots[0].action == action
    ensures var lot, rest, take := lots[0], lots[1..], Min(wanted, lots[0].qty);
      && Owned(lots, action) == [lot] + Owned(rest, action)
      && Unlink(lots, action, wanted, eps) == Reduced(lot, take, eps)
           + (if wanted - take <= eps then rest else Unlink(rest, action, wanted - take, eps))
      && Unlinked(lots, action, wanted, eps)
         == take + (if wanted - take <= eps then 0.0 else Unlinked(rest, action, wanted - take, eps))
  {
  }

  lemma FirstDrain(lot: Lot, own: seq<Lot>, wanted: real, eps: real)
    requires eps >= 0.0 && lot.qty > 0.0 && wanted > eps
    ensures var take, s := Min(wanted, lot.qty), DrainStep(Start([lot] + own, wanted), eps);
      && s.queue == Reduced(lot, take, eps) + own && s.remaining == wanted - take && s.matched == take
      && Drain(Start([lot] + own, wanted), eps) == Drain(s, eps)
      && (wanted - take <= eps ==> Drain(s, eps) == s) && (wanted - take > eps ==> s.queue == own)
  {
    hide Cost;
  }

  ghost predicate NoLinkedExit(rows: seq<Row>, key: Key) {
    forall i :: 0 <= i < |rows| && rows[i].key == key ==> !Linked(rows[i])
  }

  /** Units of the opened lots that have left the queue: matched, or dropped as dust. */
  ghost function Cursor(rows: seq<Row>, key: Key, side: Side, eps: real): real
    requires eps >= 0.0
  {
    Total(Opened(rows, key, side)) - Total(BookAfter(rows, key, eps).Queue(side))
  }

  lemma {:induction false} OpenedPositive(rows: seq<Row>, key: Key, side: Side)
    ensures Positive(Opened(rows, key, side))
  {
    if rows != [] { OpenedPositive(rows[..|rows| - 1], key, side); }
  }

  /** `queue` is what lies behind one cursor in `openings`. */
  ghost predicate Behind(openings: seq<Lot>, queue: seq<Lot>) {
    var m := Total(openings) - Total(queue);
    0.0 <= m <= Total(openings) && queue == After(openings, m)
  }

  lemma OpeningKeepsBehind(openings: seq<Lot>, queue: seq<Lot>, lot: Lot)
    requires Positive(openings) && lot.qty > 0.0 && Behind(openings, queue)
    ensures Behind(openings + [lot], queue + [lot])
  {
    TotalAppend(openings, [lot]);
    TotalAppend(queue, [lot]);
    AppendBehind(openings, lot, Total(openings) - Total(queue));
  }

  /** A drain moves the cursor past what was matched and what was dropped. */
  lemma CloseKeepsBehind(openings: seq<Lot>, queue: seq<Lot>, row: Row, eps: real)
    requires eps >= 0.0 && Positive(openings) && Behind(openings, queue) && row.qty > 0.0 && !Linked(row)
    ensures Behind(openings, LeftBy(row, queue, eps))
  {
    var m := Total(openings) - Total(queue);
    AfterTotal(openings, m);
    var d := Start(queue, row.qty);
    var r := Drain(d, eps);
    DrainRefines(d, eps);
    AfterAfter(openings, m, r.matched + Dust(d, r));
    TotalNonNegative(r.queue);
  }

  /** For a key without linked exits the queue always is the opened lots behind one
      cursor, whatever the interleaving of openings and closings. */
  lemma {:induction false} QueueIsBehindCursor(rows: seq<Row>, key: Key, side: Side, eps: real)
    requires eps >= 0.0 && side != Other && NoLinkedExit(rows, key)
    ensures Behind(Opened(rows, key, side), BookAfter(rows, key, eps).Queue(side))
  {
    if rows != [] {
      var n := |rows| - 1;
      var row, queue := rows[n], BookAfter(rows[..n], key, eps).Queue(side);
      var openings := Opened(rows[..n], key, side);
      QueueIsBehindCursor(rows[..n], key, side, eps);
      OpenedPositive(rows[..n], key, side);
      StepOnSide(BookAfter(rows[..n], key, eps), row, side, eps);
      if OpensOn(row, key, side) {
        OpeningKeepsBehind(openings, queue, LotOf(row));
      } else {
        assert Opened(rows, key, side) == openings;
        if ClosesOn(row, key, side) {
          CloseKeepsBehind(openings, queue, row, eps);
        }
      }
    }
  }

  /** What a closing row is told when it drains `queue`: it matches what it wants or what is
      there (up to `eps`) and gets the average price, cost and earliest time of `slice`; it names
      the entries of the slice when all it wants is matched and all of them are known. */
  ghost predicate ChargedSlice(row: Row, out: Context, queue: seq<Lot>, matched: real, slice: seq<Lot>, eps: real) {
    && 0.0 <= matched <= Min(row.qty, Total(queue)) <= matched + eps
    && slice <= queue && out.openedSource == row.context.openedSource && out.closedAt == row.time
    && (matched == 0.0 ==>
        && out.entryPrice == row.context.entryPrice && out.openedAt == row.context.openedAt
        && out.invested == if out.entryPrice != 0.0 then row.qty * out.entryPrice else row.context.invested)
    && out.entryActions == (if matched > 0.0 && row.qty - matched <= eps && "" !in Actions(slice)
                            then Some(set a | a in Actions(slice)) else row.context.entryActions)
    && (matched > 0.0 ==>
        && out.invested == CostOf(queue, matched)
        && out.entryPrice == out.invested / matched
        && slice != [] && Total(slice[..|slice| - 1]) < matched <= Total(slice)
        && out.openedAt in Times(slice) && (forall t :: t in Times(slice) ==> out.openedAt <= t))
  }

  lemma ContextOfMatch(row: Row, d: Draining, eps: real)
    requires d.matched > 0.0 && d.times != []
    ensures var c := Closed(row, FromMatch(row, d, eps)).context;
      && c.invested == d.cost && c.entryPrice == d.cost / d.matched
      && c.openedAt in d.times && (forall t :: t in d.times ==> c.openedAt <= t)
      && c.openedSource == row.context.openedSource && c.closedAt == row.time
      && c.entryActions == (if d.remaining <= eps && "" !in d.actions then Some(set a | a in d.actions)
                            else row.context.entryActions)
  {
  }

  lemma {:induction false} TimesLength(lots: seq<Lot>)
    ensures |Times(lots)| == |lots|
  {
    if lots != [] { TimesLength(lots[1..]); }
  }

  lemma ContextWithoutMatch(row: Row, d: Draining, eps: real)
    requires d.matched <= 0.0
    ensures var c := Closed(row, FromMatch(row, d, eps)).context;
      && c.entryPrice == row.context.entryPrice && c.openedAt == row.context.openedAt
      && c.invested == (if c.entryPrice != 0.0 then row.qty * c.entryPrice else row.context.invested)
      && c.openedSource == row.context.openedSource && c.closedAt == row.time
      && c.entryActions == row.context.entryActions
  {
  }

  lemma DrainIsChargedSlice(row: Row, queue: seq<Lot>, eps: real) returns (matched: real, slice: seq<Lot>)
    requires eps >= 0.0 && Positive(queue) && row.qty > 0.0 && !Linked(row)
    ensures ChargedSlice(row, Annotate(row, queue, eps).context, queue, matched, slice, eps)
  {
    hide Drain, Visits, Closed, FromMatch, Total, Times, Actions, CostOf;
    var d := Start(queue, row.qty);
    var r := Drain(d, eps);
    var k := Visits(d, eps);
    var out := Annotate(row, queue, eps).context;
    matched := r.matched;
    assert 0.0 <= matched <= Min(row.qty, Total(queue)) <= matched + eps && r.cost == CostOf(queue, matched)
      && r.remaining == row.qty - matched by {
      DrainRefines(d, eps);
    }
    assert k <= |queue| && (if k == 0 then matched == 0.0
                            else Total(queue[..k - 1]) < matched <= Total(queue[..k])) by {
      DrainMatchesPrefix(d, eps);
    }
    slice := queue[..k];
    if matched > 0.0 {
      assert r.times == Times(slice) && r.actions == Actions(slice) by { DrainRecordsPrefix(d, eps); }
      assert slice[..|slice| - 1] == queue[..k - 1];
      assert Times(slice) != [] by { TimesLength(slice); }
      ContextOfMatch(row, r, eps);
    } else {
      ContextWithoutMatch(row, r, eps);
    }
  }

  lemma SlicePriceWithin(price: real, queue: seq<Lot>, matched: real, slice: seq<Lot>, lo: real, hi: real)
    requires Positive(queue) && slice <= queue && 0.0 < matched <= Total(slice)
    requires price == CostOf(queue, matched) / matched && PricedWithin(slice, lo, hi)
    ensures lo <= price <= hi
  {
    hide Cost;
    assert slice == queue[..|slice|];
    CostWithinPrices(queue, matched, |slice|, lo, hi);
    CancelQuotient(lo, CostOf(queue, matched), hi, matched);
  }

  lemma SlicePrices(row: Row, out: Context, queue: seq<Lot>, matched: real, slice: seq<Lot>, eps: real)
    requires Positive(queue) && ChargedSlice(row, out, queue, matched, slice, eps) && matched > 0.0
    ensures forall lo, hi :: PricedWithin(slice, lo, hi) ==> lo <= out.entryPrice <= hi
  {
    forall lo, hi | PricedWithin(slice, lo, hi)
      ensures lo <= out.entryPrice <= hi
    {
      SlicePriceWithin(out.entryPrice, queue, matched, slice, lo, hi);
    }
  }

  /** The row is told about one slice of `openings` that starts at the cursor `m`: the
      invested amount is the step of the cumulative cost function over the matched
      quantity, and the entry price lies between the least and greatest price of the slice. */
  ghost predicate ChargedFrom(row: Row, out: Context, openings: seq<Lot>, m: real, matched: real, slice: seq<Lot>,
                              eps: real) {
    && ChargedSlice(row, out, After(openings, m), matched, slice, eps)
    && (matched > 0.0 ==>
        && out.invested == CostOf(openings, m + matched) - CostOf(openings, m)
        && forall lo, hi :: PricedWithin(slice, lo, hi) ==> lo <= out.entryPrice <= hi)
  }

  lemma BehindIsChargedFrom(openings: seq<Lot>, queue: seq<Lot>, row: Row, eps: real)
    returns (matched: real, slice: seq<Lot>)
    requires eps >= 0.0 && Positive(openings) && Behind(openings, queue) && row.qty > 0.0 && !Linked(row)
    ensures ChargedFrom(row, Annotate(row, queue, eps).context, openings,
                        Total(openings) - Total(queue), matched, slice, eps)
  {
    var m := Total(openings) - Total(queue);
    assert Positive(queue) by { AfterTotal(openings, m); }
    matched, slice := DrainIsChargedSlice(row, queue, eps);
    if matched > 0.0 {
      SlicePrices(row, Annotate(row, queue, eps).context, queue, matched, slice, eps);
      CostShift(openings, m, matched);
    }
  }

  /** FIFO refinement: for a key without linked exits, after any interleaving of openings
      and closings, a closing row matches what it wants or what is there (up to `eps`) and
      is charged one contiguous slice of all lots opened so far. */
  lemma CloseIsChargedOneSlice(rows: seq<Row>, row: Row, side: Side, eps: real)
    returns (matched: real, slice: seq<Lot>)
    requires eps >= 0.0 && side != Other
    requires NoLinkedExit(rows, row.key) && !Linked(row) && ClosesOn(row, row.key, side)
    ensures ChargedFrom(row, AnnotateIn(row, BookAfter(rows, row.key, eps), eps).context,
                        Opened(rows, row.key, side), Cursor(rows, row.key, side, eps), matched, slice, eps)
  {
    hide ChargedFrom, Annotate, Behind, Opened, BookAfter, NoLinkedExit;
    QueueIsBehindCursor(rows, row.key, side, eps);
    OpenedPositive(rows, row.key, side);
    matched, slice := BehindIsChargedFrom(Opened(rows, row.key, side),
                                          BookAfter(rows, row.key, eps).Queue(side), row, eps);
  }

  lemma CancelQuotient(lo: real, cost: real, hi: real, x: real)
    requires x > 0.0 && Cost(x, lo) <= cost <= Cost(x, hi)
    ensures lo <= cost / x <= hi
  {
    QuotientBetween(cost, x, lo, hi);
  }

  // ------------------------------------------------- what a paired row says

  /** The row closes; `linked` says whether it names the entry it closes. */
  ghost predicate Closing(row: Row, linked: bool) {
    && row.side != Other && row.qty > 0.0 && row.price > 0.0 && (row.pnlAvailable || row.closedTrade)
    && (linked <==> row.entryActionId != "" && row.linkedEntryPrice != 0.0 && row.linkedEntryTime != 0)
  }

  /** In every run a linked exit is told of its own entry, whatever any queue holds. */
  lemma LinkedRowsAreExact(rows: seq<Row>, k: nat, eps: real)
    requires eps >= 0.0 && k < |rows| && Closing(rows[k], true)
    ensures var row, c := rows[k], Paired(rows, k, eps).context;
      && c.entryPrice == row.linkedEntryPrice && c.invested == row.qty * row.linkedEntryPrice
      && c.openedAt == row.linkedEntryTime && c.openedSource == row.linkedSource
      && c.entryActions == Some({row.entryActionId}) && c.closedAt == row.time
  {
    hide BookAfter;
  }

  /** In every run another exit is told of a prefix of the opposite queue. */
  lemma DrainedRowsAreSliced(rows: seq<Row>, k: nat, eps: real) returns (matched: real, slice: seq<Lot>)
    requires eps >= 0.0 && k < |rows| && Closing(rows[k], false)
    ensures var row, book := rows[k], BookAfter(rows[..k], rows[k].key, eps);
      ChargedSlice(row, Paired(rows, k, eps).context, if row.side == Buy then book.sells else book.buys, matched, slice,
                   eps)
  {
    var row, book := rows[k], BookAfter(rows[..k], rows[k].key, eps);
    LotsStayPositive(rows[..k], row.key, eps);
    hide BookAfter, Annotate, ChargedSlice;
    matched, slice := DrainIsChargedSlice(row, book.Queue(Opposite(row.side)), eps);
  }

  /** The figures derived of a close: its return in percent, to four decimals, and whole seconds. */
  lemma DerivedFigures(rows: seq<Row>, k: nat, linked: bool, eps: real)
    requires eps >= 0.0 && k < |rows| && Closing(rows[k], linked)
    ensures var row, c := rows[k], Paired(rows, k, eps).context;
      && (c.returnPct.Some? <==> row.pnlAvailable && c.invested != 0.0)
      && (c.returnPct.Some? ==>
          && -0.00005 <= c.returnPct.value - row.pnl / c.invested * 100.0 <= 0.00005
          && exists n: int {:trigger n as real} :: c.returnPct.value == n as real / 10000.0)
      && (c.duration.Some? <==> c.openedAt != 0)
      && (c.duration.Some? ==>
          if row.time < c.openedAt then c.duration == Some(0)
          else
            && c.duration.value >= 0
            && 1000 * c.duration.value <= row.time - c.openedAt < 1000 * (c.duration.value + 1))
  {
    var row := rows[k];
    var book := BookAfter(rows[..k], row.key, eps);
    var d := Drain(Start(book.Queue(Opposite(row.side)), row.qty), eps);
    var c := if linked then FromLink(row) else FromMatch(row, d, eps);
    assert Paired(rows, k, eps) == Closed(row, c);
    hide BookAfter, Drain, FromMatch, FromLink;
    if c.invested != 0.0 { RoundsToGrid(row.pnl / c.invested * 100.0); }
  }

  /** Rows that open or are not usable stay as they are, and a close only gains its context. */
  lemma OnlyContextChanges(rows: seq<Row>, k: nat, eps: real)
    requires eps >= 0.0 && k < |rows|
    ensures Paired(rows, k, eps) == rows[k].(context := Paired(rows, k, eps).context)
    ensures !Closing(rows[k], true) && !Closing(rows[k], false) ==> Paired(rows, k, eps) == rows[k]
  {
    hide BookAfter;
  }
}
