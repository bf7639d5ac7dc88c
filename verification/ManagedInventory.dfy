/** The spot inventory this system manages on one symbol: confirmed fills, reconciliation against
    the broker's balance before a sell, and the average entry price.  Broker balances and fill
    reports are inputs; `eps` is the dust tolerance. */
module ManagedInventory {

  import opened Wrappers
  import opened RealArith

  datatype Side = BUY | SELL | OTHER

  datatype Ledger = Ledger(managed: real, average: Option<real>, bought: real, sold: real)

  const FLAT := Ledger(0.0, None, 0.0, 0.0)

  // ---------------------------------------------------------------- one fill

  predicate Applicable(eps: real, l: Ledger, side: Side, quantity: real) {
    side != OTHER && quantity > 0.0 && (side == SELL ==> quantity <= l.managed + eps)
  }

  function Blend(held: real, average: real, quantity: real, price: real): real
    requires held + quantity != 0.0
  {
    (held * average + quantity * price) / (held + quantity)
  }

  function AverageAfter(l: Ledger, quantity: real, price: Option<real>): Option<real>
    requires l.managed >= 0.0 && quantity > 0.0
  {
    if price == None || price.value <= 0.0 then l.average
    else Some(Blend(l.managed, if l.average == None then 0.0 else l.average.value, quantity, price.value))
  }

  function Applied(eps: real, l: Ledger, side: Side, quantity: real, price: Option<real>): Ledger
    requires l.managed >= 0.0 && Applicable(eps, l, side, quantity)
  {
    if side == BUY then
      Ledger(l.managed + quantity, AverageAfter(l, quantity, price), l.bought + quantity, l.sold)
    else
      var left := if l.managed - quantity < 0.0 then 0.0 else l.managed - quantity;
      if left <= eps then Ledger(0.0, None, l.bought, l.sold + quantity)
      else Ledger(left, l.average, l.bought, l.sold + quantity)
  }

  // --------------------------------------------------------------- one order

  /** The symbol's lot rule, as the broker publishes it. */
  datatype Lot = Lot(step: real, minimum: real)

  const BELOW_MINIMUM := "SPOT_QUANTITY_BELOW_MINIMUM"

  /** A quantity in whole steps, rounded down, or why it cannot be ordered. */
  function Normalized(quantity: real, lot: Lot): Result<real, string> {
    if quantity <= 0.0 || lot.step <= 0.0 then Error("INVALID_SPOT_QUANTITY")
    else
      var q := WholeSteps(quantity, lot.step);
      if q <= 0.0 || q < lot.minimum then Error(BELOW_MINIMUM) else Ok(q)
  }

  /** What is held is confirmed dust when the lot rule could be read and a sell of it would be
      below the minimum. */
  predicate ConfirmedDust(managed: real, lot: Option<Lot>) {
    && lot.Some? && lot.value.step > 0.0 && lot.value.minimum >= 0.0
    && Normalized(managed, lot.value) == Error(BELOW_MINIMUM)
  }

  /** What the broker reported: a failing call, before or after the request went out; nothing
      confirmed; a cancellation with or without proof that nothing was filled; or a fill with its
      three quantity fields and two price fields (zero when missing). */
  datatype Report =
    | Raised(posted: bool)
    | Unconfirmed
    | Cancelled(zeroFill: bool)
    | Filled(cumulative: real, executed: real, asked: real, averagePrice: real, price: real)

  /** What the route's own records say before the order. */
  datatype Gate = Gate(simulation: bool, certified: bool, ready: bool, pending: bool)

  /** An order, with what the broker says of the lot (unless it cannot be read), of the balance and
      of the outcome. */
  datatype Order = Order(gate: Gate, side: Side, quantity: real, lot: Option<Lot>, balance: real, report: Report)

  /** The answer; `RAISED` is the exception of a placement that fails. */
  datatype Outcome = BLOCKED(reason: string) | RAISED | SUBMITTED | CANCELLED | EXECUTED

  function FillQuantity(f: Report, fallback: real): (q: real)
    requires f.Filled?
    ensures fallback > 0.0 ==> q > 0.0
  {
    if f.cumulative > 0.0 then f.cumulative
    else if f.executed > 0.0 then f.executed
    else if f.asked > 0.0 then f.asked
    else fallback
  }

  function FillPrice(f: Report): Option<real>
    requires f.Filled?
  {
    if f.averagePrice > 0.0 then Some(f.averagePrice) else if f.price > 0.0 then Some(f.price) else None
  }

  /** Before a sell, more inventory than the broker holds is written down to its balance. */
  function Reconciled(eps: real, l: Ledger, balance: real): Ledger {
    if balance <= eps then l.(managed := 0.0, average := None)
    else if balance + eps < l.managed then l.(managed := balance)
    else l
  }

  /** The first reason to refuse an order before the broker is asked about a sell's balance. */
  function Refusal(eps: real, l: Ledger, o: Order): Option<string> {
    if !o.gate.simulation then Some("BYBIT_TESTNET_OR_DEMO_REQUIRED")
    else if !o.gate.certified then Some("BYBIT_SPOT_CERTIFICATION_REQUIRED")
    else if !o.gate.ready then Some("ROUTE_NOT_READY")
    else if o.side == OTHER || o.quantity <= 0.0 then Some("INVALID_ORDER_PROPOSAL")
    else if o.gate.pending then Some("BYBIT_SUBMISSION_RECONCILIATION_REQUIRED")
    else if o.side == BUY && l.managed > eps && !ConfirmedDust(l.managed, o.lot) then
      Some("ATLAS_MANAGED_POSITION_ALREADY_OPEN")
    else if o.side == SELL && l.managed <= eps then Some("NO_ATLAS_MANAGED_INVENTORY")
    else if o.side == SELL && o.quantity > l.managed + eps then Some("SELL_EXCEEDS_ATLAS_MANAGED_INVENTORY")
    else None
  }

  predicate Placeable(eps: real, l: Ledger, o: Order) {
    Refusal(eps, l, o) == None
  }

  /** The quantity to place, if the order gets so far. */
  function Asked(eps: real, l: Ledger, o: Order): Option<real> {
    if !Placeable(eps, l, o) then None
    else if o.side == BUY then Some(o.quantity)
    else if o.balance <= eps then None
    else
      var q := Min(Min(o.quantity, Reconciled(eps, l, o.balance).managed), o.balance);
      if q <= eps then None else Some(q)
  }

  /** The quantity sent to the broker, if a request goes out at all: what is asked, in whole steps. */
  function Submitted(eps: real, l: Ledger, o: Order): Option<real> {
    if Asked(eps, l, o) == None || o.lot == None || o.report == Raised(false) then None
    else
      var n := Normalized(Asked(eps, l, o).value, o.lot.value);
      if n.Ok? then Some(n.value) else None
  }

  /** The inventory an order leaves before any fill is applied. */
  function Prepared(eps: real, l: Ledger, o: Order): Ledger {
    if o.side == SELL && Placeable(eps, l, o) then Reconciled(eps, l, o.balance) else l
  }

  /** The fill an order brings, when it is one the inventory can absorb. */
  function Absorbed(eps: real, l: Ledger, o: Order): Option<real> {
    if Submitted(eps, l, o) == None || !o.report.Filled? then None
    else
      var q := FillQuantity(o.report, Asked(eps, l, o).value);
      if o.side == SELL && q > Prepared(eps, l, o).managed + eps then None else Some(q)
  }

  function Executed(eps: real, l: Ledger, o: Order): Ledger
    requires eps >= 0.0 && l.managed >= 0.0
  {
    var q, p := Absorbed(eps, l, o), Prepared(eps, l, o);
    if q == None then p else Applied(eps, p, o.side, q.value, FillPrice(o.report))
  }

  function OutcomeOf(eps: real, l: Ledger, o: Order): Outcome {
    if Refusal(eps, l, o).Some? then BLOCKED(Refusal(eps, l, o).value)
    else if o.side == SELL && o.balance <= eps then BLOCKED("BROKER_SPOT_BALANCE_EMPTY_RECONCILED")
    else if Asked(eps, l, o) == None then BLOCKED("NO_SELLABLE_ATLAS_MANAGED_INVENTORY")
    else if Submitted(eps, l, o) == None || o.report.Raised? then RAISED
    else if o.report.Unconfirmed? then SUBMITTED
    else if o.report.Cancelled? then if o.report.zeroFill then CANCELLED else SUBMITTED
    else if Absorbed(eps, l, o) == None then BLOCKED("BROKER_FILL_EXCEEDS_ATLAS_MANAGED_INVENTORY")
    else EXECUTED
  }

  /** Only an executed order moves what was bought and sold, each by the fill; a refused one
      changes nothing, and any other can only write the inventory down to the broker's balance. */
  lemma OutcomeMeans(eps: real, l: Ledger, o: Order)
    requires eps >= 0.0 && l.managed >= 0.0
    ensures var t := Executed(eps, l, o);
      && (OutcomeOf(eps, l, o) == EXECUTED <==> t.bought + t.sold > l.bought + l.sold)
      && (OutcomeOf(eps, l, o) != EXECUTED ==> t.bought == l.bought && t.sold == l.sold && t.managed <= l.managed)
      && (Refusal(eps, l, o).Some? ==> t == l)
      && (OutcomeOf(eps, l, o) != EXECUTED && t != l ==>
          o.side == SELL && (o.balance <= eps || o.balance + eps < l.managed))
  {
    hide Blend, Refusal;
    if Placeable(eps, l, o) { PlaceableOrders(eps, l, o); }
  }

  lemma PlaceableOrders(eps: real, l: Ledger, o: Order)
    requires Placeable(eps, l, o)
    ensures o.side != OTHER && o.quantity > 0.0
    ensures o.side == SELL ==> l.managed > eps && o.quantity <= l.managed + eps
  {
  }

  class Inventory {

    const eps: real

    var managed: real

    var average: Option<real>

    var bought: real

    var sold: real

    ghost function View(): Ledger
      reads this
    {
      Ledger(managed, average, bought, sold)
    }

    constructor (eps: real)
      requires eps >= 0.0
      ensures this.eps == eps && View() == FLAT
    {
      this.eps := eps;
      managed, average, bought, sold := 0.0, None, 0.0, 0.0;
    }

    /** A fill that is not applicable raises and changes nothing. */
    method ApplyManagedFill(side: Side, quantity: real, price: Option<real>) returns (ok: bool)
      requires managed >= 0.0
      modifies this
      ensures ok <==> Applicable(eps, old(View()), side, quantity)
      ensures View() == if ok then Applied(eps, old(View()), side, quantity, price) else old(View())
    {
      if side == OTHER || quantity <= 0.0 { return false; }
      var current := managed;
      if side == BUY {
        var oldAverage := if average == None then 0.0 else average.value;
        var oldCost := current * oldAverage;
        var newQuantity := current + quantity;
        managed := newQuantity;
        bought := bought + quantity;
        if price.Some? && price.value > 0.0 {
          average := Some((oldCost + quantity * price.value) / newQuantity);
          assert average.value == Blend(current, oldAverage, quantity, price.value);
        }
      } else {
        if quantity > current + eps { return false; }
        managed := if current - quantity < 0.0 then 0.0 else current - quantity;
        sold := sold + quantity;
        if managed <= eps { managed, average := 0.0, None; }
      }
      ok := true;
    }

    /** Before a sell the inventory is written down to the broker's balance. */
    method ReconcileSell(o: Order) returns (empty: bool, quantity: real)
      requires eps >= 0.0 && managed >= 0.0
      modifies this
      ensures View() == Reconciled(eps, old(View()), o.balance)
      ensures empty <==> o.balance <= eps
      ensures !empty ==> quantity == Min(Min(o.quantity, managed), o.balance)
    {
      quantity := o.quantity;
      if o.balance <= eps {
        managed, average := 0.0, None;
        return true, quantity;
      }
      if o.balance + eps < managed { managed := o.balance; }
      return false, Min(Min(quantity, managed), o.balance);
    }

    /** One managed order.  The fill it applies never raises. */
    method Execute(o: Order) returns (outcome: Outcome, sent: Option<real>)
      requires eps >= 0.0 && managed >= 0.0
      modifies this
      ensures View() == Executed(eps, old(View()), o)
      ensures sent == Submitted(eps, old(View()), o)
      ensures outcome == OutcomeOf(eps, old(View()), o)
    {
      hide Blend, Applied, FillPrice, Normalized, ConfirmedDust;
      sent := None;
      var quantity := o.quantity;
      if !o.gate.simulation { return BLOCKED("BYBIT_TESTNET_OR_DEMO_REQUIRED"), None; }
      if !o.gate.certified { return BLOCKED("BYBIT_SPOT_CERTIFICATION_REQUIRED"), None; }
      if !o.gate.ready { return BLOCKED("ROUTE_NOT_READY"), None; }
      if o.side == OTHER || quantity <= 0.0 { return BLOCKED("INVALID_ORDER_PROPOSAL"), None; }
      if o.gate.pending { return BLOCKED("BYBIT_SUBMISSION_RECONCILIATION_REQUIRED"), None; }
      if o.side == BUY && managed > eps && !ConfirmedDust(managed, o.lot) {
        return BLOCKED("ATLAS_MANAGED_POSITION_ALREADY_OPEN"), None;
      }
      if o.side == SELL {
        if managed <= eps { return BLOCKED("NO_ATLAS_MANAGED_INVENTORY"), None; }
        if quantity > managed + eps { return BLOCKED("SELL_EXCEEDS_ATLAS_MANAGED_INVENTORY"), None; }
        var empty;
        empty, quantity := ReconcileSell(o);
        if empty { return BLOCKED("BROKER_SPOT_BALANCE_EMPTY_RECONCILED"), None; }
        if quantity <= eps { return BLOCKED("NO_SELLABLE_ATLAS_MANAGED_INVENTORY"), None; }
      }
      if o.lot == None || o.report == Raised(false) { return RAISED, None; }
      var normalized := Normalized(quantity, o.lot.value);
      if normalized.Error? { return RAISED, None; }
      sent := Some(normalized.value);
      if o.report.Raised? { return RAISED, sent; }
      if o.report.Unconfirmed? { return SUBMITTED, sent; }
      if o.report.Cancelled? {
        outcome := if o.report.zeroFill then CANCELLED else SUBMITTED;
        return;
      }
      var filled := FillQuantity(o.report, quantity);
      if o.side == SELL && filled > managed + eps {
        return BLOCKED("BROKER_FILL_EXCEEDS_ATLAS_MANAGED_INVENTORY"), sent;
      }
      var ok := ApplyManagedFill(o.side, filled, FillPrice(o.report));
      assert ok;
      outcome := EXECUTED;
    }
  }

  // ------------------------------------------------------------- over a run

  /** What is sent is what is asked, rounded down by less than a step to an orderable lot. */
  lemma SentIsALot(eps: real, l: Ledger, o: Order)
    requires Submitted(eps, l, o).Some?
    ensures var q, asked, lot := Submitted(eps, l, o).value, Asked(eps, l, o).value, o.lot.value;
      && asked - lot.step < q <= asked && lot.minimum <= q && 0.0 < q
      && exists n: int {:trigger n as real} :: q == n as real * lot.step
  {
    var asked, lot := Asked(eps, l, o).value, o.lot.value;
    hide Asked;
    StepsRoundDown(asked, lot.step);
    WholeStepsAreWhole(asked, lot.step);
  }

  /** A submitted sell is covered by what is managed, by what the broker holds and by what was
      asked for, before and after rounding; and what is asked is more than dust. */
  lemma SellsAreCovered(eps: real, l: Ledger, o: Order)
    requires eps >= 0.0 && l.managed >= 0.0 && o.side == SELL && Submitted(eps, l, o).Some?
    ensures var q, asked := Submitted(eps, l, o).value, Asked(eps, l, o).value;
            && eps < asked && 0.0 < q <= asked <= o.quantity && asked <= l.managed && asked <= o.balance
            && asked <= Executed(eps, l, o.(report := Unconfirmed)).managed
  {
    SentIsALot(eps, l, o);
    hide WholeSteps;
  }

  /** A buy on top of what is held always sends more than that. */
  lemma BuysExceedResidual(eps: real, l: Ledger, o: Order)
    requires eps >= 0.0 && o.side == BUY && l.managed > eps && Submitted(eps, l, o).Some?
    ensures l.managed < Submitted(eps, l, o).value
  {
    assert Refusal(eps, l, o) == None && ConfirmedDust(l.managed, o.lot);
    hide Refusal;
    StepsAreMonotone(l.managed, Submitted(eps, l, o).value, o.quantity, o.lot.value.step);
  }

  lemma StepsAreMonotone(x: real, q: real, y: real, step: real)
    requires step > 0.0 && x > 0.0 && y > 0.0 && q == WholeSteps(y, step) && WholeSteps(x, step) < q
    ensures x < q
  {
    var m := StepsBelow(x, step);
    var n := StepsBelow(y, step);
    hide WholeSteps, Steps;
    StepsGrow(n, m, step);
    StepsGrow(m + 1, n, step);
  }

  function Steps(n: int, step: real): real {
    n as real * step
  }

  lemma StepsGrow(m: int, n: int, step: real)
    requires step > 0.0
    ensures m <= n <==> Steps(m, step) <= Steps(n, step)
  {
    Scaled(m as real, n as real, step);
  }

  lemma StepsBelow(x: real, step: real) returns (n: int)
    requires step > 0.0 && x > 0.0
    ensures WholeSteps(x, step) == Steps(n, step) && x < Steps(n + 1, step)
  {
    n := (x / step).Floor;
    QuotientBetween(x, step, 0.0, (n + 1) as real);
  }

  /** What a run did: orders since the start, and the price of every buy since the inventory was
      last emptied. */
  datatype History = History(ledger: Ledger, sells: nat, writtenDown: bool, buys: seq<Option<real>>)

  const START := History(FLAT, 0, false, [])

  function Next(eps: real, h: History, o: Order): History
    requires eps >= 0.0 && h.ledger.managed >= 0.0
  {
    var l, p, q := h.ledger, Prepared(eps, h.ledger, o), Absorbed(eps, h.ledger, o);
    var t := Executed(eps, l, o);
    var emptied := t.managed == 0.0 && t.average == None;
    History(t,
            if q.Some? && o.side == SELL then h.sells + 1 else h.sells,
            h.writtenDown || p.managed != l.managed,
            if emptied then [] else if q.Some? && o.side == BUY then h.buys + [FillPrice(o.report)] else h.buys)
  }

  function Slack(eps: real, n: nat): real {
    eps * n as real
  }

  /** What was bought and not sold, up to the tolerance of each sell. */
  ghost predicate Balanced(eps: real, h: History) {
    var slack := Slack(eps, h.sells);
    && 0.0 <= h.ledger.managed <= h.ledger.bought - h.ledger.sold + slack
    && (!h.writtenDown ==> h.ledger.managed >= h.ledger.bought - h.ledger.sold - slack)
  }

  ghost predicate Between(buys: seq<Option<real>>, x: real) {
    && (exists i :: 0 <= i < |buys| && buys[i].Some? && buys[i].value <= x)
    && (exists i :: 0 <= i < |buys| && buys[i].Some? && x <= buys[i].value)
  }

  /** Once the first buy since the inventory was empty is priced, the average entry lies between
      the lowest and the highest priced buy since then. */
  ghost predicate Averaged(h: History) {
    && (h.buys == [] ==> h.ledger.managed == 0.0 && h.ledger.average == None)
    && (h.buys != [] && h.buys[0].Some? ==> h.ledger.average.Some? && Between(h.buys, h.ledger.average.value))
  }

  function After(eps: real, orders: seq<Order>): (h: History)
    requires eps >= 0.0
    ensures h.ledger.managed >= 0.0
  {
    if orders == [] then START else Next(eps, After(eps, orders[..|orders| - 1]), orders[|orders| - 1])
  }

  lemma SlackGrows(eps: real, n: nat)
    ensures Slack(eps, n + 1) == Slack(eps, n) + eps
  {
  }

  lemma AppliedMovesBy(eps: real, l: Ledger, side: Side, quantity: real, price: Option<real>)
    requires eps >= 0.0 && l.managed >= 0.0 && Applicable(eps, l, side, quantity)
    ensures var t := Applied(eps, l, side, quantity, price);
            && t.managed >= 0.0
            && (side == BUY ==> t.managed - l.managed == t.bought - l.bought && t.sold == l.sold)
            && (side == SELL ==> t.bought == l.bought && -eps <= t.managed - l.managed + (t.sold - l.sold) <= eps)
  {
    hide Blend;
  }

  lemma PreparedOnlyLowers(eps: real, l: Ledger, o: Order)
    requires eps >= 0.0 && l.managed >= 0.0
    ensures var p := Prepared(eps, l, o);
            0.0 <= p.managed <= l.managed && p.bought == l.bought && p.sold == l.sold
  {
  }

  lemma NextIsBalanced(eps: real, h: History, o: Order)
    requires eps >= 0.0 && Balanced(eps, h)
    ensures Balanced(eps, Next(eps, h, o))
  {
    var p, q := Prepared(eps, h.ledger, o), Absorbed(eps, h.ledger, o);
    SlackGrows(eps, h.sells);
    PreparedOnlyLowers(eps, h.ledger, o);
    if q.Some? { AppliedMovesBy(eps, p, o.side, q.value, FillPrice(o.report)); }
    hide Slack, Prepared, Absorbed, Applied;
  }

  lemma BlendIsBetween(held: real, average: real, quantity: real, price: real)
    requires held >= 0.0 && quantity > 0.0
    ensures Min(average, price) <= Blend(held, average, quantity, price)
    ensures Blend(held, average, quantity, price) <= -Min(-average, -price)
  {
    var low, high, total := Min(average, price), -Min(-average, -price), held + quantity;
    var cost := held * average + quantity * price;
    assert low * total <= cost <= high * total by {
      assert held * low <= held * average <= held * high;
      assert quantity * low <= quantity * price <= quantity * high;
    }
    assert cost / total * total == cost;
  }

  lemma BetweenGrows(buys: seq<Option<real>>, x: real, p: Option<real>, y: real)
    requires Between(buys, x)
    requires if p.Some? then Min(x, p.value) <= y <= -Min(-x, -p.value) else y == x
    ensures Between(buys + [p], y)
  {
    var more := buys + [p];
    assert more[|buys|] == p;
    var i :| 0 <= i < |buys| && buys[i].Some? && buys[i].value <= x;
    var j :| 0 <= j < |buys| && buys[j].Some? && x <= buys[j].value;
    assert more[i] == buys[i] && more[j] == buys[j];
    assert exists k :: 0 <= k < |more| && more[k].Some? && more[k].value <= y;
  }

  lemma BuyIsAveraged(eps: real, h: History, quantity: real, price: Option<real>)
    requires eps >= 0.0 && h.ledger.managed >= 0.0 && Averaged(h) && quantity > 0.0
      && (price.Some? ==> price.value > 0.0)
    ensures Averaged(History(Applied(eps, h.ledger, BUY, quantity, price), h.sells, h.writtenDown, h.buys + [price]))
  {
    var l := h.ledger;
    if h.buys == [] {
      if price.Some? {
        assert Blend(0.0, 0.0, quantity, price.value) == price.value by {
          assert quantity * price.value / quantity == price.value;
        }
        assert (h.buys + [price])[0] == price;
      }
    } else if h.buys[0].Some? {
      if price.Some? { BlendIsBetween(l.managed, l.average.value, quantity, price.value); }
      hide Blend;
      BetweenGrows(h.buys, l.average.value, price, AverageAfter(l, quantity, price).value);
    }
  }

  lemma NextIsAveraged(eps: real, h: History, o: Order)
    requires eps >= 0.0 && h.ledger.managed >= 0.0 && Averaged(h)
    ensures Averaged(Next(eps, h, o))
  {
    hide Blend, Between;
    var q := Absorbed(eps, h.ledger, o);
    if q.Some? && o.side == BUY { BuyIsAveraged(eps, h, q.value, FillPrice(o.report)); }
  }

  /** Over any run of orders, fills and reconciliations: the managed quantity is what was bought
      and not sold, and the average entry lies within the buys it averages. */
  lemma {:induction false} InventoryIsSound(eps: real, orders: seq<Order>)
    requires eps >= 0.0
    ensures Balanced(eps, After(eps, orders)) && Averaged(After(eps, orders))
  {
    if orders == [] {
    } else {
      var before := After(eps, orders[..|orders| - 1]);
      InventoryIsSound(eps, orders[..|orders| - 1]);
      NextIsBalanced(eps, before, orders[|orders| - 1]);
      NextIsAveraged(eps, before, orders[|orders| - 1]);
    }
  }

  /** The first priced fill sets the average to its own price exactly when nothing was held: an
      earlier unpriced buy counts as bought for nothing. */
  lemma FirstPriceIsAverageIffEmpty(eps: real, l: Ledger, quantity: real, price: real)
    requires eps >= 0.0 && l.managed >= 0.0 && l.average == None && quantity > 0.0 && price > 0.0
    ensures Applied(eps, l, BUY, quantity, Some(price)).average == Some(price) <==> l.managed == 0.0
    ensures l.managed > 0.0 ==> Applied(eps, l, BUY, quantity, Some(price)).average.value < price
  {
    var total := l.managed + quantity;
    var x := Blend(l.managed, 0.0, quantity, price);
    ProductSign(l.managed, price);
    Distribute(l.managed, quantity, price);
    QuotientBetween(quantity * price, total, price, price);
    QuotientIs(quantity * price, total, price);
    assert x == quantity * price / total;
    hide Blend;
    assert total * price == price * total;
  }

  /** Whatever is priced, the average is positive and never above the highest priced buy since the
      inventory was empty. */
  ghost predicate NotAbove(h: History) {
    h.ledger.average.Some? ==>
      && h.ledger.average.value > 0.0
      && exists i :: 0 <= i < |h.buys| && h.buys[i].Some? && h.ledger.average.value <= h.buys[i].value
  }

  lemma BlendIsNotAbove(held: real, average: real, quantity: real, price: real)
    requires held >= 0.0 && average >= 0.0 && quantity > 0.0 && price > 0.0
    ensures 0.0 < Blend(held, average, quantity, price) <= Max(average, price)
  {
    BlendIsBetween(held, average, quantity, price);
    var cost, total := held * average + quantity * price, held + quantity;
    ProductSign(held, average);
    ProductSign(quantity, price);
    QuotientBetween(cost, total, 0.0, 0.0);
  }

  lemma BuyIsNotAbove(h: History, quantity: real, price: Option<real>)
    requires h.ledger.managed >= 0.0 && NotAbove(h) && quantity > 0.0 && (price.Some? ==> price.value > 0.0)
    ensures var average := AverageAfter(h.ledger, quantity, price);
      average.Some? ==>
        && average.value > 0.0
        && exists i :: 0 <= i < |h.buys| + 1 && (h.buys + [price])[i].Some?
             && average.value <= (h.buys + [price])[i].value
  {
    var l, more := h.ledger, h.buys + [price];
    assert more[|h.buys|] == price;
    if price.Some? {
      BlendIsNotAbove(l.managed, if l.average == None then 0.0 else l.average.value, quantity, price.value);
    }
    hide Blend;
    if l.average.Some? {
      var i :| 0 <= i < |h.buys| && h.buys[i].Some? && l.average.value <= h.buys[i].value;
      assert more[i] == h.buys[i];
    }
  }

  lemma NextIsNotAbove(eps: real, h: History, o: Order)
    requires eps >= 0.0 && h.ledger.managed >= 0.0 && NotAbove(h) && Recorded(h)
    ensures NotAbove(Next(eps, h, o))
  {
    var q := Absorbed(eps, h.ledger, o);
    if q.Some? && o.side == BUY { BuyIsNotAbove(h, q.value, FillPrice(o.report)); }
    hide Blend, Refusal, Normalized;
  }

  lemma {:induction false} AverageIsNeverAbove(eps: real, orders: seq<Order>)
    requires eps >= 0.0
    ensures NotAbove(After(eps, orders))
  {
    if orders == [] {
    } else {
      HistoryIsRecorded(eps, orders[..|orders| - 1]);
      AverageIsNeverAbove(eps, orders[..|orders| - 1]);
      NextIsNotAbove(eps, After(eps, orders[..|orders| - 1]), orders[|orders| - 1]);
    }
  }

  /** In a reachable history buys are recorded exactly while something is managed, and there is no
      average before the first priced one. */
  ghost predicate Recorded(h: History) {
    && (h.buys == [] <==> h.ledger.managed == 0.0)
    && (Unpriced(h.buys) ==> h.ledger.average == None)
  }

  ghost predicate Unpriced(buys: seq<Option<real>>) {
    forall i :: 0 <= i < |buys| ==> buys[i] == None
  }

  lemma UnpricedGrows(buys: seq<Option<real>>, p: Option<real>)
    ensures Unpriced(buys + [p]) <==> Unpriced(buys) && p == None
  {
    var more := buys + [p];
    assert more[|buys|] == p && forall i :: 0 <= i < |buys| ==> more[i] == buys[i];
  }

  lemma NextIsRecorded(eps: real, h: History, o: Order)
    requires eps >= 0.0 && h.ledger.managed >= 0.0 && Recorded(h)
    ensures Recorded(Next(eps, h, o))
  {
    var q := Absorbed(eps, h.ledger, o);
    if q.Some? && o.side == BUY { UnpricedGrows(h.buys, FillPrice(o.report)); }
    PreparedOnlyLowers(eps, h.ledger, o);
    hide Blend, Unpriced, Refusal;
  }

  lemma {:induction false} HistoryIsRecorded(eps: real, orders: seq<Order>)
    requires eps >= 0.0
    ensures Recorded(After(eps, orders))
  {
    if orders == [] {
    } else {
      HistoryIsRecorded(eps, orders[..|orders| - 1]);
      NextIsRecorded(eps, After(eps, orders[..|orders| - 1]), orders[|orders| - 1]);
    }
  }

  /** In every reachable history, the first priced buy leaves the average between the priced buys
      if and only if it is the first buy since the inventory was empty. */
  lemma FirstPricedBuyIff(eps: real, orders: seq<Order>, o: Order)
    requires eps >= 0.0 && Unpriced(After(eps, orders).buys) && o.side == BUY
    requires Absorbed(eps, After(eps, orders).ledger, o).Some? && FillPrice(o.report).Some?
    ensures var h, t := After(eps, orders), After(eps, orders + [o]);
      t.ledger.average.Some? && (Between(t.buys, t.ledger.average.value) <==> h.buys == [])
  {
    var h, p := After(eps, orders), FillPrice(o.report).value;
    assert (orders + [o])[..|orders|] == orders;
    HistoryIsRecorded(eps, orders);
    hide After;
    OnlyPricedBuy(h.buys, p);
    var q := Absorbed(eps, h.ledger, o).value;
    FirstPriceIsAverageIffEmpty(eps, h.ledger, q, p);
    hide Blend, Between, Unpriced, Refusal;
  }

  /** With one priced buy, only its own price lies between the priced buys. */
  lemma OnlyPricedBuy(buys: seq<Option<real>>, p: real)
    requires Unpriced(buys)
    ensures forall x :: Between(buys + [Some(p)], x) <==> x == p
  {
    var more := buys + [Some(p)];
    assert more[|buys|] == Some(p);
    assert forall i :: 0 <= i < |more| && more[i].Some? ==> i == |buys|;
  }

  const OPEN := Gate(true, true, true, false)

  const LOT := Some(Lot(0.5, 1.0))

  /** Under a minimum of 1, a buy of 10 of which only 0.5 is filled, without a price; and a buy of
      9.5 at 100, which the confirmed-dust exception lets through: the average is 95, below every
      price paid. */
  const UNPRICED_FIRST := [
    Order(OPEN, BUY, 10.0, LOT, 0.0, Filled(0.5, 0.0, 0.0, 0.0, 0.0)),
    Order(OPEN, BUY, 9.5, LOT, 0.0, Filled(9.5, 0.0, 0.0, 100.0, 0.0))]

  lemma LotsOfTheRun()
    ensures Normalized(10.0, LOT.value) == Ok(10.0) && Normalized(9.5, LOT.value) == Ok(9.5)
    ensures ConfirmedDust(0.5, LOT)
  {
    assert 10.0 / 0.5 == 20.0 && 9.5 / 0.5 == 19.0 && 0.5 / 0.5 == 1.0;
  }

  lemma UnpricedBuy()
    ensures Next(0.0, START, UNPRICED_FIRST[0]) == History(Ledger(0.5, None, 0.5, 0.0), 0, false, [None])
  {
    hide Blend, Normalized;
    LotsOfTheRun();
    var o := UNPRICED_FIRST[0];
    assert Refusal(0.0, FLAT, o) == None;
    hide Refusal;
    assert Absorbed(0.0, FLAT, o) == Some(0.5) && Prepared(0.0, FLAT, o) == FLAT && FillPrice(o.report) == None;
    hide Absorbed, Prepared, FillPrice;
    assert Executed(0.0, FLAT, o) == Ledger(0.5, None, 0.5, 0.0);
    hide Executed;
  }

  lemma BlendOfHundred()
    ensures Blend(0.5, 0.0, 9.5, 100.0) == 95.0
  {
  }

  lemma PricedBuy()
    ensures Next(0.0, History(Ledger(0.5, None, 0.5, 0.0), 0, false, [None]), UNPRICED_FIRST[1])
         == History(Ledger(10.0, Some(95.0), 10.0, 0.0), 0, false, [None, Some(100.0)])
  {
    hide Blend, Normalized, ConfirmedDust;
    LotsOfTheRun();
    var o, l := UNPRICED_FIRST[1], Ledger(0.5, None, 0.5, 0.0);
    assert Refusal(0.0, l, o) == None;
    hide Refusal;
    assert Absorbed(0.0, l, o) == Some(9.5) && Prepared(0.0, l, o) == l && FillPrice(o.report) == Some(100.0);
    hide Absorbed, Prepared, FillPrice;
    BlendOfHundred();
    assert Executed(0.0, l, o) == Ledger(10.0, Some(95.0), 10.0, 0.0);
    hide Executed;
    assert [None] + [Some(100.0)] == [None, Some(100.0)];
  }

  lemma AverageCanBeBelowEveryBuy()
    ensures var h := After(0.0, UNPRICED_FIRST);
      h.buys == [None, Some(100.0)] && h.ledger.average == Some(95.0) && !Between(h.buys, 95.0)
  {
    hide After, Between, Next;
    OneOrder(0.0, UNPRICED_FIRST[0]);
    UnpricedBuy();
    OneMoreOrder(0.0, [UNPRICED_FIRST[0]], UNPRICED_FIRST[1]);
    PricedBuy();
    assert [UNPRICED_FIRST[0]] + [UNPRICED_FIRST[1]] == UNPRICED_FIRST;
    OnlyPricedBuy([None], 100.0);
    assert [None] + [Some(100.0)] == [None, Some(100.0)];
  }

  lemma OneOrder(eps: real, o: Order)
    requires eps >= 0.0
    ensures After(eps, [o]) == Next(eps, START, o)
  {
    assert [o][..0] == [];
  }

  lemma OneMoreOrder(eps: real, orders: seq<Order>, o: Order)
    requires eps >= 0.0
    ensures After(eps, orders + [o]) == Next(eps, After(eps, orders), o)
  {
    assert (orders + [o])[..|orders|] == orders;
  }
}
