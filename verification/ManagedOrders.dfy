/** When an order of the managed inventory is sent, what it is answered and what it books, in the fields
    of the order. */
module ManagedOrders {

  import opened Wrappers
  import opened RealArith
  import opened ManagedInventory

  /** The lot rule can round the quantity down to one that it accepts. */
  ghost predicate Orderable(quantity: real, lot: Lot) {
    && quantity > 0.0 && lot.step > 0.0
    && (quantity / lot.step).Floor as real * lot.step > 0.0
    && (quantity / lot.step).Floor as real * lot.step >= lot.minimum
  }

  /** A residual that is too small for the lot rule, which can be read. */
  ghost predicate Residual(managed: real, lot: Option<Lot>) {
    && lot.Some? && lot.value.step > 0.0 && lot.value.minimum >= 0.0 && managed > 0.0
    && !Orderable(managed, lot.value)
  }

  lemma NormalizedIff(quantity: real, lot: Lot)
    ensures Normalized(quantity, lot).Ok? <==> Orderable(quantity, lot)
    ensures Orderable(quantity, lot) ==>
      Normalized(quantity, lot).value == (quantity / lot.step).Floor as real * lot.step
    ensures Normalized(quantity, lot) == Error(BELOW_MINIMUM) <==>
      quantity > 0.0 && lot.step > 0.0 && !Orderable(quantity, lot)
  {
    if quantity > 0.0 && lot.step > 0.0 { QuotientBetween(quantity, lot.step, 0.0, 0.0); }
  }

  lemma DustIff(managed: real, lot: Option<Lot>)
    ensures ConfirmedDust(managed, lot) <==> Residual(managed, lot)
  {
    if lot.Some? { NormalizedIff(managed, lot.value); }
    hide Normalized, Orderable;
  }

  /** What the route allows before the broker is asked about a sell's balance. */
  ghost predicate Allowed(eps: real, l: Ledger, o: Order) {
    && o.gate.simulation && o.gate.certified && o.gate.ready && !o.gate.pending
    && o.quantity > 0.0 && (o.side == BUY || o.side == SELL)
    && (o.side == BUY ==> l.managed <= eps || Residual(l.managed, o.lot))
    && (o.side == SELL ==> eps < l.managed && o.quantity <= l.managed + eps)
  }

  /** The quantity an allowed order asks of the broker: a sell at most what is managed and held. */
  ghost function Wanted(l: Ledger, o: Order): real {
    if o.side == BUY then o.quantity
    else if o.quantity <= l.managed && o.quantity <= o.balance then o.quantity
    else if l.managed <= o.balance then l.managed
    else o.balance
  }

  lemma AllowedIff(eps: real, l: Ledger, o: Order)
    ensures Refusal(eps, l, o) == None <==> Allowed(eps, l, o)
  {
    DustIff(l.managed, o.lot);
    hide ConfirmedDust, Residual;
  }

  lemma AskedIff(eps: real, l: Ledger, o: Order)
    requires eps >= 0.0 && l.managed >= 0.0
    ensures Asked(eps, l, o).Some? <==> Allowed(eps, l, o) && (o.side == SELL ==> o.balance > eps && Wanted(l, o) > eps)
    ensures Asked(eps, l, o).Some? ==> Asked(eps, l, o).value == Wanted(l, o)
  {
    AllowedIff(eps, l, o);
    hide Refusal, Residual;
  }

  /** An order is sent exactly when the route allows it, more than dust is left of a sell after the
      balance, and the lot rule, which can be read, accepts the quantity; what is sent is rounded down to
      whole steps. */
  lemma SentIff(eps: real, l: Ledger, o: Order)
    requires eps >= 0.0 && l.managed >= 0.0
    ensures Submitted(eps, l, o).Some? <==>
      && Allowed(eps, l, o) && (o.side == SELL ==> o.balance > eps && Wanted(l, o) > eps)
      && o.lot.Some? && Orderable(Wanted(l, o), o.lot.value) && o.report != Raised(false)
    ensures Submitted(eps, l, o).Some? ==>
      Submitted(eps, l, o).value == (Wanted(l, o) / o.lot.value.step).Floor as real * o.lot.value.step
  {
    AskedIff(eps, l, o);
    if o.lot.Some? { NormalizedIff(Wanted(l, o), o.lot.value); }
    hide Asked, Normalized, Orderable, Allowed, Wanted;
  }

  /** The quantity that a fill books: the first of the reported ones that is positive, or else what
      was asked. */
  ghost predicate Books(f: Report, wanted: real, q: real)
    requires f.Filled?
  {
    && (f.cumulative > 0.0 ==> q == f.cumulative)
    && (f.cumulative <= 0.0 && f.executed > 0.0 ==> q == f.executed)
    && (f.cumulative <= 0.0 && f.executed <= 0.0 && f.asked > 0.0 ==> q == f.asked)
    && (f.cumulative <= 0.0 && f.executed <= 0.0 && f.asked <= 0.0 ==> q == wanted)
  }

  /** The price that counts: the average price, or else the price, if one is positive. */
  ghost predicate Prices(f: Report, p: Option<real>)
    requires f.Filled?
  {
    && (f.averagePrice > 0.0 ==> p == Some(f.averagePrice))
    && (f.averagePrice <= 0.0 && f.price > 0.0 ==> p == Some(f.price))
    && (f.averagePrice <= 0.0 && f.price <= 0.0 ==> p == None)
  }

  /** An executed order books a positive quantity. */
  lemma ExecutedFill(eps: real, l: Ledger, o: Order) returns (q: real, p: Option<real>)
    requires eps >= 0.0 && l.managed >= 0.0 && OutcomeOf(eps, l, o) == EXECUTED
    ensures o.report.Filled? && Books(o.report, Wanted(l, o), q) && Prices(o.report, p) && q > 0.0
    ensures p.Some? ==> p.value > 0.0
    ensures Allowed(eps, l, o) && (o.side == SELL ==> o.balance > eps)
    ensures Absorbed(eps, l, o) == Some(q) && p == FillPrice(o.report)
  {
    AskedIff(eps, l, o);
    AllowedIff(eps, l, o);
    hide Wanted, Books, Prices, Refusal, Residual, Prepared, Normalized, Orderable;
    q, p := Absorbed(eps, l, o).value, FillPrice(o.report);
    BooksIts(o.report, Wanted(l, o));
    WantedIsPositive(eps, l, o);
  }

  ghost function Weighted(held: real, average: Option<real>, quantity: real, price: real): real {
    (if average == None then 0.0 else held * average.value) + quantity * price
  }

  /** An executed buy adds what it books to the inventory, and its price, by weight, to the average. */
  lemma ExecutedBuy(eps: real, l: Ledger, o: Order) returns (q: real, p: Option<real>)
    requires eps >= 0.0 && l.managed >= 0.0 && OutcomeOf(eps, l, o) == EXECUTED && o.side == BUY
    ensures o.report.Filled? && Books(o.report, Wanted(l, o), q) && Prices(o.report, p) && q > 0.0
    ensures var t := Executed(eps, l, o);
      && t.managed == l.managed + q && t.bought == l.bought + q && t.sold == l.sold
      && (p == None ==> t.average == l.average)
      && (p.Some? ==>
          t.average.Some? && t.average.value * (l.managed + q) == Weighted(l.managed, l.average, q, p.value))
  {
    q, p := ExecutedFill(eps, l, o);
    BuyIs(eps, l, q, p);
    hide Absorbed, Applied, FillPrice, Books, Prices, Wanted, Weighted, Residual;
    assert Prepared(eps, l, o) == l;
  }

  lemma BuyIs(eps: real, l: Ledger, q: real, p: Option<real>)
    requires l.managed >= 0.0 && q > 0.0 && (p.Some? ==> p.value > 0.0)
    ensures var t := Applied(eps, l, BUY, q, p);
      && t.managed == l.managed + q && t.bought == l.bought + q && t.sold == l.sold
      && (p == None ==> t.average == l.average)
      && (p.Some? ==>
          t.average.Some? && t.average.value * (l.managed + q) == Weighted(l.managed, l.average, q, p.value))
  {
    if p.Some? { BlendIs(l.managed, l.average, q, p.value); }
    hide Blend, Weighted;
  }

  /** An executed sell takes what it books from the inventory, as far as the balance left it, and
      empties it when only dust remains. */
  lemma ExecutedSell(eps: real, l: Ledger, o: Order) returns (q: real)
    requires eps >= 0.0 && l.managed >= 0.0 && OutcomeOf(eps, l, o) == EXECUTED && o.side != BUY
    ensures o.side == SELL && o.report.Filled? && Books(o.report, Wanted(l, o), q) && q > 0.0
    ensures var t := Executed(eps, l, o);
      var held := if o.balance + eps < l.managed then o.balance else l.managed;
      && q <= held + eps && t.bought == l.bought && t.sold == l.sold + q
      && (if held - q <= eps then t.managed == 0.0 && t.average == None
          else t.managed == held - q && t.average == l.average)
  {
    var p;
    q, p := ExecutedFill(eps, l, o);
    AllowedIff(eps, l, o);
    assert Prepared(eps, l, o) == Reconciled(eps, l, o.balance) by { hide Refusal, Allowed; }
    assert q <= Prepared(eps, l, o).managed + eps by { hide Prepared, Refusal, Allowed, FillQuantity; }
    hide Absorbed, Prepared, FillPrice, Books, Prices, Wanted, Residual, Refusal;
  }

  lemma WantedIsPositive(eps: real, l: Ledger, o: Order)
    requires eps >= 0.0 && Allowed(eps, l, o) && (o.side == SELL ==> o.balance > eps)
    ensures Wanted(l, o) > 0.0
  {
  }

  lemma BooksIts(f: Report, wanted: real)
    requires f.Filled?
    ensures Books(f, wanted, FillQuantity(f, wanted)) && Prices(f, FillPrice(f))
    ensures FillPrice(f).Some? ==> FillPrice(f).value > 0.0
  {
  }

  lemma BlendIs(held: real, average: Option<real>, quantity: real, price: real)
    requires held + quantity > 0.0
    ensures Blend(held, if average == None then 0.0 else average.value, quantity, price) * (held + quantity)
         == Weighted(held, average, quantity, price)
  {
    QuotientIs(held * (if average == None then 0.0 else average.value) + quantity * price, held + quantity,
               Blend(held, if average == None then 0.0 else average.value, quantity, price));
  }

  /** What a sell leaves of the inventory before it is booked: no more than the balance. */
  ghost function Held(eps: real, l: Ledger, o: Order): Ledger {
    if o.balance <= eps then Ledger(0.0, None, l.bought, l.sold)
    else if o.balance + eps < l.managed then Ledger(o.balance, l.average, l.bought, l.sold)
    else l
  }

  /** A fill of a sent order is booked exactly when a sell takes no more than is held. */
  lemma BookedIff(eps: real, l: Ledger, o: Order) returns (q: real)
    requires eps >= 0.0 && l.managed >= 0.0 && Submitted(eps, l, o).Some? && o.report.Filled?
    ensures Books(o.report, Wanted(l, o), q)
    ensures OutcomeOf(eps, l, o) == EXECUTED <==> o.side == BUY || q <= Held(eps, l, o).managed + eps
  {
    AskedIff(eps, l, o);
    AllowedIff(eps, l, o);
    q := FillQuantity(o.report, Wanted(l, o));
    BooksIts(o.report, Wanted(l, o));
    hide Wanted, Books, FillQuantity, Refusal, Residual, Normalized, Orderable;
  }

  /** An order that is not booked leaves the inventory as it is, an allowed sell what the balance leaves. */
  lemma UnbookedLeaves(eps: real, l: Ledger, o: Order)
    requires eps >= 0.0 && l.managed >= 0.0 && OutcomeOf(eps, l, o) != EXECUTED
    ensures Executed(eps, l, o) == if o.side == SELL && Allowed(eps, l, o) then Held(eps, l, o) else l
  {
    AllowedIff(eps, l, o);
    hide FillQuantity, FillPrice, Refusal, Residual, Normalized, Applied;
  }

  /** What the caller is told of an order that is not booked. */
  lemma AnsweredAs(eps: real, l: Ledger, o: Order)
    requires eps >= 0.0 && l.managed >= 0.0
    ensures var x, sent := OutcomeOf(eps, l, o), Submitted(eps, l, o).Some?;
      && (!Allowed(eps, l, o) ==> x.BLOCKED? && Refusal(eps, l, o) == Some(x.reason))
      && (Allowed(eps, l, o) && o.side == SELL && o.balance <= eps ==>
            x == BLOCKED("BROKER_SPOT_BALANCE_EMPTY_RECONCILED"))
      && (Allowed(eps, l, o) && o.side == SELL && o.balance > eps && Wanted(l, o) <= eps ==>
            x == BLOCKED("NO_SELLABLE_ATLAS_MANAGED_INVENTORY"))
      && (x == RAISED <==> Asked(eps, l, o).Some? && (!sent || o.report.Raised?))
      && (sent && o.report == Unconfirmed ==> x == SUBMITTED)
      && (sent && o.report.Cancelled? ==> x == if o.report.zeroFill then CANCELLED else SUBMITTED)
      && (sent && o.report.Filled? ==> x == EXECUTED || x == BLOCKED("BROKER_FILL_EXCEEDS_ATLAS_MANAGED_INVENTORY"))
  {
    AllowedIff(eps, l, o);
    AskedIff(eps, l, o);
    hide Refusal, Residual, Normalized, FillQuantity;
  }

  /** The first reason for which an order is refused. */
  lemma RefusedFor(eps: real, l: Ledger, o: Order)
    ensures var r, g := Refusal(eps, l, o), o.gate;
      && (!g.simulation ==> r == Some("BYBIT_TESTNET_OR_DEMO_REQUIRED"))
      && (g.simulation && !g.certified ==> r == Some("BYBIT_SPOT_CERTIFICATION_REQUIRED"))
      && (g.simulation && g.certified && !g.ready ==> r == Some("ROUTE_NOT_READY"))
      && (g.simulation && g.certified && g.ready ==>
            && (o.side == OTHER || o.quantity <= 0.0 ==> r == Some("INVALID_ORDER_PROPOSAL"))
            && (o.side != OTHER && o.quantity > 0.0 ==>
                  && (g.pending ==> r == Some("BYBIT_SUBMISSION_RECONCILIATION_REQUIRED"))
                  && (!g.pending && o.side == BUY && !Allowed(eps, l, o) ==>
                        r == Some("ATLAS_MANAGED_POSITION_ALREADY_OPEN"))
                  && (!g.pending && o.side == SELL && l.managed <= eps ==> r == Some("NO_ATLAS_MANAGED_INVENTORY"))
                  && (!g.pending && o.side == SELL && eps < l.managed && o.quantity > l.managed + eps ==>
                        r == Some("SELL_EXCEEDS_ATLAS_MANAGED_INVENTORY"))))
  {
    DustIff(l.managed, o.lot);
    hide ConfirmedDust, Residual;
  }
}
