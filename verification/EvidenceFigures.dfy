/** What stored evidence says, in the figures of the callbacks and executions it was read from. */
module EvidenceFigures {

  import opened Wrappers
  import opened RealArith
  import opened Folds
  import opened FlexFile
  import opened SavedFills
  import E = Evidence

  // ------------------------------------------------------ proved fills

  function Quantity(c: Callback): real {
    if c.quantity.Figure? then c.quantity.value else 0.0
  }

  function Price(c: Callback): real {
    if c.price.Figure? then c.price.value else 0.0
  }

  function Worth(c: Callback): real {
    Quantity(c) * Price(c)
  }

  ghost predicate IsOwn(c: Callback, callbacks: seq<Callback>, order: string, account: string) {
    c in callbacks && c.order == order && c.account == account
  }

  ghost predicate Named(listing: seq<Callback>, id: string) {
    exists d :: d in listing && d.id == id
  }

  /** One callback for each execution that the account's callbacks of the order report. */
  ghost predicate OneEach(listing: seq<Callback>, callbacks: seq<Callback>, order: string, account: string) {
    && (forall c :: c in listing ==> IsOwn(c, callbacks, order, account))
    && (forall i, j :: 0 <= i < j < |listing| ==> listing[i].id != listing[j].id)
    && (forall c :: IsOwn(c, callbacks, order, account) ==> Named(listing, c.id))
  }

  /** Callbacks of one execution report the same quantity, price and time. */
  ghost predicate Consistent(callbacks: seq<Callback>, order: string, account: string) {
    forall c, d :: IsOwn(c, callbacks, order, account) && IsOwn(d, callbacks, order, account) && c.id == d.id ==>
      Quantity(c) == Quantity(d) && Price(c) == Price(d) && c.time == d.time
  }

  /** A callback that reports an execution of the action's stock on its side, within its lifetime. */
  ghost predicate Plausible(c: Callback, a: Action, now: int) {
    && c.id != "" && c.symbol == a.symbol && c.stock
    && c.side in (if a.side == Some(BUY) then {"BOT", "BUY"} else {"SLD", "SELL"})
    && a.created - 300_000 <= c.time <= now + 300_000
    && c.quantity.Figure? && c.quantity.value > 0.0 && c.price.Figure? && c.price.value > 0.0
  }

  lemma OwnIff(callbacks: seq<Callback>, order: string, account: string)
    ensures forall c :: c in OwnOf(callbacks, order, account) <==> IsOwn(c, callbacks, order, account)
  {
    hide OwnOf;
  }

  lemma SoundIff(a: Action, callbacks: seq<Callback>, account: string, now: int)
    ensures Sound(a, OwnOf(callbacks, a.order, account), now) <==>
      && (exists c :: IsOwn(c, callbacks, a.order, account))
      && (forall c :: IsOwn(c, callbacks, a.order, account) ==> Plausible(c, a, now))
      && Consistent(callbacks, a.order, account)
  {
    var own := OwnOf(callbacks, a.order, account);
    OwnIff(callbacks, a.order, account);
    forall c { BelongsIff(c, a, now); }
    assert own != [] <==> exists c :: c in own by { if own != [] { assert own[0] in own; } }
    hide OwnOf, IsOwn, Belongs, Plausible;
    assert forall c, d :: PartOf(c) == PartOf(d) <==>
      c.id == d.id && Quantity(c) == Quantity(d) && Price(c) == Price(d) && c.time == d.time;
    hide PartOf, Quantity, Price;
  }

  lemma BelongsIff(c: Callback, a: Action, now: int)
    ensures Belongs(c, a, now) <==> Plausible(c, a, now)
  {
  }

  lemma {:induction false} AddsAreSums(rows: seq<Callback>)
    ensures var t := Fold(AddPart, NOTHING, PartsOf(rows));
      t.quantity == SumOf(rows, Quantity) && t.value == SumOf(rows, Worth)
  {
    hide AddPart, Quantity, Worth;
    var parts := PartsOf(rows);
    if rows == [] {
      assert parts == [];
    } else {
      var n := |rows| - 1;
      assert parts[..n] == PartsOf(rows[..n]);
      AddsAreSums(rows[..n]);
      SumOfLast(rows, Quantity);
      SumOfLast(rows, Worth);
      FoldAdds(parts);
      PartAdds(Fold(AddPart, NOTHING, parts[..n]), rows[n]);
      hide Fold, SumOf;
    }
  }

  lemma PartAdds(t: Amounts, c: Callback)
    ensures var r := AddPart(t, PartOf(c));
      r.quantity == t.quantity + Quantity(c) && r.value == t.value + Worth(c)
  {
  }

  lemma ListingIsCollected(callbacks: seq<Callback>, order: string, account: string, listing: seq<Callback>)
    requires OneEach(listing, callbacks, order, account) && Consistent(callbacks, order, account)
    requires Collected(PartsOf(OwnOf(callbacks, order, account)), PartId).Some?
    ensures multiset(Collected(PartsOf(OwnOf(callbacks, order, account)), PartId).value) == multiset(PartsOf(listing))
  {
    var own := OwnOf(callbacks, order, account);
    var parts, mine := Collected(PartsOf(own), PartId).value, PartsOf(listing);
    OwnIff(callbacks, order, account);
    PartsAgreeIff(own);
    PartsAreOwn(own, parts);
    hide Collected, OwnOf;
    assert NoRepeats(parts) && NoRepeats(mine);
    forall p | p in parts ensures p in mine {
      var c :| c in own && PartOf(c) == p;
      assert Named(listing, c.id);
      var d :| d in listing && d.id == c.id;
      var i :| 0 <= i < |listing| && listing[i] == d;
      assert IsOwn(d, callbacks, order, account) && PartOf(d) == p;
      assert mine[i] == p;
    }
    forall p | p in mine ensures p in parts {
      var i :| 0 <= i < |mine| && mine[i] == p;
      assert listing[i] in own && PartOf(listing[i]) == p;
    }
    SameMembersSameCounts(parts, mine);
  }

  /** A fill is proved exactly for an IBKR Paper action with side, order and quantity, when its order
      has callbacks in the account, all plausible and consistent, and their executions add up to the
      quantity. */
  lemma ProvedExactly(a: Action, callbacks: seq<Callback>, account: string, now: int, listing: seq<Callback>)
    requires OneEach(listing, callbacks, a.order, account)
    ensures ProofOf(a, callbacks, account, now).Some? <==>
      && account != "" && a.ibkr && a.paper && a.side.Some? && a.order != "" && a.quantity > 0.0
      && (exists c :: IsOwn(c, callbacks, a.order, account))
      && (forall c :: IsOwn(c, callbacks, a.order, account) ==> Plausible(c, a, now))
      && Consistent(callbacks, a.order, account)
      && -0.0000001 <= SumOf(listing, Quantity) - a.quantity <= 0.0000001
  {
    ProvedIff(a, callbacks, account, now);
    SoundIff(a, callbacks, account, now);
    hide ProofOf, OwnOf, Collected, Fold, SumOf, Sound, OneEach, Plausible, IsOwn, Consistent;
    var own := OwnOf(callbacks, a.order, account);
    if Sound(a, own, now) {
      ListingIsCollected(callbacks, a.order, account, listing);
      AddCommutes();
      FoldIgnoresOrder(AddPart, NOTHING, Collected(PartsOf(own), PartId).value, PartsOf(listing));
      AddsAreSums(listing);
    }
  }

  /** The proof's quantity and value are the sums over the executions ... */
  lemma ProofFigures(a: Action, callbacks: seq<Callback>, account: string, now: int, listing: seq<Callback>)
    requires ProofOf(a, callbacks, account, now).Some? && OneEach(listing, callbacks, a.order, account)
    ensures var p := ProofOf(a, callbacks, account, now).value;
      p.quantity == SumOf(listing, Quantity) && p.price * p.quantity == SumOf(listing, Worth)
  {
    hide ProofOf, OwnOf, Collected, Fold, SumOf, Sound, Plausible, Provable, OneEach, IsOwn, Consistent, ProofFrom;
    var own := OwnOf(callbacks, a.order, account);
    ProofByParts(a, callbacks, account, now);
    SoundIff(a, callbacks, account, now);
    var parts := Collected(PartsOf(own), PartId).value;
    ListingIsCollected(callbacks, a.order, account, listing);
    AddCommutes();
    FoldIgnoresOrder(AddPart, NOTHING, parts, PartsOf(listing));
    AddsAreSums(listing);
    QuotientTimes(a, parts);
  }

  /** ... its time is their last, and it names them. */
  lemma ProofNames(a: Action, callbacks: seq<Callback>, account: string, now: int, listing: seq<Callback>)
    requires ProofOf(a, callbacks, account, now).Some? && OneEach(listing, callbacks, a.order, account)
    ensures var p := ProofOf(a, callbacks, account, now).value;
      && (exists c :: IsOwn(c, callbacks, a.order, account) && c.time == p.time)
      && (forall c :: IsOwn(c, callbacks, a.order, account) ==> c.time <= p.time)
      && p.ids == set c | c in listing :: c.id
  {
    hide ProofOf, OwnOf, OneEach, IsOwn, PartOf;
    var own := OwnOf(callbacks, a.order, account);
    ProofMeans(a, callbacks, account, now);
    OwnIff(callbacks, a.order, account);
    ListedOwn(own, callbacks, a.order, account, listing);
    hide Named;
    SameIds(own, listing);
  }

  lemma QuotientTimes(a: Action, parts: seq<Part>)
    requires ProofFrom(a, parts).Some?
    ensures var p, t := ProofFrom(a, parts).value, Fold(AddPart, NOTHING, parts);
      p.quantity == t.quantity && p.price * p.quantity == t.value
  {
    hide Fold;
  }

  lemma ListedOwn(own: seq<Callback>, callbacks: seq<Callback>, order: string, account: string, listing: seq<Callback>)
    requires OneEach(listing, callbacks, order, account)
    requires forall c :: c in own <==> IsOwn(c, callbacks, order, account)
    ensures forall c :: c in listing ==> c in own
    ensures forall c :: c in own ==> Named(listing, c.id)
  {
    hide IsOwn, Named;
  }

  lemma SameIds(own: seq<Callback>, listing: seq<Callback>)
    requires forall c :: c in listing ==> c in own
    requires forall c :: c in own ==> Named(listing, c.id)
    ensures (set c | c in own :: c.id) == set c | c in listing :: c.id
  {
    var all, named := set c | c in own :: c.id, set c | c in listing :: c.id;
    assert named <= all;
    forall id | id in all ensures id in named {
      var c :| c in own && c.id == id;
      assert Named(listing, id);
    }
  }

  // ------------------------------------------------------- saved fills

  /** The broker's status as the audit holds it: filled as a whole, of the action's order. */
  ghost predicate FilledStatus(a: Action, s: Saved) {
    Filling(a, s) && a.side.Some? && s.remaining == Figure(0.0)
  }

  ghost predicate Filling(a: Action, s: Saved) {
    && s.responseOrder == a.order && s.order == a.order && s.filled
    && s.quantity.Figure? && s.quantity.value > 0.0 && s.price.Figure? && s.price.value > 0.0 && a.quantity > 0.0
    && -0.00000001 <= s.quantity.value - a.quantity <= 0.00000001
  }

  /** A fill is read exactly from a filled status of the account, or for an entry from its saved
      executions; a figure that is no number refuses both. */
  lemma ReadExactly(a: Action, account: string, now: int)
    ensures SavedFill(a, account, now).Some? ==>
      a.ibkr && a.owned && a.status in {"EXECUTED", "EXIT_EXECUTED"} && a.order != "" && a.saved.Some?
    ensures (a.ibkr && a.owned && a.status in {"EXECUTED", "EXIT_EXECUTED"} && a.order != "" && a.saved.Some?
             && FilledStatus(a, a.saved.value)) ==>
      var s := a.saved.value;
      SavedFill(a, account, now) ==
        if s.account == "" || s.account == account
        then Some(Audit(a.order, a.symbol, a.side.value, s.quantity.value, s.price.value, a.status == "EXIT_EXECUTED",
                        a.created))
        else None
    ensures a.saved.Some? && !FilledStatus(a, a.saved.value) ==>
      var s := a.saved.value;
      && (SavedFill(a, account, now).Some? <==>
            && a.ibkr && a.owned && a.status == "EXECUTED" && a.order != "" && a.side.Some?
            && !s.quantity.Malformed? && !s.price.Malformed? && (Filling(a, s) ==> !s.remaining.Malformed?)
            && s.evidence.Some? && s.evidence.value.account == account && account != ""
            && ProofOf(a, s.evidence.value.callbacks, account, now).Some?)
      && (SavedFill(a, account, now).Some? ==>
            var proof := ProofOf(a, s.evidence.value.callbacks, account, now).value;
            SavedFill(a, account, now).value ==
              Audit(a.order, a.symbol, a.side.value, proof.quantity, proof.price, false, proof.time))
  {
    hide ProofOf;
  }

  // ------------------------------------------------------------ closings

  function Profit(c: Callback): real {
    if c.realized.Figure? then c.realized.value else 0.0
  }

  function Fee(c: Callback): real {
    if c.commission.Figure? then c.commission.value else 0.0
  }

  /** The listing names every own callback once. */
  ghost predicate ListsOwn(listing: seq<Callback>, callbacks: seq<Callback>, order: string, account: string) {
    && (forall c :: c in listing <==> IsOwn(c, callbacks, order, account))
    && (forall i, j :: 0 <= i < j < |listing| ==> listing[i] != listing[j])
  }

  lemma {:induction false} RealizedSums(rows: seq<Callback>)
    ensures var r := Fold(E.Realized, Some(0.0), rows);
      && (r.Some? <==> forall c :: c in rows ==> c.pnlAvailable && c.realized.Figure?)
      && (r.Some? ==> r.value == SumOf(rows, Profit))
  {
    if rows != [] {
      var n := |rows| - 1;
      assert rows == rows[..n] + [rows[n]];
      RealizedSums(rows[..n]);
      SumOfLast(rows, Profit);
      hide SumOf;
    }
  }

  lemma {:induction false} ChargedSums(rows: seq<Callback>)
    ensures var r := Fold(E.Charged, Some(0.0), rows);
      && (r.Some? <==> forall c :: c in rows ==> c.commission.Figure?)
      && (r.Some? ==> r.value == SumOf(rows, Fee))
  {
    if rows != [] {
      var n := |rows| - 1;
      assert rows == rows[..n] + [rows[n]];
      ChargedSums(rows[..n]);
      SumOfLast(rows, Fee);
      hide SumOf;
    }
  }

  /** Own callbacks of one execution are the same in every field. */
  ghost predicate Identical(callbacks: seq<Callback>, order: string, account: string) {
    forall c, d :: IsOwn(c, callbacks, order, account) && IsOwn(d, callbacks, order, account) && c.id == d.id ==> c == d
  }

  /** A closing is confirmed exactly for an own Paper exit with an audited fill and a proof of it at
      the same price and in the audit's time, when repeated callbacks are identical and every
      figure they give is a number in USD. */
  lemma ClosedIff(exit: Action, callbacks: seq<Callback>, account: string, now: int)
    ensures E.ClosingOf(exit, callbacks, account, now).Some? <==>
      var audit, proof := SavedFill(exit, account, now), ProofOf(exit, callbacks, account, now);
      && exit.ibkr && exit.paper && exit.owned && exit.status == "EXIT_EXECUTED" && audit.Some? && proof.Some?
      && -0.0001 <= audit.value.price - proof.value.price <= 0.0001
      && exit.created - 300_000 <= proof.value.time <= exit.created + 86_400_000
      && Identical(callbacks, exit.order, account)
      && forall c :: IsOwn(c, callbacks, exit.order, account) ==>
           && !c.commission.Malformed? && !c.realized.Malformed?
           && (c.commission.Figure? || c.realized.Figure? ==> c.currency == "USD")
  {
    OwnIff(callbacks, exit.order, account);
    E.GatheredIffAgree(callbacks, exit, account);
    var own, rows := OwnOf(callbacks, exit.order, account), E.Gathered(callbacks, exit, account);
    hide SavedFill, ProofOf, OwnOf, E.Gathered, E.ClosingFrom, IsOwn;
    if rows.Some? {
      forall c | c in own ensures exists i :: 0 <= i < |rows.value| && rows.value[i] == c {
        assert c in rows.value;
      }
      forall i | 0 <= i < |rows.value| ensures rows.value[i] in own {
        assert rows.value[i] in rows.value;
      }
    }
  }

  lemma ListedIsGathered(exit: Action, callbacks: seq<Callback>, account: string, listing: seq<Callback>)
    requires E.Gathered(callbacks, exit, account).Some? && ListsOwn(listing, callbacks, exit.order, account)
    ensures multiset(E.Gathered(callbacks, exit, account).value) == multiset(listing)
  {
    OwnIff(callbacks, exit.order, account);
    E.GatheredIffAgree(callbacks, exit, account);
    var rows := E.Gathered(callbacks, exit, account).value;
    E.ListedOnce(rows, OwnOf(callbacks, exit.order, account));
    hide OwnOf, E.Gathered, IsOwn;
    SameMembersSameCounts(rows, listing);
  }

  /** The figures of a closing: the audited quantity, and profit and commission exactly when every
      own callback gives them, summed over these callbacks ... */
  lemma ClosingFigures(exit: Action, callbacks: seq<Callback>, account: string, now: int, listing: seq<Callback>)
    requires E.ClosingOf(exit, callbacks, account, now).Some? && ListsOwn(listing, callbacks, exit.order, account)
    ensures var x := E.ClosingOf(exit, callbacks, account, now).value;
      && exit.saved.Some? && exit.saved.value.quantity == Figure(x.quantity)
      && (x.pnl.Some? <==> forall c :: c in listing ==> c.pnlAvailable && c.realized.Figure?)
      && (x.pnl.Some? ==> x.pnl.value == SumOf(listing, Profit))
      && (x.commission.Some? <==> forall c :: c in listing ==> c.commission.Figure?)
      && (x.commission.Some? ==> x.commission.value == SumOf(listing, Fee))
  {
    hide SavedFill, ProofOf, OwnOf, E.Gathered, IsOwn, ListsOwn, Fold, SumOf;
    ReadExactly(exit, account, now);
    ListedIsGathered(exit, callbacks, account, listing);
    E.ClosingAlike(SavedFill(exit, account, now).value, ProofOf(exit, callbacks, account, now).value,
                   E.Gathered(callbacks, exit, account).value, listing);
    RealizedSums(listing);
    ChargedSums(listing);
  }

  /** ... its time is that of the last of them, and it keeps them and names their executions. */
  lemma ClosingNames(exit: Action, callbacks: seq<Callback>, account: string, now: int, listing: seq<Callback>)
    requires E.ClosingOf(exit, callbacks, account, now).Some? && ListsOwn(listing, callbacks, exit.order, account)
    ensures var x := E.ClosingOf(exit, callbacks, account, now).value;
      && x.rows == (set c | c in listing) && x.ids == (set c | c in listing :: c.id)
      && (exists c :: c in listing && c.time == x.time) && (forall c :: c in listing ==> c.time <= x.time)
  {
    hide SavedFill, ProofOf, OwnOf, E.Gathered, PartOf, Fold;
    ProofMeans(exit, callbacks, account, now);
    OwnIff(callbacks, exit.order, account);
    ListedIsGathered(exit, callbacks, account, listing);
    E.ClosingAlike(SavedFill(exit, account, now).value, ProofOf(exit, callbacks, account, now).value,
                   E.Gathered(callbacks, exit, account).value, listing);
    hide IsOwn;
    assert (set c | c in OwnOf(callbacks, exit.order, account) :: c.id) == set c | c in listing :: c.id;
  }

  // ------------------------------------------- statements and openings

  function Amount(e: Execution): real {
    e.quantity
  }

  function Value(e: Execution): real {
    e.quantity * e.price
  }

  function SignedFee(e: Execution): real {
    e.commission
  }

  function Gain(e: Execution): real {
    if e.pnl.Some? then e.pnl.value else 0.0
  }

  ghost predicate Latest(group: seq<Execution>, time: int) {
    (exists e :: e in group && e.time == time) && (forall e :: e in group ==> e.time <= time)
  }

  lemma {:induction false} AmountsAreSums(group: seq<Execution>)
    ensures var t := E.Sum(group);
      t.quantity == SumOf(group, Amount) && t.value == SumOf(group, Value) && t.fees == SumOf(group, SignedFee)
  {
    if group != [] {
      AmountsAreSums(group[..|group| - 1]);
      SumOfLast(group, Amount);
      SumOfLast(group, Value);
      SumOfLast(group, SignedFee);
      hide SumOf;
    }
  }

  lemma {:induction false} GainsAreSums(group: seq<Execution>)
    ensures var t := E.Sum(group);
      && (t.pnl.Some? <==> forall e :: e in group ==> e.pnl.Some?)
      && (t.pnl.Some? ==> t.pnl.value == SumOf(group, Gain))
  {
    if group != [] {
      var n := |group| - 1;
      assert group == group[..n] + [group[n]];
      GainsAreSums(group[..n]);
      SumOfLast(group, Gain);
      hide SumOf;
    }
  }

  lemma {:induction false} LatestIsLast(group: seq<Execution>)
    requires group != []
    ensures E.Sum(group).latest.Some? && Latest(group, E.Sum(group).latest.value)
  {
    var n := |group| - 1;
    var less, last := group[..n], group[n];
    assert group == less + [last] && E.Sum(group) == E.Plus(E.Sum(less), last);
    if n > 0 { LatestIsLast(less); } else { assert E.Sum(less) == E.NO_TRADES; }
    hide E.Sum;
    assert last in group && forall e :: e in group <==> e in less || e == last;
  }

  lemma QuotientTimesIs(value: real, quantity: real)
    requires quantity > 0.0
    ensures value / quantity * quantity == value
  {
  }

  /** Statement evidence exists exactly when a saved fill and at least one execution do, the
      executions are of one order and agree with the fill in symbol, side, open or close and time,
      and cover its quantity at its price. */
  lemma StatementIff(audit: Option<Audit>, group: seq<Execution>)
    requires forall i :: 0 <= i < |group| ==> group[i].quantity > 0.0
    ensures E.StatementEvidence(audit, group).Some? <==>
      && audit.Some? && group != []
      && (forall e :: e in group ==>
            && e.order == group[0].order && e.symbol == Upper(audit.value.symbol) && e.side == audit.value.side
            && e.closed == audit.value.closed && -300_000 <= audit.value.time - e.time <= 86_400_000)
      && -0.00000001 <= SumOf(group, Amount) - audit.value.quantity <= 0.00000001
      && SumOf(group, Amount) > 0.0
      && -0.0001 <= SumOf(group, Value) / SumOf(group, Amount) - audit.value.price <= 0.0001
  {
    AmountsAreSums(group);
    hide E.Sum, SumOf, Upper;
    if group != [] && audit.Some? {
      assert (forall e :: e in group ==> E.Agrees(e, audit.value, group[0].order))
        <==> forall i :: 0 <= i < |group| ==> E.Agrees(group[i], audit.value, group[0].order);
    }
  }

  /** Its figures: the quantity-weighted price, the last time, the commission with its sign turned,
      and the realized P&L of a close whose executions all report one. */
  lemma StatementFigures(audit: Option<Audit>, group: seq<Execution>)
    requires (forall i :: 0 <= i < |group| ==> group[i].quantity > 0.0) && E.StatementEvidence(audit, group).Some?
    ensures var x := E.StatementEvidence(audit, group).value;
      && x.Imported? && x.order == audit.value.order && x.symbol == audit.value.symbol && x.side == audit.value.side
      && x.closed == audit.value.closed && x.trades == (set e | e in group)
      && x.quantity == SumOf(group, Amount) && x.price * x.quantity == SumOf(group, Value)
      && x.commission == -SumOf(group, SignedFee) && Latest(group, x.time)
      && (x.pnl.Some? <==> x.closed && forall e :: e in group ==> e.pnl.Some?)
      && (x.pnl.Some? ==> x.pnl.value == SumOf(group, Gain))
  {
    hide E.Sum, SumOf, Latest, E.Agrees;
    AmountsAreSums(group);
    GainsAreSums(group);
    LatestIsLast(group);
    QuotientTimesIs(E.Sum(group).value, E.Sum(group).quantity);
  }

  /** An opening is confirmed exactly for an own Paper entry on the other side of the exit's symbol,
      whose executions are of one order, each named once, opening, of its symbol and side, between
      its audit and the close, and of the quantity of both. */
  lemma OpeningIff(entry: Action, exit: Action, group: seq<Execution>, close: E.Closing)
    requires forall i :: 0 <= i < |group| ==> group[i].quantity > 0.0
    ensures E.OpeningOf(entry, exit, group, close).Some? <==>
      && entry.ibkr && entry.paper && entry.owned && entry.status == "EXECUTED" && entry.side.Some? && entry.order != ""
      && entry.symbol == exit.symbol && entry.side != exit.side && group != []
      && (forall e :: e in group ==> OpeningRow(e, entry, close, group[0].order))
      && (forall i, j :: 0 <= i < j < |group| ==> group[i].id != group[j].id && group[i].callback != group[j].callback)
      && -0.00000001 <= SumOf(group, Amount) - entry.quantity <= 0.00000001
      && -0.00000001 <= SumOf(group, Amount) - close.quantity <= 0.00000001
  {
    hide E.Sum, SumOf, E.AllOpen, E.Apart, OpeningRow;
    AmountsAreSums(group);
    if group != [] { RowsIff(group, entry, close, group[0].order); }
    PairsIff(group);
  }

  lemma RowsIff(group: seq<Execution>, entry: Action, close: E.Closing, order: string)
    ensures (forall e :: e in group ==> OpeningRow(e, entry, close, order)) <==>
      E.AllOpen(group, entry, order, close.time)
  {
    forall e { RowIff(e, entry, close, order); }
    hide E.OpensFor, OpeningRow;
    assert forall i :: 0 <= i < |group| ==> group[i] in group;
  }

  lemma PairsIff(group: seq<Execution>)
    ensures (forall i, j :: 0 <= i < j < |group| ==>
               group[i].id != group[j].id && group[i].callback != group[j].callback) <==> E.Apart(group)
  {
  }

  ghost predicate OpeningRow(e: Execution, entry: Action, close: E.Closing, order: string) {
    && e.order == order && e.callback.Some? && e.callback.value != "" && !e.closed
    && e.symbol == entry.symbol && entry.side == Some(e.side)
    && entry.created - 300_000 <= e.time <= close.time
  }

  lemma RowIff(e: Execution, entry: Action, close: E.Closing, order: string)
    ensures OpeningRow(e, entry, close, order) <==>
      E.OpensFor(e, entry, order) && entry.created - 300_000 <= e.time <= close.time
  {
  }

  lemma OpeningFigures(entry: Action, exit: Action, group: seq<Execution>, close: E.Closing)
    requires (forall i :: 0 <= i < |group| ==> group[i].quantity > 0.0)
      && E.OpeningOf(entry, exit, group, close).Some?
    ensures var x := E.OpeningOf(entry, exit, group, close).value;
      && x.quantity == SumOf(group, Amount) && x.price * x.quantity == SumOf(group, Value)
      && x.commission == -SumOf(group, SignedFee) && Latest(group, x.time)
  {
    hide E.Sum, SumOf, Latest, E.AllOpen, E.Apart;
    AmountsAreSums(group);
    LatestIsLast(group);
    QuotientTimesIs(E.Sum(group).value, E.Sum(group).quantity);
  }

  // ------------------------------------------------------------- the store

  /** What an applied recovery stores for its pair: both rows name the pair and the file and hold
      both figures; the entry's holds the executions of the order, the exit's none. */
  lemma RecoveredRows(s: E.Store, r: E.Recovery, stamp: E.Stamp)
    requires ValidFile(r.file) && E.Recoverable(s, r) && r.apply
    ensures var t, closing := E.AfterRecovery(s, r, stamp), E.ClosingOf(r.exit, r.callbacks, r.account, r.now);
      && (forall i :: 0 <= i < |r.ids| ==> r.ids[i] in r.file) && closing.Some?
      && var opening := E.OpeningOf(r.entry, r.exit, E.Group(r.file, r.ids), closing.value);
         var trades := set x | x in r.ids :: r.file[x];
         && opening.Some? && r.entry.id in t && r.exit.id in t
         && t[r.entry.id].core == E.Recovered(E.OPENING, r.entry.id, r.exit.id, opening.value, closing.value, r.hash,
                                              trades, trades)
         && t[r.exit.id].core == E.Recovered(E.CLOSING, r.entry.id, r.exit.id, opening.value, closing.value, r.hash,
                                             trades, {})
         && (forall a :: a in t && a !in {r.entry.id, r.exit.id} ==> a in s && t[a] == s[a])
         && (r.entry.id !in s ==> t[r.entry.id].stamp == stamp) && (r.exit.id !in s ==> t[r.exit.id].stamp == stamp)
  {
    hide E.ClosingOf, E.OpeningOf, E.HeldByOthers;
    E.WholeOrderIsKnown(r.file, r.ids);
    E.GroupSet(r.file, r.ids);
  }

  /** An action's executions may be stored: they are distinct, known, all of one order, and no other
      stored action holds one. */
  ghost predicate Free(s: E.Store, file: File, action: string, ids: seq<string>) {
    && ids != [] && (forall i, j :: 0 <= i < j < |ids| ==> ids[i] != ids[j])
    && (forall i :: 0 <= i < |ids| ==> ids[i] in file)
    && (forall x :: x in file && file[x].order == file[ids[0]].order ==> x in ids)
    && (forall x :: x in ids ==> file[x].order == file[ids[0]].order)
    && (forall a, e :: a in s && a != action && e in s[a].core.trades ==> e.id !in ids)
  }

  lemma FreeIff(s: E.Store, file: File, action: string, ids: seq<string>)
    ensures Free(s, file, action, ids) <==> E.WholeOrder(file, ids) && !E.HeldByOthers(s, action, ids)
  {
    if ids != [] && forall i :: 0 <= i < |ids| ==> ids[i] in file {
      assert (forall a, e :: a in s && a != action && e in s[a].core.trades ==> e.id !in ids)
        <==> !E.HeldByOthers(s, action, ids) by { HeldIff(s, action, ids); }
    }
  }

  lemma HeldIff(s: E.Store, action: string, ids: seq<string>)
    ensures E.HeldByOthers(s, action, ids) <==>
      !(forall a, e :: a in s && a != action && e in s[a].core.trades ==> e.id !in ids)
  {
    if !(forall a, e :: a in s && a != action && e in s[a].core.trades ==> e.id !in ids) {
      var a, e :| a in s && a != action && e in s[a].core.trades && e.id in ids;
      assert e.id in E.Ids(s[a].core.trades);
    }
  }

  /** An action of the profile is given free executions that no earlier one of the mapping has,
      evidence of its saved fill, and the same evidence as is stored, if any is. */
  ghost predicate Passes(s: E.Store, r: E.Import, i: nat)
    requires ValidFile(r.file) && i < |r.mapping|
  {
    var m := r.mapping[i];
    && m.action in r.actions && Free(s, r.file, m.action, m.ids) && (forall x :: x in m.ids ==> x in r.file)
    && (forall j, x :: 0 <= j < i && x in m.ids ==> x !in r.mapping[j].ids)
    && var x := E.StatementEvidence(SavedFill(r.actions[m.action], r.account, r.now), E.Group(r.file, m.ids));
       x.Some? && (m.action in s ==> s[m.action].core == x.value)
  }

  lemma FitsIff(s: E.Store, r: E.Import, i: nat)
    requires ValidFile(r.file) && i < |r.mapping|
    ensures E.Fits(s, r, i) <==> Passes(s, r, i)
  {
    var m := r.mapping[i];
    hide E.StatementEvidence, SavedFill, E.WholeOrder, E.HeldByOthers;
    FreeIff(s, r.file, m.action, m.ids);
    if Free(s, r.file, m.action, m.ids) { FreeIsKnown(s, r.file, m.action, m.ids); }
    hide Free;
  }

  lemma FreeIsKnown(s: E.Store, file: File, action: string, ids: seq<string>)
    requires Free(s, file, action, ids)
    ensures forall x :: x in ids ==> x in file
  {
  }

  /** A mapping is accepted exactly when applying is asked of a nonempty one and all of it passes. */
  lemma AcceptedIff(s: E.Store, r: E.Import)
    requires ValidFile(r.file)
    ensures E.Accepted(s, r) <==> (r.apply ==> r.mapping != []) && forall i :: 0 <= i < |r.mapping| ==> Passes(s, r, i)
  {
    forall i | 0 <= i < |r.mapping| ensures E.Fits(s, r, i) <==> Passes(s, r, i) { FitsIff(s, r, i); }
    hide E.Fits, Passes;
  }

  /** What an accepted, applied import stores: for each mapped action the evidence of its saved fill
      and its executions, under the request's stamp where there was no row; nothing else. */
  lemma ImportedRows(s: E.Store, r: E.Import, stamp: E.Stamp)
    requires ValidFile(r.file) && E.IsDictionary(r.mapping) && E.Accepted(s, r) && r.apply
    ensures var t := E.AfterImport(s, r, stamp);
      && (forall a :: a in t <==> a in s || exists i :: 0 <= i < |r.mapping| && r.mapping[i].action == a)
      && (forall a :: a in s ==> t[a] == s[a])
      && (forall i :: 0 <= i < |r.mapping| ==>
            var m := r.mapping[i];
            && m.action in r.actions && (forall x :: x in m.ids ==> x in r.file)
            && Some(t[m.action].core)
                 == E.StatementEvidence(SavedFill(r.actions[m.action], r.account, r.now), E.Group(r.file, m.ids))
            && (m.action !in s ==> t[m.action].stamp == stamp))
  {
    var t := E.AfterImport(s, r, stamp);
    E.AcceptedFits(s, r);
    E.WrittenFrom(s, r, stamp, |r.mapping|);
    E.WrittenRows(s, r, stamp, |r.mapping|);
    assert t == E.Written(s, r, stamp, |r.mapping|);
    hide E.AfterImport, E.Written, E.Accepted, E.IsDictionary, SavedFill, E.StatementEvidence, E.HeldByOthers,
      E.ClaimedBefore;
    forall i | 0 <= i < |r.mapping| ensures r.mapping[i].action in t {}
    hide E.WholeOrder;
    forall i | 0 <= i < |r.mapping|
      ensures var m := r.mapping[i];
        && m.action in r.actions && (forall x :: x in m.ids ==> x in r.file)
        && Some(t[m.action].core)
             == E.StatementEvidence(SavedFill(r.actions[m.action], r.account, r.now), E.Group(r.file, m.ids))
        && (m.action !in s ==> t[m.action].stamp == stamp)
    {
      assert E.Fits(s, r, i) && E.EvidenceFor(r, i).Some?;
    }
  }

  /** Duplicates are the mapped actions that have a row. */
  lemma {:induction false} DuplicatesAreCounted(s: E.Store, mapping: seq<E.Mapped>, n: nat)
    requires n <= |mapping|
    ensures E.Duplicates(s, mapping, n) == |set i | 0 <= i < n && mapping[i].action in s|
  {
    if n > 0 {
      DuplicatesAreCounted(s, mapping, n - 1);
      var before := set i | 0 <= i < n - 1 && mapping[i].action in s;
      var all := set i | 0 <= i < n && mapping[i].action in s;
      assert all == if mapping[n - 1].action in s then before + {n - 1} else before;
    }
  }

  /** A pair is recovered exactly when the review names an entry that the exit references, with free
      executions that confirm its opening, a confirmed closing, and the same rows as are stored, if
      any are. */
  lemma RecoverableIff(s: E.Store, r: E.Recovery)
    requires ValidFile(r.file)
    ensures E.Recoverable(s, r) <==>
      && r.reviewed && r.entry.id != r.exit.id && r.linked == Some(r.entry.id)
      && Free(s, r.file, r.entry.id, r.ids) && (forall x :: x in r.ids ==> x in r.file)
      && var closing := E.ClosingOf(r.exit, r.callbacks, r.account, r.now);
         && closing.Some?
         && var opening := E.OpeningOf(r.entry, r.exit, E.Group(r.file, r.ids), closing.value);
            var trades := set x | x in r.ids :: r.file[x];
            && opening.Some?
            && (r.entry.id in s ==>
                s[r.entry.id].core == E.Recovered(E.OPENING, r.entry.id, r.exit.id, opening.value, closing.value,
                                                  r.hash,
                                                  trades, trades))
            && (r.exit.id in s ==>
                s[r.exit.id].core == E.Recovered(E.CLOSING, r.entry.id, r.exit.id, opening.value, closing.value, r.hash,
                                                 trades, {}))
  {
    hide E.ClosingOf, E.OpeningOf, E.HeldByOthers, E.WholeOrder;
    FreeIff(s, r.file, r.entry.id, r.ids);
    if Free(s, r.file, r.entry.id, r.ids) {
      FreeIsKnown(s, r.file, r.entry.id, r.ids);
      E.GroupSet(r.file, r.ids);
    }
    hide Free;
  }
}
