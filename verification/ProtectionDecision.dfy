/** What the bridge decides and the manager keeps, in the fields of orders and requests. */
module ProtectionDecision {

  import opened Wrappers
  import opened Protection

  /** A listed order has the account, side, remaining quantity and settings that the pair asks for,
      and the given kind and price. */
  ghost predicate AskedLeg(o: Order, p: Pair, kind: Kind, price: real) {
    && o.account == p.account && o.stock && o.sell == p.long && o.kind == kind
    && -0.00000001 <= o.price - price <= 0.00000001 && -0.00000001 <= o.remaining - p.quantity <= 0.00000001
    && o.group == p.group && o.ref == p.group && o.ocaType == 2 && o.clientId == p.clientId
    && o.goodTillCancelled && !o.outsideHours
  }

  ghost predicate Works(o: Order) {
    o.status == "PreSubmitted" || o.status == "Submitted"
  }

  ghost predicate Staged(o: Order) {
    o.status == "ApiPending" && !o.transmit && o.permId == 0
  }

  /** The orders are a working stop at the asked stop price and a working target at the asked target
      price, and nothing else. */
  ghost predicate PairStands(orders: seq<Order>, p: Pair) {
    |orders| == 2 && exists i ::
      (0 <= i < 2
       && AskedLeg(orders[i], p, STP, p.stop) && Works(orders[i])
       && AskedLeg(orders[1 - i], p, LMT, p.target) && Works(orders[1 - i]))
  }

  /** The orders are the two saved ones: the stop still staged, the target working. */
  ghost predicate StopStaged(orders: seq<Order>, p: Pair, saved: seq<int>, o: Order) {
    |orders| == 2 && |saved| == 2 && saved[0] != saved[1] && exists i ::
      (0 <= i < 2
       && orders[i] == o && AskedLeg(o, p, STP, p.stop) && Staged(o)
       && AskedLeg(orders[1 - i], p, LMT, p.target) && Works(orders[1 - i])
       && ((o.id == saved[0] && orders[1 - i].id == saved[1]) || (o.id == saved[1] && orders[1 - i].id == saved[0])))
  }

  lemma GroupOfTwo(orders: seq<Order>, group: string)
    requires |orders| == 2
    ensures |OfGroup(orders, group)| == 2 <==> orders[0].group == group && orders[1].group == group
    ensures |OfGroup(orders, group)| == 2 ==> OfGroup(orders, group) == orders
  {
    assert orders[1..][1..] == [];
    assert OfGroup(orders[1..], group) == if orders[1].group == group then [orders[1]] else [];
    assert orders == [orders[0], orders[1]];
  }

  lemma LegMatchesIff(o: Order, p: Pair)
    ensures LegMatches(o, p) <==>
      Works(o) && AskedLeg(o, p, o.kind, if o.kind == STP then p.stop else p.target)
  {
  }

  lemma PairMatchesIff(orders: seq<Order>, p: Pair)
    ensures PairMatches(orders, p) <==> PairStands(orders, p)
  {
    if |orders| == 2 {
      LegMatchesIff(orders[0], p);
      LegMatchesIff(orders[1], p);
      hide LegMatches, Works;
      if PairMatches(orders, p) {
        var i := if orders[0].kind == STP then 0 else 1;
        assert AskedLeg(orders[i], p, STP, p.stop) && AskedLeg(orders[1 - i], p, LMT, p.target);
      }
      if PairStands(orders, p) {
        var i :| 0 <= i < 2 && AskedLeg(orders[i], p, STP, p.stop) && Works(orders[i])
                 && AskedLeg(orders[1 - i], p, LMT, p.target) && Works(orders[1 - i]);
      }
    }
  }

  lemma StandingIsOfGroup(orders: seq<Order>, p: Pair)
    ensures PairMatches(OfGroup(orders, p.group), p) && |orders| == 2 <==> PairStands(orders, p)
  {
    PairMatchesIff(OfGroup(orders, p.group), p);
    if |orders| == 2 {
      GroupOfTwo(orders, p.group);
      hide OfGroup, PairMatches;
    }
  }

  lemma StagedStopIff(orders: seq<Order>, p: Pair, saved: seq<int>, o: Order)
    ensures StagedStop(orders, p, saved) == Some(o) <==> StopStaged(orders, p, saved, o)
  {
    if |orders| == 2 && |saved| == 2 && saved[0] != saved[1] {
      GroupOfTwo(orders, p.group);
      hide OfGroup;
      StagedAt(orders, p, saved, o);
    }
  }

  lemma StagedAt(orders: seq<Order>, p: Pair, saved: seq<int>, o: Order)
    requires |orders| == 2 && |saved| == 2 && saved[0] != saved[1]
    requires OfGroup(orders, p.group) == orders <==> orders[0].group == p.group && orders[1].group == p.group
    requires |OfGroup(orders, p.group)| == 2 ==> OfGroup(orders, p.group) == orders
    ensures StagedStop(orders, p, saved) == Some(o) <==> StopStaged(orders, p, saved, o)
  {
    hide OfGroup;
    LegMatchesIff(orders[0].(status := "Submitted"), p);
    LegMatchesIff(orders[1].(status := "Submitted"), p);
    LegMatchesIff(orders[0], p);
    LegMatchesIff(orders[1], p);
    hide LegMatches;
    if StopStaged(orders, p, saved, o) {
      var i :| 0 <= i < 2 && orders[i] == o && AskedLeg(o, p, STP, p.stop) && Staged(o)
        && AskedLeg(orders[1 - i], p, LMT, p.target) && Works(orders[1 - i])
        && ((o.id == saved[0] && orders[1 - i].id == saved[1]) || (o.id == saved[1] && orders[1 - i].id == saved[0]));
    }
    if StagedStop(orders, p, saved) == Some(o) {
      var k := if IsStaged(orders[0]) then 0 else 1;
      assert orders[k] == o;
    }
  }

  // -------------------------------------------------------- the decision

  /** A call is answered as protected, without any order, exactly when the asked pair stands. */
  lemma ProtectedIff(c: Call, attempted: bool, next: Option<int>, r: Reads)
    ensures Decide(c, attempted, next, r) == AlreadyProtected <==> r.early == None && PairStands(r.orders, r.pair)
  {
    StandingIsOfGroup(r.orders, r.pair);
    hide OfGroup, PairMatches, PairStands, StagedStop;
  }

  /** An order is transmitted exactly when it is the verified, still staged stop of the saved pair,
      and then it is that order. */
  lemma TransmittedIff(c: Call, attempted: bool, next: Option<int>, r: Reads, o: Order)
    ensures Decide(c, attempted, next, r) == Transmit(o) <==>
      r.early == None && !c.allow && r.stagedVerified && StopStaged(r.orders, r.pair, c.saved, o)
  {
    StandingIsOfGroup(r.orders, r.pair);
    StagedStopIff(r.orders, r.pair, c.saved, o);
    StagedDoesNotStand(r.orders, r.pair, c.saved, o);
    hide OfGroup, PairMatches, PairStands, StagedStop, StopStaged;
  }

  lemma StagedDoesNotStand(orders: seq<Order>, p: Pair, saved: seq<int>, o: Order)
    ensures StopStaged(orders, p, saved, o) ==> !PairStands(orders, p)
  {
  }

  /** A new pair is placed exactly for an allowed call that was not attempted, while the symbol has
      no order; it takes the identities behind the one of the what-if check. */
  lemma PlacedIff(c: Call, attempted: bool, next: Option<int>, r: Reads, base: int)
    ensures Decide(c, attempted, next, r) == PlaceFresh(base) <==>
      r.early == None && r.late == None && r.orders == [] && c.allow && !attempted && next == Some(base - 1)
  {
    StandingIsOfGroup(r.orders, r.pair);
    hide PairMatches, OfGroup;
  }

  /** Which refusal is given, the first that applies. */
  lemma RefusedAs(c: Call, attempted: bool, next: Option<int>, r: Reads)
    ensures var d := Decide(c, attempted, next, r);
      && (r.early.Some? ==> d == Refuse(r.early.value))
      && (r.early == None && !PairStands(r.orders, r.pair) && r.orders != [] ==>
          && (!c.allow && !r.stagedVerified && (exists o :: StopStaged(r.orders, r.pair, c.saved, o)) ==>
              d == Refuse(HttpError(409, "PROTECTION_STAGED_ORDER_NOT_VERIFIED")))
          && (c.allow || !(exists o :: StopStaged(r.orders, r.pair, c.saved, o)) ==>
              d == Refuse(HttpError(409, "PROTECTION_EXISTING_ORDERS_REQUIRE_RECONCILIATION"))))
      && (r.early == None && r.orders == [] && (!c.allow || attempted) ==>
          d == Refuse(HttpError(409, "PROTECTION_SUBMISSION_OUTCOME_UNRESOLVED")))
      && (r.early == None && r.orders == [] && c.allow && !attempted ==>
          && (next == None ==> d == Refuse(HttpError(503, "IBKR next order id unavailable")))
          && (next.Some? && r.late.Some? ==> d == RefuseAfterWhatIf(r.late.value, next.value + 1)))
  {
    StandingIsOfGroup(r.orders, r.pair);
    var staged := StagedStop(r.orders, r.pair, c.saved);
    forall o { StagedStopIff(r.orders, r.pair, c.saved, o); }
    if staged.Some? { assert StopStaged(r.orders, r.pair, c.saved, staged.value); }
    if r.orders == [] { assert StagedStop(r.orders, r.pair, c.saved) == None; }
    hide OfGroup, PairMatches, PairStands, StagedStop, StopStaged;
  }

  // --------------------------------------------------- what was placed

  /** The row that the broker lists for an order. */
  function Listed(t: Ticket, id: int, clientId: int, permId: int, status: string): Order {
    Order(id, t.account, t.stock, t.sell, t.kind, t.group, t.ref, t.ocaType, clientId, t.goodTillCancelled,
          t.outsideHours, status, t.quantity, t.price, t.transmit, permId)
  }

  ghost predicate RowOf(o: Order, t: Ticket, id: int, clientId: int) {
    Works(o) && o == Listed(t, id, clientId, o.permId, o.status)
  }

  /** The rows of the two orders that a placement sends, while they work, in either order. */
  ghost predicate ListsPair(rows: seq<Order>, p: Pair, base: int) {
    |rows| == 2 && exists i ::
      (0 <= i < 2
       && RowOf(rows[i], LegTicket(p, 0), base, p.clientId)
       && RowOf(rows[1 - i], LegTicket(p, 1), base + 1, p.clientId))
  }

  /** A placed pair is the asked pair: it is confirmed, and a later call finds it standing. */
  lemma PlacedPairStands(rows: seq<Order>, p: Pair, base: int)
    requires ListsPair(rows, p, base)
    ensures PairStands(rows, p) && Confirmed(Some(rows), p)
  {
    var i :| 0 <= i < 2 && RowOf(rows[i], LegTicket(p, 0), base, p.clientId)
      && RowOf(rows[1 - i], LegTicket(p, 1), base + 1, p.clientId);
    assert AskedLeg(rows[i], p, STP, p.stop) && AskedLeg(rows[1 - i], p, LMT, p.target);
    PairMatchesIff(rows, p);
    hide LegTicket, PairMatches;
  }

  // ------------------------------------------------- what the manager keeps

  /** An answer that is trusted gives the record its status, and its identities when it names any;
      any other answer leaves the identities. */
  lemma AnswerIsKept(s: State, e: EntryKey, allow: bool, reply: Reply)
    requires e in s.records
    ensures var before, after := s.records[e], Apply(s, e, allow, reply).records[e];
      && (reply.Result? && reply.trusted && reply.ids.Some? ==> after == Record(reply.status, reply.ids.value))
      && (reply.Result? && reply.trusted && reply.ids == None ==> after == Record(reply.status, before.ids))
      && (reply.Result? && !reply.trusted ==> after == Record(PENDING, before.ids))
      && (reply.Failure? ==> after.ids == before.ids && after.status in {before.status, PRE_SUBMISSION_BLOCKED})
      && (reply.Failure? && after.status != before.status ==> allow && reply.error.code == 503)
  {
  }

  /** The stop that a pending placement left staged is recovered: the delivered identities are sent
      with the next call, and the bridge transmits that very order. */
  lemma StagedStopIsRecovered(s: State, e: EntryKey, base: int, seen: Reads, stop: Order)
    requires e in s.waiting && s.waiting[e].sent && s.waiting[e].call in s.replies && e in s.records
    requires s.replies[s.waiting[e].call] == Result(PENDING, Some([base, base + 1]), true) && s.active == None
    requires seen.early == None && seen.stagedVerified && StopStaged(seen.orders, seen.pair, [base, base + 1], stop)
    ensures var call := Call(s.calls, e, false, [base, base + 1]);
      var t := Next(Next(Next(s, Deliver(e)), Begin(e)), Send(e));
      var u := Next(Next(t, Accept(call)), Check(seen));
      && call in t.requests && u.active == Some((call, Unverified(call.saved, seen.pair)))
      && u.placements == s.placements + [Placement(e, stop.id, false, Transmitted(stop))]
      && stop.id in {base, base + 1} && u.nextId == s.nextId && u.runs == s.runs
  {
    var call := Call(s.calls, e, false, [base, base + 1]);
    TransmittedIff(call, e in s.attempts, s.nextId, seen, stop);
    hide Decide, StopStaged, Transmitted;
    var t1 := Next(s, Deliver(e));
    assert t1.records[e] == Record(PENDING, [base, base + 1]) && e !in t1.waiting;
    var t2 := Next(t1, Begin(e));
    assert t2.waiting[e] == Waiting(call, false);
    var t := Next(t2, Send(e));
    var u1 := Next(t, Accept(call));
    assert u1.active == Some((call, Checking)) && u1.attempts == s.attempts && u1.nextId == s.nextId;
    SavedHasStop(seen.orders, seen.pair, [base, base + 1], stop);
  }

  lemma SavedHasStop(orders: seq<Order>, p: Pair, saved: seq<int>, o: Order)
    requires StopStaged(orders, p, saved, o)
    ensures o.id in {saved[0], saved[1]}
  {
  }

  /** An allowed call whose answer is one of the five retryable refusals releases the intent; no other
      failure changes the record. */
  lemma FailureIsKept(s: State, e: EntryKey, allow: bool, error: HttpError)
    requires e in s.records
    ensures var before, after := s.records[e], Apply(s, e, allow, Failure(error)).records[e];
      after == if allow && error.code == 503
                  && error.detail in {"IBKR_MUTATION_ALREADY_IN_PROGRESS", "IBKR_READ_ALREADY_IN_PROGRESS",
                                      "IBKR_READ_RECOVERY_COOLDOWN", "IBKR_SERVER_UNAVAILABLE",
                                      "IBKR_SOCKET_DISCONNECTED"}
               then Record(PRE_SUBMISSION_BLOCKED, before.ids) else before
  {
  }

  /** A call may place orders exactly for an entry without a record, or with a released one; then its
      intent is recorded, and the identities saved so far go with the call. */
  lemma IntentIsKept(s: State, e: EntryKey)
    ensures var t, known := DoBegin(s, e), e in s.records;
      && t.waiting[e] == Waiting(Call(s.calls, e, !known || s.records[e].status == PRE_SUBMISSION_BLOCKED,
                                      if known then s.records[e].ids else []), false)
      && e in t.records
      && (if t.waiting[e].call.allow then t.records[e] == Record(SUBMITTING, []) else t.records[e] == s.records[e])
      && forall d :: d != e ==>
          (d in t.records <==> d in s.records) && (d in s.records ==> t.records[d] == s.records[d])
  {
  }
}
