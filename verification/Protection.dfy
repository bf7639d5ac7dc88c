/** The protective-order protocol between the position manager, whose record of an entry is
    durable, and the bridge, whose memory is not.  Either side may crash between any two
    steps, requests and replies may be delayed or lost, and every broker read is arbitrary. */
module Protection {

  import opened Wrappers

  type EntryKey = nat

  // ------------------------------------------------------- the broker's rows

  datatype Kind = STP | LMT | OtherKind

  /** An open order as the bridge lists it; `remaining` is quantity less fills. */
  datatype Order = Order(id: int, account: string, stock: bool, sell: bool, kind: Kind, group: string, ref: string,
                         ocaType: int, clientId: int, goodTillCancelled: bool, outsideHours: bool, status: string,
                         remaining: real, price: real, transmit: bool, permId: int)

  /** The pair that a request asks for. */
  datatype Pair = Pair(account: string, long: bool, quantity: real, group: string, clientId: int, stop: real,
                       target: real)

  predicate Near(a: real, b: real) {
    -0.00000001 <= a - b <= 0.00000001
  }

  predicate LegMatches(o: Order, p: Pair) {
    && o.account == p.account && o.stock && o.sell == p.long
    && o.group == p.group && o.ref == p.group && o.ocaType == 2 && o.clientId == p.clientId
    && o.goodTillCancelled && !o.outsideHours && o.status in {"PreSubmitted", "Submitted"}
    && Near(o.remaining, p.quantity)
    && Near(o.price, if o.kind == STP then p.stop else p.target)
  }

  predicate PairMatches(rows: seq<Order>, p: Pair) {
    && |rows| == 2
    && ((rows[0].kind == STP && rows[1].kind == LMT) || (rows[0].kind == LMT && rows[1].kind == STP))
    && LegMatches(rows[0], p) && LegMatches(rows[1], p)
  }

  function OfGroup(rows: seq<Order>, group: string): seq<Order> {
    if rows == [] then []
    else (if rows[0].group == group then [rows[0]] else []) + OfGroup(rows[1..], group)
  }

  predicate IsStaged(o: Order) {
    o.kind == STP && o.status == "ApiPending" && !o.transmit && o.permId == 0
  }

  /** The one staged stop of a saved pair that may be transmitted as it is. */
  function StagedStop(symbolOrders: seq<Order>, p: Pair, saved: seq<int>): Option<Order> {
    var existing := OfGroup(symbolOrders, p.group);
    if !(|saved| == 2 && saved[0] != saved[1] && |symbolOrders| == 2 && |existing| == 2) then None
    else if {existing[0].id, existing[1].id} != {saved[0], saved[1]}
      || IsStaged(existing[0]) == IsStaged(existing[1]) then None
    else
      var k := if IsStaged(existing[0]) then 0 else 1;
      if PairMatches(existing[k := existing[k].(status := "Submitted")], p) then Some(existing[k]) else None
  }

  /** What is sent to the broker as an order. */
  datatype Ticket = Ticket(account: string, stock: bool, sell: bool, kind: Kind, quantity: real, price: real,
                           group: string, ref: string, ocaType: int, goodTillCancelled: bool, outsideHours: bool,
                           transmit: bool)

  /** The first leg is the stop, the second the target; each is transmitted by itself. */
  function LegTicket(p: Pair, leg: nat): Ticket {
    Ticket(p.account, true, p.long, if leg == 0 then STP else LMT, p.quantity, if leg == 0 then p.stop else p.target,
           p.group, p.group, 2, true, false, true)
  }

  /** A staged order goes out as it was saved. */
  function Transmitted(o: Order): Ticket {
    Ticket(o.account, o.stock, o.sell, o.kind, o.remaining, o.price, o.group, o.ref, o.ocaType, o.goodTillCancelled,
           o.outsideHours, true)
  }

  /** The listed orders after a placement are the pair. */
  predicate Confirmed(listed: Option<seq<Order>>, p: Pair) {
    listed.Some? && PairMatches(listed.value, p)
  }

  // --------------------------------------------------------------- messages

  datatype Call = Call(id: nat, entry: EntryKey, allow: bool, saved: seq<int>)

  datatype Status = SUBMITTING | PRE_SUBMISSION_BLOCKED | PENDING | PROTECTED

  datatype HttpError = HttpError(code: int, detail: string)

  datatype Reply =
    | Failure(error: HttpError)
    | Result(status: Status, ids: Option<seq<int>>, trusted: bool)

  /** The manager's durable record of an entry. */
  datatype Record = Record(status: Status, ids: seq<int>)

  const RETRYABLE := {"IBKR_MUTATION_ALREADY_IN_PROGRESS", "IBKR_READ_ALREADY_IN_PROGRESS",
                      "IBKR_READ_RECOVERY_COOLDOWN", "IBKR_SERVER_UNAVAILABLE", "IBKR_SOCKET_DISCONNECTED"}

  predicate Retryable(r: Reply) {
    r.Failure? && r.error.code == 503 && r.error.detail in RETRYABLE
  }

  /** What the bridge reads while it decides: an error of the checks before the orders are
      known, the open orders of the symbol, whether the staged order is still the saved one,
      and an error of the what-if check, which takes an order identity of its own, or of the
      reads after it. */
  datatype Reads = Reads(early: Option<HttpError>, orders: seq<Order>, pair: Pair, stagedVerified: bool,
                         late: Option<HttpError>)

  datatype Decision =
    | Refuse(error: HttpError)
    | RefuseAfterWhatIf(error: HttpError, next: int)
    | AlreadyProtected
    | Transmit(order: Order)
    | PlaceFresh(base: int)

  function Decide(c: Call, attempted: bool, next: Option<int>, r: Reads): Decision {
    var staged := if c.allow then None else StagedStop(r.orders, r.pair, c.saved);
    if r.early.Some? then Refuse(r.early.value)
    else if PairMatches(OfGroup(r.orders, r.pair.group), r.pair) && |r.orders| == 2 then AlreadyProtected
    else if staged.Some? then
      if r.stagedVerified then Transmit(staged.value) else Refuse(HttpError(409,
          "PROTECTION_STAGED_ORDER_NOT_VERIFIED"))
    else if r.orders != [] then Refuse(HttpError(409, "PROTECTION_EXISTING_ORDERS_REQUIRE_RECONCILIATION"))
    else if !c.allow || attempted then Refuse(HttpError(409, "PROTECTION_SUBMISSION_OUTCOME_UNRESOLVED"))
    else if next == None then Refuse(HttpError(503, "IBKR next order id unavailable"))
    else if r.late.Some? then RefuseAfterWhatIf(r.late.value, next.value + 1)
    else PlaceFresh(next.value + 1)
  }

  // ------------------------------------------------------------------ state

  datatype Phase = Checking | Placing(base: int, leg: nat, pair: Pair) | Unverified(ids: seq<int>, pair: Pair)

  /** One pass through the fresh placement loop. */
  datatype Run = Run(call: Call, base: int, epoch: nat, pair: Pair)

  /** One order handed to the broker for a protective leg. */
  datatype Placement = Placement(entry: EntryKey, id: int, isNew: bool, ticket: Ticket)

  /** A manager call in progress; not yet `sent` while its preflight reads run. */
  datatype Waiting = Waiting(call: Call, sent: bool)

  datatype State = State(
    records: map<EntryKey, Record>,     // durable
    waiting: map<EntryKey, Waiting>,    // the manager's memory
    requests: set<Call>,                // the network
    replies: map<Call, Reply>,
    active: Option<(Call, Phase)>,      // the bridge's memory, under its mutation lock
    attempts: set<EntryKey>,
    nextId: Option<int>,
    epoch: nat,
    calls: nat,                         // history
    runs: seq<Run>,
    placements: seq<Placement>)

  const INIT := State(map[], map[], {}, map[], None, {}, None, 0, 0, [], [])

  datatype Step =
    | Begin(entry: EntryKey)
    | Preflight(entry: EntryKey, error: Option<HttpError>)
    | Send(entry: EntryKey)
    | Busy(call: Call)
    | Accept(call: Call)
    | Check(seen: Reads)
    | Leg(positionUnchanged: bool, sent: bool)
    | Verify(listed: Option<seq<Order>>)
    | Deliver(entry: EntryKey)
    | GiveUp(entry: EntryKey)
    | ManagerCrash
    | BridgeRestart
    | Callback(id: int)

  predicate MayAllow(s: State, e: EntryKey) {
    e !in s.records || s.records[e].status == PRE_SUBMISSION_BLOCKED
  }

  /** Intent is committed before anything is sent. */
  function DoBegin(s: State, e: EntryKey): State {
    var allow := MayAllow(s, e);
    var saved := if e in s.records then s.records[e].ids else [];
    s.(records := if allow then s.records[e := Record(SUBMITTING, [])] else s.records,
       waiting := s.waiting[e := Waiting(Call(s.calls, e, allow, saved), false)],
       calls := s.calls + 1)
  }

  function Finish(s: State, e: EntryKey): State {
    s.(waiting := s.waiting - {e})
  }

  /** A reply to the call that the manager still waits for. */
  function Apply(s: State, e: EntryKey, allow: bool, reply: Reply): State
    requires e in s.records
  {
    match reply
    case Failure(_) =>
      if allow && Retryable(reply)
      then s.(records := s.records[e := s.records[e].(status := PRE_SUBMISSION_BLOCKED)]) else s
    case Result(status, ids, trusted) =>
      if !trusted then s.(records := s.records[e := s.records[e].(status := PENDING)])
      else s.(records := s.records[e := Record(status, if ids.Some? then ids.value else s.records[e].ids)])
  }

  /** The bridge answers the active call and releases its lock. */
  function Answer(s: State, reply: Reply): State
    requires s.active.Some?
  {
    s.(active := None, replies := s.replies[s.active.value.0 := reply])
  }

  function DoCheck(s: State, r: Reads): State
    requires s.active.Some?
  {
    var c := s.active.value.0;
    match Decide(c, c.entry in s.attempts, s.nextId, r)
    case Refuse(error) => Answer(s, Failure(error))
    case RefuseAfterWhatIf(error, next) => Answer(s.(nextId := Some(next)), Failure(error))
    case AlreadyProtected => Answer(s, Result(PROTECTED, None, true))
    case Transmit(o) =>
      s.(active := Some((c, Unverified(c.saved, r.pair))),
         placements := s.placements + [Placement(c.entry, o.id, false, Transmitted(o))])
    case PlaceFresh(base) =>
      s.(nextId := Some(base + 2), attempts := s.attempts + {c.entry},
         active := Some((c, Placing(base, 0, r.pair))), runs := s.runs + [Run(c, base, s.epoch, r.pair)])
  }

  /** One round of the placement loop.  The identity is recorded before the order goes out; a
      failure ends the loop and is answered as pending, whatever the broker received. */
  function DoLeg(s: State, positionUnchanged: bool, sent: bool): State
    requires s.active.Some? && s.active.value.1.Placing?
  {
    var (c, phase) := s.active.value;
    var base, leg := phase.base, phase.leg;
    if leg == 1 && !positionUnchanged then Answer(s, Result(PENDING, Some([base]), true))
    else
      var placed := s.(placements := s.placements + [Placement(c.entry, base + leg, true,
                                                               LegTicket(phase.pair, leg))]);
      var ids := if leg == 0 then [base] else [base, base + 1];
      if !sent then Answer(placed, Result(PENDING, Some(ids), true))
      else if leg == 0 then placed.(active := Some((c, Placing(base, 1, phase.pair))))
      else placed.(active := Some((c, Unverified(ids, phase.pair))))
  }

  function Next(s: State, step: Step): State {
    match step
    case Begin(e) => if e in s.waiting then s else DoBegin(s, e)
    case Preflight(e, error) =>
      if e !in s.waiting || s.waiting[e].sent || e !in s.records then s
      else if error.Some? then Finish(Apply(s, e, s.waiting[e].call.allow, Failure(error.value)), e)
      else Finish(s, e)
    case Send(e) =>
      if e !in s.waiting || s.waiting[e].sent then s
      else s.(requests := s.requests + {s.waiting[e].call}, waiting := s.waiting[e := s.waiting[e].(sent := true)])
    case Busy(c) =>
      if c !in s.requests then s
      else s.(requests := s.requests - {c}, replies := s.replies[c := Failure(HttpError(503,
          "IBKR_MUTATION_ALREADY_IN_PROGRESS"))])
    case Accept(c) =>
      if c !in s.requests || s.active.Some? then s
      else s.(requests := s.requests - {c}, active := Some((c, Checking)))
    case Check(r) => if s.active.Some? && s.active.value.1 == Checking then DoCheck(s, r) else s
    case Leg(same, sent) =>
      if s.active.Some? && s.active.value.1.Placing? then DoLeg(s, same, sent) else s
    case Verify(listed) =>
      if s.active.Some? && s.active.value.1.Unverified? then
        Answer(s, if Confirmed(listed, s.active.value.1.pair) then Result(PROTECTED, None, true)
                  else Result(PENDING, Some(s.active.value.1.ids), true))
      else s
    case Deliver(e) =>
      if e !in s.waiting || !s.waiting[e].sent || s.waiting[e].call !in s.replies || e !in s.records then s
      else Finish(Apply(s, e, s.waiting[e].call.allow, s.replies[s.waiting[e].call]), e)
    case GiveUp(e) => Finish(s, e)
    case ManagerCrash => s.(waiting := map[])
    case BridgeRestart => s.(active := None, attempts := {}, nextId := None, epoch := s.epoch + 1)
    case Callback(id) => s.(nextId := if s.nextId.Some? && s.nextId.value >= id then s.nextId else Some(id))
  }

  ghost function After(steps: seq<Step>): State {
    if steps == [] then INIT else Next(After(steps[..|steps| - 1]), steps[|steps| - 1])
  }

  // -------------------------------------------------------------- invariant

  ghost predicate RanBy(s: State, c: Call) {
    exists i :: 0 <= i < |s.runs| && s.runs[i].call == c
  }

  /** Calls that may still enter the fresh placement loop, or have entered it. */
  ghost predicate Hot(s: State, c: Call) {
    c.allow && (c in s.requests || s.active == Some((c, Checking)) || RanBy(s, c))
  }

  /** Where every call stands: known, in one place, answered at most from there. */
  ghost predicate CallsInv(s: State) {
    && (forall c :: c in s.requests ==>
        c.id < s.calls && c !in s.replies && !RanBy(s, c) && (s.active.Some? ==> s.active.value.0 != c))
    && (forall c :: c in s.replies ==> c.id < s.calls)
    && (s.active.Some? ==>
        && s.active.value.0.id < s.calls && s.active.value.0 !in s.replies
        && (s.active.value.1 == Checking ==> !RanBy(s, s.active.value.0)))
    && (forall c :: RanBy(s, c) ==> c.id < s.calls && c.allow)
    && (forall e :: e in s.waiting ==>
        var w := s.waiting[e];
        && w.call.entry == e && w.call.id < s.calls && e in s.records
        && (!w.sent ==> w.call !in s.requests && w.call !in s.replies && !RanBy(s, w.call)
                        && (s.active.Some? ==> s.active.value.0 != w.call)))
  }

  /** A hot call excludes every other one of its entry ... */
  ghost predicate Exclusive(s: State) {
    && (forall c, d :: Hot(s, c) && Hot(s, d) && c.entry == d.entry ==> c == d)
    && (forall i, j :: 0 <= i < j < |s.runs| ==> s.runs[i].call != s.runs[j].call)
  }

  /** ... while it lives the entry's record does not let the manager send another ... */
  ghost predicate Committed(s: State) {
    && (forall c :: Hot(s, c) ==> !MayAllow(s, c.entry))
    && (forall e :: e in s.waiting && s.waiting[e].call.allow ==> !MayAllow(s, e))
  }

  /** ... if the manager waits for an allowed call of the entry, it is that one ... */
  ghost predicate Awaited(s: State) {
    forall e, c :: e in s.waiting && s.waiting[e].call.allow && Hot(s, c) && c.entry == e ==> c == s.waiting[e].call
  }

  /** ... and an answer that releases the intent is never an answer to a hot call. */
  ghost predicate Released(s: State) {
    && (forall c :: c in s.replies && Retryable(s.replies[c]) ==> !Hot(s, c))
    && (forall c :: c in s.replies && s.replies[c].Result? ==> s.replies[c].status in {PENDING, PROTECTED})
  }

  ghost predicate Inv(s: State) {
    CallsInv(s) && Exclusive(s) && Committed(s) && Awaited(s) && Released(s)
  }

  lemma RanByAppend(s: State, t: State, r: Run)
    requires t.runs == s.runs + [r]
    ensures forall c :: RanBy(t, c) <==> RanBy(s, c) || c == r.call
  {
    forall c | RanBy(s, c) ensures RanBy(t, c) {
      var i :| 0 <= i < |s.runs| && s.runs[i].call == c;
      assert t.runs[i].call == c;
    }
    assert t.runs[|s.runs|] == r;
    forall c | RanBy(t, c) && c != r.call ensures RanBy(s, c) {
      var i :| 0 <= i < |t.runs| && t.runs[i].call == c;
      assert s.runs[i].call == c;
    }
  }

  /** With no new hot call and no new wait, exclusion and awaiting are kept. */
  lemma NothingNewIsHot(s: State, t: State)
    requires Exclusive(s) && Awaited(s) && t.runs == s.runs
    requires forall c :: Hot(t, c) ==> Hot(s, c)
    requires forall e :: e in t.waiting ==> e in s.waiting && t.waiting[e].call == s.waiting[e].call
    ensures Exclusive(t) && Awaited(t)
  {
    hide Hot;
  }

  lemma SameRuns(s: State, t: State)
    requires s.runs == t.runs
    ensures forall c :: RanBy(t, c) <==> RanBy(s, c)
  {
  }

  lemma SameHot(s: State, t: State)
    requires s.runs == t.runs && s.requests == t.requests && s.active == t.active
    ensures forall c :: Hot(t, c) <==> Hot(s, c)
  {
    SameRuns(s, t);
    hide RanBy;
  }

  lemma BeginKeepsCalls(s: State, e: EntryKey)
    requires CallsInv(s) && e !in s.waiting
    ensures CallsInv(DoBegin(s, e))
  {
    SameRuns(s, DoBegin(s, e));
    hide RanBy;
  }

  lemma BeginKeepsRest(s: State, e: EntryKey)
    requires Exclusive(s) && Committed(s) && Awaited(s) && Released(s) && e !in s.waiting
    ensures var t := DoBegin(s, e); Exclusive(t) && Committed(t) && Awaited(t) && Released(t)
  {
    SameHot(s, DoBegin(s, e));
    hide RanBy, Hot, Retryable;
  }

  lemma BeginKeeps(s: State, e: EntryKey)
    requires Inv(s) && e !in s.waiting
    ensures Inv(DoBegin(s, e))
  {
    hide CallsInv, Exclusive, Committed, Awaited, Released, DoBegin;
    BeginKeepsCalls(s, e);
    BeginKeepsRest(s, e);
  }

  /** The record may let the manager send again only when the awaited call is not hot. */
  lemma ApplyKeepsCommitted(s: State, e: EntryKey, allow: bool, reply: Reply)
    requires Committed(s) && Awaited(s) && e in s.waiting && e in s.records && s.waiting[e].call.allow == allow
    requires Retryable(reply) ==> !Hot(s, s.waiting[e].call)
    requires reply.Result? ==> reply.status in {PENDING, PROTECTED}
    ensures forall c :: Hot(s, c) ==> !MayAllow(Apply(s, e, allow, reply), c.entry)
    ensures forall d :: d in s.waiting && d != e && s.waiting[d].call.allow ==> !MayAllow(Apply(s, e, allow, reply), d)
  {
    hide Hot, Retryable;
    var t := Apply(s, e, allow, reply);
    assert forall d :: d != e ==> MayAllow(t, d) == MayAllow(s, d);
    if MayAllow(t, e) && !MayAllow(s, e) {
      assert allow && Retryable(reply);
    }
  }

  lemma ApplyFrame(s: State, e: EntryKey, allow: bool, reply: Reply)
    requires e in s.records
    ensures var t := Apply(s, e, allow, reply);
      t == s.(records := t.records) && t.records.Keys == s.records.Keys
  {
    hide Retryable;
  }

  lemma ApplyKeeps(s: State, e: EntryKey, allow: bool, reply: Reply)
    requires Inv(s) && e in s.waiting && e in s.records && s.waiting[e].call.allow == allow
    requires Retryable(reply) ==> !Hot(s, s.waiting[e].call)
    requires reply.Result? ==> reply.status in {PENDING, PROTECTED}
    ensures Inv(Finish(Apply(s, e, allow, reply), e))
  {
    hide Apply, Retryable, MayAllow, Hot, CallsInv, Exclusive, Awaited, Committed, Released;
    var u := Apply(s, e, allow, reply);
    var t := Finish(u, e);
    ApplyFrame(s, e, allow, reply);
    ApplyKeepsCommitted(s, e, allow, reply);
    SameHot(s, t);
    NothingNewIsHot(s, t);
    SameRecords(t, u);
    FinishKeepsCalls(s, t, e);
    FinishKeepsPromises(s, t, e);
  }

  lemma FinishKeepsCalls(s: State, t: State, e: EntryKey)
    requires CallsInv(s) && t == s.(records := t.records, waiting := s.waiting - {e})
    requires t.records.Keys == s.records.Keys
    ensures CallsInv(t)
  {
    SameRuns(s, t);
    hide RanBy;
    assert forall d :: d in t.waiting ==> d in s.waiting && t.waiting[d] == s.waiting[d];
  }

  lemma FinishKeepsPromises(s: State, t: State, e: EntryKey)
    requires Released(s) && t == s.(records := t.records, waiting := s.waiting - {e})
    requires forall c :: Hot(t, c) <==> Hot(s, c)
    requires forall c :: Hot(s, c) ==> !MayAllow(t, c.entry)
    requires forall d :: d in s.waiting && d != e && s.waiting[d].call.allow ==> !MayAllow(t, d)
    ensures Committed(t) && Released(t)
  {
    hide Hot, Retryable, MayAllow;
  }

  lemma SameRecords(s: State, t: State)
    requires s.records == t.records
    ensures forall e :: MayAllow(s, e) == MayAllow(t, e)
  {
  }

  lemma SendKeepsCalls(s: State, e: EntryKey)
    requires CallsInv(s) && e in s.waiting && !s.waiting[e].sent
    ensures CallsInv(Next(s, Send(e)))
  {
    SameRuns(s, Next(s, Send(e)));
    hide RanBy;
  }

  /** If only the awaited allowed call becomes hot, exclusion and awaiting are kept. */
  lemma AwaitedBecomesHot(s: State, t: State, e: EntryKey)
    requires Exclusive(s) && Awaited(s) && t.runs == s.runs && e in s.waiting && s.waiting[e].call.entry == e
    requires forall c :: Hot(t, c) ==> Hot(s, c) || (c == s.waiting[e].call && c.allow)
    requires forall d :: d in t.waiting ==> d in s.waiting && t.waiting[d].call == s.waiting[d].call
    requires forall d :: d in s.waiting ==> s.waiting[d].call.entry == d
    ensures Exclusive(t) && Awaited(t)
  {
    hide Hot;
  }

  lemma SendMakesHot(s: State, e: EntryKey)
    requires CallsInv(s) && e in s.waiting && !s.waiting[e].sent
    ensures var t := Next(s, Send(e));
      forall c :: Hot(t, c) <==> Hot(s, c) || (c == s.waiting[e].call && c.allow)
    ensures s.waiting[e].call !in s.replies
  {
    SameRuns(s, Next(s, Send(e)));
    hide RanBy;
  }

  lemma SendKeepsPromises(s: State, e: EntryKey)
    requires Committed(s) && Released(s) && e in s.waiting && !s.waiting[e].sent
    requires s.waiting[e].call.entry == e && s.waiting[e].call !in s.replies
    requires forall c :: Hot(Next(s, Send(e)), c) <==> Hot(s, c) || (c == s.waiting[e].call && c.allow)
    ensures Committed(Next(s, Send(e))) && Released(Next(s, Send(e)))
  {
    hide Hot, Retryable;
  }

  lemma SendKeeps(s: State, e: EntryKey)
    requires Inv(s) && e in s.waiting && !s.waiting[e].sent
    ensures Inv(Next(s, Send(e)))
  {
    SendKeepsCalls(s, e);
    SendMakesHot(s, e);
    assert forall d :: d in s.waiting ==> s.waiting[d].call.entry == d;
    hide Hot, CallsInv, Exclusive, Awaited, Committed, Released;
    AwaitedBecomesHot(s, Next(s, Send(e)), e);
    SendKeepsPromises(s, e);
  }

  /** Promises to the manager survive when nothing becomes hot and an answer, if any, is new. */
  lemma PromisesKept(s: State, t: State, answered: Call)
    requires Committed(s) && Released(s) && t.records == s.records && t.waiting == s.waiting
    requires forall c :: Hot(t, c) ==> Hot(s, c)
    requires forall c :: c in t.replies && c != answered ==> c in s.replies && t.replies[c] == s.replies[c]
    requires answered in t.replies && Retryable(t.replies[answered]) ==> !Hot(t, answered)
    requires answered in t.replies && t.replies[answered].Result? ==> t.replies[answered].status in {PENDING, PROTECTED}
    ensures Committed(t) && Released(t)
  {
    hide Hot, Retryable;
  }

  lemma BusyKeepsCalls(s: State, call: Call)
    requires CallsInv(s) && call in s.requests
    ensures CallsInv(Next(s, Busy(call)))
    ensures forall c :: Hot(Next(s, Busy(call)), c) ==> Hot(s, c) && c != call
  {
    SameRuns(s, Next(s, Busy(call)));
    hide RanBy;
  }

  lemma BusyKeeps(s: State, call: Call)
    requires Inv(s) && call in s.requests
    ensures Inv(Next(s, Busy(call)))
  {
    var t := Next(s, Busy(call));
    BusyKeepsCalls(s, call);
    hide Hot, CallsInv, Exclusive, Awaited, Committed, Released, Retryable;
    NothingNewIsHot(s, t);
    PromisesKept(s, t, call);
  }

  lemma AcceptKeepsCalls(s: State, call: Call)
    requires CallsInv(s) && call in s.requests && s.active == None
    ensures CallsInv(Next(s, Accept(call)))
    ensures forall c :: Hot(Next(s, Accept(call)), c) ==> Hot(s, c)
    ensures call !in s.replies
  {
    SameRuns(s, Next(s, Accept(call)));
    hide RanBy;
  }

  lemma AcceptKeeps(s: State, call: Call)
    requires Inv(s) && call in s.requests && s.active == None
    ensures Inv(Next(s, Accept(call)))
  {
    var t := Next(s, Accept(call));
    AcceptKeepsCalls(s, call);
    hide Hot, CallsInv, Exclusive, Awaited, Committed, Released, Retryable;
    NothingNewIsHot(s, t);
    PromisesKept(s, t, call);
  }

  lemma AnswerKeepsCalls(s: State, reply: Reply)
    requires CallsInv(s) && s.active.Some?
    ensures CallsInv(Answer(s, reply))
    ensures forall c :: Hot(Answer(s, reply), c) ==> Hot(s, c)
    ensures s.active.value.1 == Checking ==> !Hot(Answer(s, reply), s.active.value.0)
  {
    SameRuns(s, Answer(s, reply));
    hide RanBy;
  }

  lemma AnswerKeeps(s: State, reply: Reply)
    requires Inv(s) && s.active.Some?
    requires Retryable(reply) ==> s.active.value.1 == Checking
    requires reply.Result? ==> reply.status in {PENDING, PROTECTED}
    ensures Inv(Answer(s, reply))
  {
    var t := Answer(s, reply);
    AnswerKeepsCalls(s, reply);
    hide Hot, CallsInv, Exclusive, Awaited, Committed, Released, Retryable;
    NothingNewIsHot(s, t);
    PromisesKept(s, t, s.active.value.0);
  }

  /** An allowed call that is being checked enters the placement loop: the same calls are hot. */
  lemma RunKeepsHot(s: State, t: State, call: Call, r: Run)
    requires CallsInv(s) && s.active == Some((call, Checking)) && call.allow && r.call == call
    requires t.runs == s.runs + [r] && t.requests == s.requests
    requires t.active.Some? && t.active.value.0 == call && t.active.value.1 != Checking
    ensures forall c :: Hot(t, c) <==> Hot(s, c)
    ensures forall i :: 0 <= i < |s.runs| ==> s.runs[i].call != call
  {
    RanByAppend(s, t, r);
    forall i | 0 <= i < |s.runs| ensures s.runs[i].call != call {
      assert RanBy(s, s.runs[i].call);
    }
    hide RanBy;
  }

  lemma RunKeepsCalls(s: State, t: State, call: Call, r: Run)
    requires CallsInv(s) && s.active == Some((call, Checking)) && call.allow && r.call == call
    requires t.runs == s.runs + [r] && t.requests == s.requests && t.replies == s.replies && t.calls == s.calls
    requires t.records == s.records && t.waiting == s.waiting
    requires t.active.Some? && t.active.value.0 == call && t.active.value.1 != Checking
    ensures CallsInv(t)
  {
    RanByAppend(s, t, r);
    hide RanBy;
  }

  lemma PlaceFreshKeeps(s: State, seen: Reads)
    requires Inv(s) && s.active.Some? && s.active.value.1 == Checking
    requires Decide(s.active.value.0, s.active.value.0.entry in s.attempts, s.nextId, seen).PlaceFresh?
    ensures Inv(DoCheck(s, seen))
  {
    var t := DoCheck(s, seen);
    var call := s.active.value.0;
    assert call.allow;
    RunKeepsHot(s, t, call, t.runs[|s.runs|]);
    RunKeepsCalls(s, t, call, t.runs[|s.runs|]);
    hide CallsInv, Hot, Decide, Retryable;
  }

  /** Steps that leave records, calls and answers alone and make nothing hot. */
  lemma QuietKeeps(s: State, t: State)
    requires Inv(s) && t.runs == s.runs && t.records == s.records && t.requests == s.requests
    requires t.replies == s.replies && t.calls == s.calls
    requires t.waiting == s.waiting || t.waiting == map[]
    requires t.active == None || (s.active.Some? && t.active.Some? && t.active.value.0 == s.active.value.0
                                  && (t.active.value.1 == Checking ==> s.active.value.1 == Checking))
    ensures Inv(t)
  {
    assert forall c :: RanBy(t, c) <==> RanBy(s, c);
    assert forall c :: Hot(t, c) ==> Hot(s, c);
    NothingNewIsHot(s, t);
    hide RanBy, Hot, Exclusive;
  }

  lemma CheckKeeps(s: State, seen: Reads)
    requires Inv(s) && s.active.Some? && s.active.value.1 == Checking
    ensures Inv(DoCheck(s, seen))
  {
    var c := s.active.value.0;
    match Decide(c, c.entry in s.attempts, s.nextId, seen)
    case Refuse(error) => AnswerKeeps(s, Failure(error));
    case RefuseAfterWhatIf(error, next) =>
      QuietKeeps(s, s.(nextId := Some(next)));
      AnswerKeeps(s.(nextId := Some(next)), Failure(error));
    case AlreadyProtected => AnswerKeeps(s, Result(PROTECTED, None, true));
    case Transmit(order) => QuietKeeps(s, DoCheck(s, seen));
    case PlaceFresh(base) => PlaceFreshKeeps(s, seen);
  }

  lemma LegKeeps(s: State, same: bool, sent: bool)
    requires Inv(s) && s.active.Some? && s.active.value.1.Placing?
    ensures Inv(DoLeg(s, same, sent))
  {
    hide Inv, CallsInv, Exclusive, Committed, Awaited, Released;
    var (c, phase) := s.active.value;
    var base, leg := phase.base, phase.leg;
    if leg == 1 && !same {
      AnswerKeeps(s, Result(PENDING, Some([base]), true));
    } else {
      var placed := s.(placements := s.placements + [Placement(c.entry, base + leg, true,
                                                               LegTicket(phase.pair, leg))]);
      QuietKeeps(s, placed);
      if sent {
        QuietKeeps(placed, DoLeg(s, same, sent));
      } else {
        AnswerKeeps(placed, Result(PENDING, Some(if leg == 0 then [base] else [base, base + 1]), true));
      }
    }
  }

  lemma StepKeeps(s: State, step: Step)
    requires Inv(s)
    ensures Inv(Next(s, step))
  {
    hide Inv, CallsInv, Exclusive, Committed, Awaited, Released, Apply, DoCheck;
    match step
    case Begin(e) => if e !in s.waiting { BeginKeeps(s, e); }
    case Preflight(e, error) => PreflightKeeps(s, e, error);
    case Send(e) => if e in s.waiting && !s.waiting[e].sent { SendKeeps(s, e); }
    case Busy(c) => if c in s.requests { BusyKeeps(s, c); }
    case Accept(c) => if c in s.requests && s.active == None { AcceptKeeps(s, c); }
    case Check(seen) => if s.active.Some? && s.active.value.1 == Checking { CheckKeeps(s, seen); }
    case Leg(same, sent) =>
      if s.active.Some? && s.active.value.1.Placing? { LegKeeps(s, same, sent); }
    case Verify(listed) =>
      if s.active.Some? && s.active.value.1.Unverified? {
        AnswerKeeps(s, if Confirmed(listed, s.active.value.1.pair) then Result(PROTECTED, None, true)
                       else Result(PENDING, Some(s.active.value.1.ids), true));
      }
    case Deliver(e) => DeliverKeeps(s, e);
    case GiveUp(e) => GiveUpKeeps(s, e);
    case ManagerCrash => QuietKeeps(s, Next(s, step));
    case BridgeRestart => QuietKeeps(s, Next(s, step));
    case Callback(id) => QuietKeeps(s, Next(s, step));
  }

  lemma GiveUpKeeps(s: State, e: EntryKey)
    requires Inv(s)
    ensures Inv(Finish(s, e))
  {
    var t := Finish(s, e);
    assert forall c :: RanBy(t, c) <==> RanBy(s, c);
    assert forall c :: Hot(t, c) <==> Hot(s, c);
    NothingNewIsHot(s, t);
    hide RanBy, Hot, Exclusive;
  }

  lemma PreflightKeeps(s: State, e: EntryKey, error: Option<HttpError>)
    requires Inv(s)
    ensures Inv(Next(s, Preflight(e, error)))
  {
    if e in s.waiting && !s.waiting[e].sent && e in s.records {
      if error.Some? {
        assert !Hot(s, s.waiting[e].call);
        ApplyKeeps(s, e, s.waiting[e].call.allow, Failure(error.value));
      } else {
        GiveUpKeeps(s, e);
      }
    }
  }

  lemma DeliverKeeps(s: State, e: EntryKey)
    requires Inv(s)
    ensures Inv(Next(s, Deliver(e)))
  {
    if e in s.waiting && s.waiting[e].sent && s.waiting[e].call in s.replies && e in s.records {
      ApplyKeeps(s, e, s.waiting[e].call.allow, s.replies[s.waiting[e].call]);
    }
  }

  lemma {:induction false} AlwaysInv(steps: seq<Step>)
    ensures Inv(After(steps))
  {
    if steps == [] {
      assert forall c :: !RanBy(INIT, c);
    } else {
      AlwaysInv(steps[..|steps| - 1]);
      StepKeeps(After(steps[..|steps| - 1]), steps[|steps| - 1]);
    }
  }

  // ------------------------------------------------------------- identities

  /** `id` is one of the two fresh identities of the entry's run. */
  ghost predicate RunId(s: State, e: EntryKey, id: int) {
    exists i :: 0 <= i < |s.runs| && s.runs[i].call.entry == e && (id == s.runs[i].base || id == s.runs[i].base + 1)
  }

  ghost predicate RunIds(s: State, e: EntryKey, ids: seq<int>) {
    forall id :: id in ids ==> RunId(s, e, id)
  }

  ghost predicate PhaseIds(s: State, e: EntryKey, phase: Phase) {
    match phase
    case Checking => true
    case Placing(base, leg, _) => RunId(s, e, base) && RunId(s, e, base + 1) && leg <= 1
    case Unverified(ids, _) => RunIds(s, e, ids)
  }

  /** Every identity that is saved, sent along, reported or placed comes from the run. */
  ghost predicate IdsInv(s: State) {
    && (forall e :: e in s.records ==> RunIds(s, e, s.records[e].ids))
    && (forall c :: c in s.requests ==> RunIds(s, c.entry, c.saved))
    && (forall e :: e in s.waiting ==> s.waiting[e].call.entry == e && RunIds(s, e, s.waiting[e].call.saved))
    && (forall c :: c in s.replies && s.replies[c].Result? && s.replies[c].ids.Some? ==>
        RunIds(s, c.entry, s.replies[c].ids.value))
    && (s.active.Some? ==>
        var (c, phase) := s.active.value;
        RunIds(s, c.entry, c.saved) && PhaseIds(s, c.entry, phase))
    && (forall i :: 0 <= i < |s.placements| ==> RunId(s, s.placements[i].entry, s.placements[i].id))
  }

  lemma RunIdAppend(s: State, t: State)
    requires s.runs <= t.runs
    ensures forall e, id :: RunId(s, e, id) ==> RunId(t, e, id)
    ensures forall e, ids :: RunIds(s, e, ids) ==> RunIds(t, e, ids)
  {
    forall e, id | RunId(s, e, id) ensures RunId(t, e, id) {
      var i :| 0 <= i < |s.runs| && s.runs[i].call.entry == e && (id == s.runs[i].base || id == s.runs[i].base + 1);
      assert t.runs[i] == s.runs[i];
    }
  }

  lemma StagedStopIsSaved(orders: seq<Order>, p: Pair, saved: seq<int>)
    requires StagedStop(orders, p, saved).Some?
    ensures StagedStop(orders, p, saved).value.id in saved
  {
    var existing := OfGroup(orders, p.group);
    assert existing[0].id in {saved[0], saved[1]} && existing[1].id in {saved[0], saved[1]};
  }

  /** Steps that add no identity anywhere. */
  lemma QuietKeepsIds(s: State, t: State)
    requires IdsInv(s) && t.runs == s.runs && t.records == s.records && t.placements == s.placements
    requires forall c :: c in t.requests ==> RunIds(s, c.entry, c.saved)
    requires forall e :: e in t.waiting ==> t.waiting[e].call.entry == e && RunIds(s, e, t.waiting[e].call.saved)
    requires forall c :: c in t.replies ==>
      (c in s.replies && t.replies[c] == s.replies[c]) || (t.replies[c].Result? && t.replies[c].ids.Some? ==>
        RunIds(s, c.entry, t.replies[c].ids.value))
    requires t.active.Some? ==>
      RunIds(s, t.active.value.0.entry, t.active.value.0.saved) && PhaseIds(s, t.active.value.0.entry, t.active.value.1)
    ensures IdsInv(t)
  {
    RunIdAppend(s, t);
    assert forall e, phase :: PhaseIds(s, e, phase) ==> PhaseIds(t, e, phase);
    hide RunId, RunIds, PhaseIds;
  }

  lemma TransmitKeepsIds(s: State, seen: Reads, order: Order)
    requires IdsInv(s) && s.active.Some? && s.active.value.1 == Checking
    requires Decide(s.active.value.0, s.active.value.0.entry in s.attempts, s.nextId, seen) == Transmit(order)
    ensures IdsInv(DoCheck(s, seen))
  {
    var c := s.active.value.0;
    var t := DoCheck(s, seen);
    RunIdAppend(s, t);
    StagedStopIsSaved(seen.orders, seen.pair, c.saved);
    assert RunId(s, c.entry, order.id);
    hide RunId, StagedStop, PairMatches;
  }

  lemma PlaceFreshKeepsIds(s: State, seen: Reads)
    requires IdsInv(s) && s.active.Some? && s.active.value.1 == Checking
    requires Decide(s.active.value.0, s.active.value.0.entry in s.attempts, s.nextId, seen).PlaceFresh?
    ensures IdsInv(DoCheck(s, seen))
  {
    var c := s.active.value.0;
    var t := DoCheck(s, seen);
    RunIdAppend(s, t);
    var base := t.runs[|s.runs|].base;
    assert RunId(t, c.entry, base) && RunId(t, c.entry, base + 1);
    hide RunId, RunIds, Decide;
  }

  lemma CheckKeepsIds(s: State, seen: Reads)
    requires IdsInv(s) && s.active.Some? && s.active.value.1 == Checking
    ensures IdsInv(DoCheck(s, seen))
  {
    var c := s.active.value.0;
    hide RunId, RunIds, StagedStop, PairMatches;
    match Decide(c, c.entry in s.attempts, s.nextId, seen)
    case Refuse(error) => QuietKeepsIds(s, Answer(s, Failure(error)));
    case RefuseAfterWhatIf(error, next) => QuietKeepsIds(s, Answer(s.(nextId := Some(next)), Failure(error)));
    case AlreadyProtected => QuietKeepsIds(s, Answer(s, Result(PROTECTED, None, true)));
    case Transmit(order) => TransmitKeepsIds(s, seen, order);
    case PlaceFresh(base) => PlaceFreshKeepsIds(s, seen);
  }

  lemma PlacementKeepsIds(s: State, p: Placement)
    requires IdsInv(s) && RunId(s, p.entry, p.id)
    ensures IdsInv(s.(placements := s.placements + [p]))
  {
    RunIdAppend(s, s.(placements := s.placements + [p]));
    hide RunId, RunIds, PhaseIds;
    var t := s.(placements := s.placements + [p]);
    assert forall i :: 0 <= i < |t.placements| ==> t.placements[i] == if i < |s.placements| then s.placements[i] else p;
    assert forall e, phase :: PhaseIds(s, e, phase) ==> PhaseIds(t, e, phase) by { SameRunsSamePhases(s, t); }
  }

  lemma SameRunsSamePhases(s: State, t: State)
    requires s.runs == t.runs
    ensures forall e, phase :: PhaseIds(s, e, phase) ==> PhaseIds(t, e, phase)
  {
    RunIdAppend(s, t);
    hide RunId, RunIds;
  }

  lemma LegKeepsIds(s: State, same: bool, sent: bool)
    requires IdsInv(s) && s.active.Some? && s.active.value.1.Placing?
    ensures IdsInv(DoLeg(s, same, sent))
  {
    var (c, phase) := s.active.value;
    var base, leg := phase.base, phase.leg;
    assert PhaseIds(s, c.entry, phase) && RunIds(s, c.entry, c.saved);
    assert RunIds(s, c.entry, [base]) && RunIds(s, c.entry, [base, base + 1]) by { hide RunId; }
    hide IdsInv, RunIds;
    if leg == 1 && !same {
      hide RunId;
      QuietKeepsIds(s, DoLeg(s, same, sent));
    } else {
      LegPlacedKeepsIds(s, same, sent);
    }
  }

  lemma LegPlacedKeepsIds(s: State, same: bool, sent: bool)
    requires IdsInv(s) && s.active.Some? && s.active.value.1.Placing?
    requires var (c, phase) := s.active.value;
      && (phase.leg == 0 || same) && PhaseIds(s, c.entry, phase) && RunIds(s, c.entry, c.saved)
      && RunIds(s, c.entry, [phase.base]) && RunIds(s, c.entry, [phase.base, phase.base + 1])
    ensures IdsInv(DoLeg(s, same, sent))
  {
    var (c, phase) := s.active.value;
    var base, leg := phase.base, phase.leg;
    var order := Placement(c.entry, base + leg, true, LegTicket(phase.pair, leg));
    var placed := s.(placements := s.placements + [order]);
    PlacementKeepsIds(s, order);
    RunIdAppend(s, placed);
    assert RunIds(placed, c.entry, [base]) && RunIds(placed, c.entry, [base, base + 1]);
    hide RunId, RunIds;
    QuietKeepsIds(placed, DoLeg(s, same, sent));
  }

  lemma ApplyIds(s: State, e: EntryKey, allow: bool, reply: Reply, d: EntryKey)
    requires e in s.records && d in s.records
    ensures var ids := Apply(s, e, allow, reply).records[d].ids;
      ids == s.records[d].ids || (d == e && reply.Result? && reply.ids.Some? && ids == reply.ids.value)
  {
    hide Retryable;
  }

  /** The saved identities change at most for `e`, to identities of its run. */
  lemma ApplyKeepsIds(s: State, e: EntryKey, allow: bool, reply: Reply)
    requires IdsInv(s) && e in s.records
    requires reply.Result? && reply.ids.Some? ==> RunIds(s, e, reply.ids.value)
    ensures IdsInv(Finish(Apply(s, e, allow, reply), e))
  {
    hide Apply, RunId;
    var t := Finish(Apply(s, e, allow, reply), e);
    ApplyFrame(s, e, allow, reply);
    RunIdAppend(s, t);
    forall d | d in t.records ensures RunIds(s, d, t.records[d].ids) {
      ApplyIds(s, e, allow, reply, d);
    }
    assert forall d, phase :: PhaseIds(s, d, phase) ==> PhaseIds(t, d, phase);
    hide RunIds, PhaseIds;
    assert forall d :: d in t.records ==> RunIds(t, d, t.records[d].ids);
    assert t.active.Some? ==> RunIds(t, t.active.value.0.entry, t.active.value.0.saved);
    assert t.active.Some? ==> PhaseIds(t, t.active.value.0.entry, t.active.value.1);
    assert forall c :: c in t.requests ==> RunIds(t, c.entry, c.saved);
  }

  lemma BeginKeepsIds(s: State, e: EntryKey)
    requires IdsInv(s)
    ensures IdsInv(DoBegin(s, e))
  {
    var t := DoBegin(s, e);
    RunIdAppend(s, t);
    assert RunIds(t, e, []);
    assert forall d, phase :: PhaseIds(s, d, phase) ==> PhaseIds(t, d, phase);
    hide RunId, RunIds, PhaseIds;
  }

  lemma CallKeepsIds(s: State, step: Step)
    requires IdsInv(s) && (step.Send? || step.Busy?)
    ensures IdsInv(Next(s, step))
  {
    hide RunId, RunIds, PhaseIds;
    QuietKeepsIds(s, Next(s, step));
  }

  lemma NetworkKeepsIds(s: State, step: Step)
    requires IdsInv(s) && (step.Send? || step.Busy? || step.Accept? || step.Verify?)
    ensures IdsInv(Next(s, step))
  {
    hide RunId, RunIds;
    if step.Send? || step.Busy? { CallKeepsIds(s, step); } else { QuietKeepsIds(s, Next(s, step)); }
  }

  lemma LossKeepsIds(s: State, step: Step)
    requires IdsInv(s) && (step.GiveUp? || step.ManagerCrash? || step.BridgeRestart? || step.Callback?)
    ensures IdsInv(Next(s, step))
  {
    hide RunId, RunIds, PhaseIds;
    QuietKeepsIds(s, Next(s, step));
  }

  lemma ManagerKeepsIds(s: State, step: Step)
    requires IdsInv(s) && (step.Preflight? || step.Deliver?)
    ensures IdsInv(Next(s, step))
  {
    hide RunId, RunIds, Apply, PhaseIds;
    match step
    case Preflight(e, error) =>
      if e in s.waiting && !s.waiting[e].sent && e in s.records {
        if error.Some? {
          ApplyKeepsIds(s, e, s.waiting[e].call.allow, Failure(error.value));
        } else {
          QuietKeepsIds(s, Finish(s, e));
        }
      }
    case Deliver(e) =>
      if e in s.waiting && s.waiting[e].sent && s.waiting[e].call in s.replies && e in s.records {
        var call := s.waiting[e].call;
        DeliveredIds(s, e);
        ApplyKeepsIds(s, e, call.allow, s.replies[call]);
      }
  }

  lemma StepKeepsIds(s: State, step: Step)
    requires IdsInv(s)
    ensures IdsInv(Next(s, step))
  {
    hide IdsInv, DoCheck, DoLeg, DoBegin;
    match step
    case Begin(e) => if e !in s.waiting { BeginKeepsIds(s, e); }
    case Check(seen) => if s.active.Some? && s.active.value.1 == Checking { CheckKeepsIds(s, seen); }
    case Leg(same, sent) => if s.active.Some? && s.active.value.1.Placing? { LegKeepsIds(s, same, sent); }
    case _ =>
      hide Next;
      if step.Preflight? || step.Deliver? { ManagerKeepsIds(s, step); }
      else if step.Send? || step.Busy? || step.Accept? || step.Verify? { NetworkKeepsIds(s, step); }
      else { LossKeepsIds(s, step); }
  }

  lemma DeliveredIds(s: State, e: EntryKey)
    requires IdsInv(s) && e in s.waiting && s.waiting[e].call in s.replies
    ensures var reply := s.replies[s.waiting[e].call];
      reply.Result? && reply.ids.Some? ==> RunIds(s, e, reply.ids.value)
  {
  }

  // -------------------------------------------------- one leg, one identity

  ghost predicate NewLeg(s: State, i: int, e: EntryKey) {
    0 <= i < |s.placements| && s.placements[i].isNew && s.placements[i].entry == e
  }

  /** New legs of an entry have distinct identities, and the loop has placed exactly the
      legs before the one it is at. */
  ghost predicate LegsInv(s: State) {
    && (forall e, i, j :: NewLeg(s, i, e) && NewLeg(s, j, e) && i != j ==> s.placements[i].id != s.placements[j].id)
    && (s.active.Some? && s.active.value.1.Placing? ==>
        var (c, phase) := s.active.value;
        forall i :: NewLeg(s, i, c.entry) ==> phase.leg == 1 && s.placements[i].id == phase.base)
  }

  lemma OneRunPerEntry(s: State)
    requires Inv(s)
    ensures forall i, j :: 0 <= i < j < |s.runs| ==> s.runs[i].call.entry != s.runs[j].call.entry
  {
    forall i, j | 0 <= i < j < |s.runs| ensures s.runs[i].call.entry != s.runs[j].call.entry {
      assert RanBy(s, s.runs[i].call) && RanBy(s, s.runs[j].call);
      assert Hot(s, s.runs[i].call) && Hot(s, s.runs[j].call);
    }
  }

  lemma CheckingHasNoRun(s: State, c: Call)
    requires Inv(s) && c.allow && s.active == Some((c, Checking))
    ensures forall k :: 0 <= k < |s.runs| ==> s.runs[k].call.entry != c.entry
  {
    assert Hot(s, c);
    forall k | 0 <= k < |s.runs| ensures s.runs[k].call.entry != c.entry {
      assert RanBy(s, s.runs[k].call) && Hot(s, s.runs[k].call);
    }
  }

  lemma FreshRunHasNoLegs(s: State, c: Call)
    requires Inv(s) && IdsInv(s) && c.allow && s.active == Some((c, Checking))
    ensures forall i :: !NewLeg(s, i, c.entry)
  {
    CheckingHasNoRun(s, c);
    assert forall id :: !RunId(s, c.entry, id);
    assert forall i :: 0 <= i < |s.placements| ==> RunId(s, s.placements[i].entry, s.placements[i].id);
  }

  /** New legs are those there were, and the placement loop goes on where it was or starts afresh. */
  lemma NoNewLegs(s: State, t: State)
    requires LegsInv(s) && s.placements <= t.placements
    requires forall i :: |s.placements| <= i < |t.placements| ==> !t.placements[i].isNew
    requires t.active.Some? && t.active.value.1.Placing? ==>
      t.active == s.active || forall i :: !NewLeg(s, i, t.active.value.0.entry)
    ensures LegsInv(t)
  {
    assert forall i, e :: NewLeg(t, i, e) <==> NewLeg(s, i, e);
    assert forall i, e :: NewLeg(t, i, e) ==> t.placements[i] == s.placements[i];
    hide NewLeg;
  }

  lemma CheckKeepsLegs(s: State, seen: Reads)
    requires Inv(s) && IdsInv(s) && LegsInv(s) && s.active.Some? && s.active.value.1 == Checking
    ensures LegsInv(DoCheck(s, seen))
  {
    hide Inv, IdsInv, LegsInv, NewLeg, StagedStop, PairMatches, OfGroup;
    var c := s.active.value.0;
    if c.allow { FreshRunHasNoLegs(s, c); }
    NoNewLegs(s, DoCheck(s, seen));
  }

  lemma LegKeepsLegs(s: State, same: bool, sent: bool)
    requires IdsInv(s) && LegsInv(s) && s.active.Some? && s.active.value.1.Placing?
    ensures LegsInv(DoLeg(s, same, sent))
  {
    var t := DoLeg(s, same, sent);
    var (c, phase) := s.active.value;
    assert phase.leg <= 1;
    hide IdsInv;
    var n := |s.placements|;
    assert t.placements == s.placements
      || t.placements == s.placements + [Placement(c.entry, phase.base + phase.leg, true,
                                                   LegTicket(phase.pair, phase.leg))];
    assert forall i, e :: NewLeg(t, i, e) <==> NewLeg(s, i, e) || (i == n < |t.placements| && e == c.entry);
    assert forall i, e :: NewLeg(s, i, e) ==> t.placements[i] == s.placements[i];
  }

  lemma OtherStepsPlaceNothing(s: State, step: Step)
    requires !(step.Check? && s.active.Some? && s.active.value.1 == Checking)
    requires !(step.Leg? && s.active.Some? && s.active.value.1.Placing?)
    ensures var t := Next(s, step);
      && t.placements == s.placements && t.runs == s.runs
      && (t.active.Some? && t.active.value.1.Placing? ==> t.active == s.active)
      && t.epoch >= s.epoch
      && (t.epoch == s.epoch && s.nextId.Some? ==> t.nextId.Some? && t.nextId.value >= s.nextId.value)
  {
    hide DoCheck, DoLeg, Retryable, Apply, MayAllow;
    if step.Preflight? || step.Deliver? {
      forall e, allow, reply | e in s.records { ApplyFrame(s, e, allow, reply); }
    }
  }

  lemma StepKeepsLegs(s: State, step: Step)
    requires Inv(s) && IdsInv(s) && LegsInv(s)
    ensures LegsInv(Next(s, step))
  {
    var t := Next(s, step);
    if step.Check? && s.active.Some? && s.active.value.1 == Checking {
      CheckKeepsLegs(s, step.seen);
    } else if step.Leg? && s.active.Some? && s.active.value.1.Placing? {
      LegKeepsLegs(s, step.positionUnchanged, step.sent);
    } else {
      OtherStepsPlaceNothing(s, step);
      hide Inv, IdsInv, Next;
      assert forall i, e :: NewLeg(t, i, e) <==> NewLeg(s, i, e);
    }
  }

  // ------------------------------------------------------------------ epochs

  /** Within one life of the bridge, no two runs share an order identity. */
  ghost predicate EpochInv(s: State) {
    && (forall i :: 0 <= i < |s.runs| ==> s.runs[i].epoch <= s.epoch)
    && (forall i :: 0 <= i < |s.runs| && s.runs[i].epoch == s.epoch ==>
        s.nextId.Some? && s.runs[i].base + 2 <= s.nextId.value)
    && (forall i, j :: 0 <= i < j < |s.runs| && s.runs[i].epoch == s.runs[j].epoch ==>
        s.runs[i].base + 2 <= s.runs[j].base)
  }

  /** No run is added, and within a life of the bridge the next identity does not fall. */
  lemma NoNewRuns(s: State, t: State)
    requires EpochInv(s) && t.runs == s.runs && t.epoch >= s.epoch
    requires t.epoch == s.epoch && s.nextId.Some? ==> t.nextId.Some? && t.nextId.value >= s.nextId.value
    ensures EpochInv(t)
  {
  }

  lemma RunStarts(s: State, t: State, r: Run)
    requires EpochInv(s) && t.runs == s.runs + [r] && t.epoch == s.epoch == r.epoch && s.nextId.Some?
    requires r.base >= s.nextId.value && t.nextId == Some(r.base + 2)
    ensures EpochInv(t)
  {
  }

  lemma CheckKeepsEpochs(s: State, seen: Reads)
    requires EpochInv(s) && s.active.Some? && s.active.value.1 == Checking
    ensures EpochInv(DoCheck(s, seen))
  {
    hide EpochInv, StagedStop, PairMatches, OfGroup;
    var c, t := s.active.value.0, DoCheck(s, seen);
    match Decide(c, c.entry in s.attempts, s.nextId, seen)
    case PlaceFresh(base) => RunStarts(s, t, Run(c, base, s.epoch, seen.pair));
    case _ => NoNewRuns(s, t);
  }

  lemma StepKeepsEpochs(s: State, step: Step)
    requires EpochInv(s)
    ensures EpochInv(Next(s, step))
  {
    hide EpochInv, DoCheck;
    if step.Check? && s.active.Some? && s.active.value.1 == Checking {
      CheckKeepsEpochs(s, step.seen);
    } else if step.Leg? && s.active.Some? && s.active.value.1.Placing? {
      NoNewRuns(s, DoLeg(s, step.positionUnchanged, step.sent));
    } else {
      OtherStepsPlaceNothing(s, step);
      NoNewRuns(s, Next(s, step));
      hide Next;
    }
  }

  // ----------------------------------------------------------------- tickets

  /** A sell above a long position or a buy below a short one, over the whole quantity. */
  ghost predicate Closes(x: Ticket, p: Pair) {
    && x.account == p.account && x.stock && x.sell == p.long && x.quantity == p.quantity
    && x.group == p.group && x.ref == p.group && x.ocaType == 2
    && x.goodTillCancelled && !x.outsideHours && x.transmit
  }

  /** A new order is the stop of an entry's run under its first identity, or the target under the
      second. */
  ghost predicate LegOf(r: Run, x: Placement) {
    && r.call.entry == x.entry && Closes(x.ticket, r.pair)
    && (|| (x.id == r.base && x.ticket.kind == STP && x.ticket.price == r.pair.stop)
        || (x.id == r.base + 1 && x.ticket.kind == LMT && x.ticket.price == r.pair.target))
  }

  ghost predicate LegOfRun(s: State, x: Placement) {
    exists i :: 0 <= i < |s.runs| && LegOf(s.runs[i], x)
  }

  ghost predicate TicketsInv(s: State) {
    && (forall i :: 0 <= i < |s.placements| && s.placements[i].isNew ==> LegOfRun(s, s.placements[i]))
    && (s.active.Some? && s.active.value.1.Placing? ==>
        var (c, phase) := s.active.value;
        && phase.leg <= 1
        && exists i :: 0 <= i < |s.runs| && s.runs[i].call == c && s.runs[i].base == phase.base
                       && s.runs[i].pair == phase.pair)
  }

  lemma TicketsGrow(s: State, t: State)
    requires TicketsInv(s) && s.runs <= t.runs && s.placements <= t.placements
    requires forall i :: |s.placements| <= i < |t.placements| ==> !t.placements[i].isNew || LegOfRun(s, t.placements[i])
    ensures forall i :: 0 <= i < |t.placements| && t.placements[i].isNew ==> LegOfRun(t, t.placements[i])
  {
    forall i | 0 <= i < |t.placements| && t.placements[i].isNew ensures LegOfRun(t, t.placements[i]) {
      assert LegOfRun(s, t.placements[i]);
      var k :| 0 <= k < |s.runs| && LegOf(s.runs[k], t.placements[i]);
      assert t.runs[k] == s.runs[k];
    }
  }

  lemma LegKeepsTickets(s: State, same: bool, sent: bool)
    requires TicketsInv(s) && s.active.Some? && s.active.value.1.Placing?
    ensures TicketsInv(DoLeg(s, same, sent))
  {
    var (c, phase) := s.active.value;
    var x := Placement(c.entry, phase.base + phase.leg, true, LegTicket(phase.pair, phase.leg));
    var k :| 0 <= k < |s.runs| && s.runs[k].call == c && s.runs[k].base == phase.base && s.runs[k].pair == phase.pair;
    assert LegOf(s.runs[k], x);
    assert LegOfRun(s, x);
    TicketsGrow(s, DoLeg(s, same, sent));
    hide LegOfRun, LegOf;
  }

  lemma CheckKeepsTickets(s: State, seen: Reads)
    requires TicketsInv(s) && s.active.Some? && s.active.value.1 == Checking
    ensures TicketsInv(DoCheck(s, seen))
  {
    hide LegOf, Decide, Transmitted;
    var t := DoCheck(s, seen);
    TicketsGrow(s, t);
    if t.active.Some? && t.active.value.1.Placing? {
      assert t.runs[|s.runs|] == Run(s.active.value.0, t.active.value.1.base, s.epoch, seen.pair);
    }
    hide LegOfRun;
  }

  lemma StepKeepsTickets(s: State, step: Step)
    requires TicketsInv(s)
    ensures TicketsInv(Next(s, step))
  {
    hide LegOf, LegOfRun;
    if step.Check? && s.active.Some? && s.active.value.1 == Checking {
      CheckKeepsTickets(s, step.seen);
    } else if step.Leg? && s.active.Some? && s.active.value.1.Placing? {
      LegKeepsTickets(s, step.positionUnchanged, step.sent);
    } else {
      OtherStepsPlaceNothing(s, step);
      TicketsGrow(s, Next(s, step));
      hide Next;
    }
  }

  // ------------------------------------------------------------------- runs

  lemma {:induction false} AlwaysSafe(steps: seq<Step>)
    ensures IdsInv(After(steps)) && LegsInv(After(steps)) && EpochInv(After(steps)) && TicketsInv(After(steps))
  {
    if steps != [] {
      var s, step := After(steps[..|steps| - 1]), steps[|steps| - 1];
      AlwaysSafe(steps[..|steps| - 1]);
      AlwaysInv(steps[..|steps| - 1]);
      StepKeepsIds(s, step);
      StepKeepsLegs(s, step);
      StepKeepsEpochs(s, step);
      StepKeepsTickets(s, step);
    }
  }

  /** Over any run of retries, lost or late messages, crashes and restarts: at most one call
      per entry enters the fresh placement loop; every order ever handed to the broker for the
      entry, recoveries included, has one of that run's two identities; a new one is the run's stop
      or its target, over the whole quantity; no new leg is placed twice; and runs of one bridge
      life never share an identity. */
  lemma ProtectionAtMostOnce(steps: seq<Step>)
    ensures var s := After(steps);
      && (forall i, j :: 0 <= i < j < |s.runs| ==> s.runs[i].call.entry != s.runs[j].call.entry)
      && (forall i :: 0 <= i < |s.placements| ==> RunId(s, s.placements[i].entry, s.placements[i].id))
      && (forall i :: 0 <= i < |s.placements| && s.placements[i].isNew ==> LegOfRun(s, s.placements[i]))
      && (forall e, i, j :: NewLeg(s, i, e) && NewLeg(s, j, e) && i != j ==> s.placements[i].id != s.placements[j].id)
      && (forall i, j :: 0 <= i < j < |s.runs| && s.runs[i].epoch == s.runs[j].epoch ==>
          s.runs[i].base + 2 <= s.runs[j].base)
  {
    AlwaysInv(steps);
    AlwaysSafe(steps);
    OneRunPerEntry(After(steps));
  }
}
