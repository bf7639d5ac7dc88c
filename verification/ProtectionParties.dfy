/** The two parties of the protection protocol as they are written: the bridge with its volatile
    fields, the manager with the durable record of one entry.  Each method, run without
    interruption, takes exactly the protocol's steps. */
module ProtectionParties {

  import opened Wrappers
  import opened Protection
  import opened ProtectionDecision

  /** One call served without a crash: the checks, two rounds of the placement loop, the read back. */
  function Served(s: State, seen: Reads, first: bool, unmoved: bool, second: bool, listed: Option<seq<Order>>): State {
    Next(Next(Next(Next(s, Check(seen)), Leg(true, first)), Leg(unmoved, second)), Verify(listed))
  }

  /** The call has ended with this answer, these new placements and this bridge memory. */
  ghost predicate Ended(s: State, t: State, c: Call, reply: Reply, placed: seq<Placement>, nextId: Option<int>,
                        attempts: set<EntryKey>) {
    && t.active == None && c in t.replies && t.replies[c] == reply
    && t.placements == s.placements + placed && t.nextId == nextId && t.attempts == attempts
  }

  function Decided(s: State, c: Call, seen: Reads): Decision {
    Decide(c, c.entry in s.attempts, s.nextId, seen)
  }

  lemma ServedRefusal(s: State, c: Call, seen: Reads, first: bool, unmoved: bool, second: bool,
                      listed: Option<seq<Order>>)
    requires s.active == Some((c, Checking))
    requires var d := Decided(s, c, seen); d.Refuse? || d.RefuseAfterWhatIf? || d.AlreadyProtected?
    ensures var d := Decided(s, c, seen);
            Ended(s, Served(s, seen, first, unmoved, second, listed), c,
                  if d.AlreadyProtected? then Result(PROTECTED, None, true) else Failure(d.error), [],
                  if d.RefuseAfterWhatIf? then Some(d.next) else s.nextId, s.attempts)
  {
    hide Decide;
    assert s.placements + [] == s.placements;
  }

  lemma ServedTransmission(s: State, c: Call, seen: Reads, first: bool, unmoved: bool, second: bool,
                           listed: Option<seq<Order>>)
    requires s.active == Some((c, Checking)) && Decided(s, c, seen).Transmit?
    ensures Ended(s, Served(s, seen, first, unmoved, second, listed), c,
                  if Confirmed(listed, seen.pair) then Result(PROTECTED, None, true)
                    else Result(PENDING, Some(c.saved), true),
                  [Placement(c.entry, Decided(s, c, seen).order.id, false, Transmitted(Decided(s, c, seen).order))],
                  s.nextId, s.attempts)
  {
    hide Decide, Confirmed, Transmitted;
  }

  /** The identities of the legs handed to the broker: the second only when the first was sent and
      the position is unchanged. */
  function Handed(oid: int, first: bool, unmoved: bool): seq<int> {
    if first && unmoved then [oid, oid + 1] else [oid]
  }

  function Placements(entry: EntryKey, p: Pair, ids: seq<int>): seq<Placement> {
    seq(|ids|, i requires 0 <= i < |ids| => Placement(entry, ids[i], true, LegTicket(p, i)))
  }

  /** Both legs and the verification, from the first leg on. */
  lemma PlacedFrom(s: State, c: Call, base: int, p: Pair, first: bool, unmoved: bool, second: bool,
                   listed: Option<seq<Order>>)
    requires s.active == Some((c, Placing(base, 0, p)))
    ensures var ids := Handed(base, first, unmoved);
            Ended(s, Next(Next(Next(s, Leg(true, first)), Leg(unmoved, second)), Verify(listed)), c,
                  if first && unmoved && second && Confirmed(listed, p) then Result(PROTECTED, None, true)
                    else Result(PENDING, Some(ids), true),
                  Placements(c.entry, p, ids), s.nextId, s.attempts)
  {
    hide Confirmed, LegTicket;
    var a := Placement(c.entry, base, true, LegTicket(p, 0));
    var b := Placement(c.entry, base + 1, true, LegTicket(p, 1));
    assert Placements(c.entry, p, [base]) == [a];
    assert Placements(c.entry, p, [base, base + 1]) == [a, b];
    assert s.placements + [a] + [b] == s.placements + [a, b];
    var t := Next(s, Leg(true, first));
    assert t.placements == s.placements + [a];
    if first { assert t.active == Some((c, Placing(base, 1, p))); }
  }

  lemma ServedPlacement(s: State, c: Call, seen: Reads, first: bool, unmoved: bool, second: bool,
                        listed: Option<seq<Order>>)
    requires s.active == Some((c, Checking)) && Decided(s, c, seen).PlaceFresh?
    ensures var base := Decided(s, c, seen).base;
            var ids := Handed(base, first, unmoved);
            Ended(s, Served(s, seen, first, unmoved, second, listed), c,
                  if first && unmoved && second && Confirmed(listed, seen.pair) then Result(PROTECTED, None, true)
                    else Result(PENDING, Some(ids), true),
                  Placements(c.entry, seen.pair, ids), Some(base + 2), s.attempts + {c.entry})
  {
    hide Decide;
    var base := Decided(s, c, seen).base;
    var t := Next(s, Check(seen));
    assert t.active == Some((c, Placing(base, 0, seen.pair))) && t.placements == s.placements;
    assert t.nextId == Some(base + 2) && t.attempts == s.attempts + {c.entry};
    hide Next;
    PlacedFrom(t, c, base, seen.pair, first, unmoved, second, listed);
  }

  /** What an uninterrupted call answers, places and leaves behind, by its decision. */
  function ReplyTo(d: Decision, c: Call, p: Pair, first: bool, unmoved: bool, second: bool,
                   listed: Option<seq<Order>>): Reply {
    match d
    case Refuse(error) => Failure(error)
    case RefuseAfterWhatIf(error, _) => Failure(error)
    case AlreadyProtected => Result(PROTECTED, None, true)
    case Transmit(_) =>
      if Confirmed(listed, p) then Result(PROTECTED, None, true) else Result(PENDING, Some(c.saved), true)
    case PlaceFresh(base) =>
      if first && unmoved && second && Confirmed(listed, p) then Result(PROTECTED, None, true)
      else Result(PENDING, Some(Handed(base, first, unmoved)), true)
  }

  function PlacedBy(d: Decision, c: Call, p: Pair, first: bool, unmoved: bool): seq<Placement> {
    match d
    case Transmit(o) => [Placement(c.entry, o.id, false, Transmitted(o))]
    case PlaceFresh(base) => Placements(c.entry, p, Handed(base, first, unmoved))
    case _ => []
  }

  function NextAfter(d: Decision, next: Option<int>): Option<int> {
    match d
    case RefuseAfterWhatIf(_, after) => Some(after)
    case PlaceFresh(base) => Some(base + 2)
    case _ => next
  }

  lemma ServedAs(s: State, c: Call, seen: Reads, first: bool, unmoved: bool, second: bool, listed: Option<seq<Order>>)
    requires s.active == Some((c, Checking))
    ensures var d := Decided(s, c, seen);
            Ended(s, Served(s, seen, first, unmoved, second, listed), c,
                  ReplyTo(d, c, seen.pair, first, unmoved, second, listed), PlacedBy(d, c, seen.pair, first, unmoved),
                  NextAfter(d, s.nextId), if d.PlaceFresh? then s.attempts + {c.entry} else s.attempts)
  {
    hide Decide, Served, Ended, Handed, Placements, Confirmed, Transmitted;
    match Decided(s, c, seen)
    case Transmit(_) => ServedTransmission(s, c, seen, first, unmoved, second, listed);
    case PlaceFresh(_) => ServedPlacement(s, c, seen, first, unmoved, second, listed);
    case _ => ServedRefusal(s, c, seen, first, unmoved, second, listed);
  }

  lemma PairIsAnswered(s: State, c: Call, seen: Reads, first: bool, unmoved: bool, second: bool,
                       listed: Option<seq<Order>>)
    requires s.active == Some((c, Checking))
    ensures var d := Decided(s, c, seen);
      var reply := ReplyTo(d, c, seen.pair, first, unmoved, second, listed);
      var placed := PlacedBy(d, c, seen.pair, first, unmoved);
      && (reply == Result(PROTECTED, None, true) && placed == [] <==>
            seen.early == None && PairStands(seen.orders, seen.pair))
      && (reply == Result(PROTECTED, None, true) && placed != [] ==>
            listed.Some? && PairStands(listed.value, seen.pair))
  {
    ProtectedIff(c, c.entry in s.attempts, s.nextId, seen);
    if listed.Some? { PairMatchesIff(listed.value, seen.pair); }
    hide Decide, PairStands, PairMatches;
  }

  /** A placement that goes through and whose two orders are listed is answered as protected; and
      while they stand so is every later call for the pair. */
  lemma PlacedPairIsProtected(s: State, c: Call, seen: Reads, rows: seq<Order>, d: Call, again: Reads)
    requires s.active == Some((c, Checking)) && Decided(s, c, seen).PlaceFresh?
    requires ListsPair(rows, seen.pair, Decided(s, c, seen).base)
    requires again.early == None && again.orders == rows && again.pair == seen.pair
    ensures var t := Served(s, seen, true, true, true, Some(rows));
      && c in t.replies && t.replies[c] == Result(PROTECTED, None, true)
      && |t.placements| == |s.placements| + 2 && Decided(t, d, again) == AlreadyProtected
  {
    PlacedPairStands(rows, seen.pair, Decided(s, c, seen).base);
    var t := Served(s, seen, true, true, true, Some(rows));
    ServedPlacement(s, c, seen, true, true, true, Some(rows));
    ProtectedIff(d, d.entry in t.attempts, t.nextId, again);
    hide Decide, Served, Confirmed, PairStands;
  }

  class Bridge {

    var nextId: Option<int>

    var attempts: set<EntryKey>

    constructor ()
      ensures nextId == None && attempts == {}
    {
      nextId, attempts := None, {};
    }

    /** A broker callback that announces the next order identity never lowers it. */
    method NextValidId(ghost s: State, id: int)
      requires s.nextId == nextId
      modifies this`nextId
      ensures Next(s, Callback(id)) == s.(nextId := nextId)
    {
      if nextId == None || nextId.value < id { nextId := Some(id); }
    }

    method Protect(ghost s: State, c: Call, seen: Reads, first: bool, unmoved: bool, second: bool,
                   listed: Option<seq<Order>>)
      returns (reply: Reply, placed: seq<Placement>)
      requires s.active == Some((c, Checking)) && s.nextId == nextId && s.attempts == attempts
      modifies this
      ensures Ended(s, Served(s, seen, first, unmoved, second, listed), c, reply, placed, nextId, attempts)
      ensures reply == Result(PROTECTED, None, true) && placed == [] <==>
        seen.early == None && PairStands(seen.orders, seen.pair)
      ensures reply == Result(PROTECTED, None, true) && placed != [] ==>
        listed.Some? && PairStands(listed.value, seen.pair)
    {
      PairIsAnswered(s, c, seen, first, unmoved, second, listed);
      ServedAs(s, c, seen, first, unmoved, second, listed);
      hide Decide, PairStands, Served, Ended, ReplyTo, PlacedBy, NextAfter;
      reply, placed := Serve(c, seen, first, unmoved, second, listed);
    }

    /** The checks in their order, each with its own answer; the last resort places a pair. */
    method Serve(c: Call, seen: Reads, first: bool, unmoved: bool, second: bool, listed: Option<seq<Order>>)
      returns (reply: Reply, placed: seq<Placement>)
      modifies this
      ensures var d := Decide(c, old(c.entry in attempts), old(nextId), seen);
        && reply == ReplyTo(d, c, seen.pair, first, unmoved, second, listed)
        && placed == PlacedBy(d, c, seen.pair, first, unmoved)
        && nextId == NextAfter(d, old(nextId))
        && attempts == if d.PlaceFresh? then old(attempts) + {c.entry} else old(attempts)
    {
      hide PairMatches, StagedStop, OfGroup, Handed, Placements, Confirmed, Transmitted;
      placed := [];
      if seen.early.Some? { return Failure(seen.early.value), []; }
      if PairMatches(OfGroup(seen.orders, seen.pair.group), seen.pair) && |seen.orders| == 2 {
        return Result(PROTECTED, None, true), [];
      }
      if !c.allow {
        var staged := StagedStop(seen.orders, seen.pair, c.saved);
        if staged.Some? {
          if !seen.stagedVerified { return Failure(HttpError(409, "PROTECTION_STAGED_ORDER_NOT_VERIFIED")), []; }
          reply := if Confirmed(listed, seen.pair) then Result(PROTECTED, None, true)
                   else Result(PENDING, Some(c.saved), true);
          return reply, [Placement(c.entry, staged.value.id, false, Transmitted(staged.value))];
        }
      }
      if seen.orders != [] { return Failure(HttpError(409, "PROTECTION_EXISTING_ORDERS_REQUIRE_RECONCILIATION")), []; }
      if !c.allow || c.entry in attempts {
        return Failure(HttpError(409, "PROTECTION_SUBMISSION_OUTCOME_UNRESOLVED")), [];
      }
      if nextId == None { return Failure(HttpError(503, "IBKR next order id unavailable")), []; }
      nextId := Some(nextId.value + 1);
      if seen.late.Some? { return Failure(seen.late.value), []; }
      reply, placed := PlacePair(c, seen.pair, first, unmoved, second, listed);
    }

    /** Two identities are reserved, and the attempt remembered, before the first leg. */
    method PlacePair(c: Call, p: Pair, first: bool, unmoved: bool, second: bool, listed: Option<seq<Order>>)
      returns (reply: Reply, placed: seq<Placement>)
      requires nextId.Some?
      modifies this
      ensures var d := PlaceFresh(old(nextId).value);
        && reply == ReplyTo(d, c, p, first, unmoved, second, listed) && placed == PlacedBy(d, c, p, first, unmoved)
        && nextId == NextAfter(d, old(nextId)) && attempts == old(attempts) + {c.entry}
    {
      var oid := nextId.value;
      nextId := Some(oid + 2);
      attempts := attempts + {c.entry};
      var identities, failed;
      identities, placed, failed := PlaceLegs(c, oid, p, first, unmoved, second);
      reply := if !failed && Confirmed(listed, p) then Result(PROTECTED, None, true)
               else Result(PENDING, Some(identities), true);
    }

    /** The placement loop: an identity is noted before its leg goes out; a changed position before
        the second leg, or a failing placement, ends the loop. */
    method PlaceLegs(c: Call, oid: int, p: Pair, first: bool, unmoved: bool, second: bool)
      returns (identities: seq<int>, placed: seq<Placement>, failed: bool)
      ensures identities == Handed(oid, first, unmoved) && placed == Placements(c.entry, p, identities)
      ensures failed <==> !(first && unmoved && second)
    {
      identities, placed, failed := [], [], false;
      var offset := 0;
      while offset < 2
        invariant 0 <= offset <= 2 && !failed
        invariant offset > 0 ==> first
        invariant offset > 1 ==> unmoved && second
        invariant identities == [oid, oid + 1][..offset]
        invariant placed == Placements(c.entry, p, identities)
      {
        if offset > 0 && !unmoved {
          failed := true;
          break;
        }
        identities := identities + [oid + offset];
        var ticket := Ticket(p.account, true, p.long, if offset == 0 then STP else LMT, p.quantity,
                             if offset == 0 then p.stop else p.target, p.group, p.group, 2, true, false, true);
        placed := placed + [Placement(c.entry, oid + offset, true, ticket)];
        if (offset == 0 && !first) || (offset == 1 && !second) {
          failed := true;
          break;
        }
        offset := offset + 1;
      }
    }
  }

  class EntryRow {

    var record: Option<Record>

    constructor ()
      ensures record == None
    {
      record := None;
    }

    ghost predicate Holds(s: State, e: EntryKey)
      reads this
    {
      (e in s.records <==> record.Some?) && (e in s.records ==> s.records[e] == record.value)
    }

    /** Whether submission is allowed is decided, and intent committed, before the call. */
    method Commit(ghost s: State, e: EntryKey) returns (allow: bool, saved: seq<int>)
      requires Holds(s, e)
      modifies this
      ensures Holds(DoBegin(s, e), e)
      ensures DoBegin(s, e).waiting[e].call == Call(s.calls, e, allow, saved)
    {
      allow := record == None || record.value.status == PRE_SUBMISSION_BLOCKED;
      saved := if record.Some? then record.value.ids else [];
      if allow { record := Some(Record(SUBMITTING, [])); }
    }

    method Settle(ghost s: State, e: EntryKey, allow: bool, reply: Reply)
      requires Holds(s, e) && record.Some?
      modifies this
      ensures Holds(Apply(s, e, allow, reply), e)
    {
      if reply.Failure? {
        if allow && reply.error.code == 503 && reply.error.detail in RETRYABLE {
          record := Some(record.value.(status := PRE_SUBMISSION_BLOCKED));
        }
      } else if !reply.trusted {
        record := Some(record.value.(status := PENDING));
      } else {
        record := Some(Record(reply.status, if reply.ids.Some? then reply.ids.value else record.value.ids));
      }
    }
  }
}
