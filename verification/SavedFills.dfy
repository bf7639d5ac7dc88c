/** What proves that a saved action was filled: the broker's final status in its audit, or the
    executions that callbacks report. */
module SavedFills {

  import opened Wrappers
  import opened RealArith
  import opened Folds
  import opened FlexFile

  const TOLERANCE := 0.0000001

  /** An execution callback of the gateway; `time` is 0 when it cannot be read. */
  datatype Callback = Callback(id: string, account: string, order: string, symbol: string, side: string, stock: bool,
                               quantity: Figure, price: Figure, time: int, commission: Figure, realized: Figure,
                               pnlAvailable: bool, currency: string)

  /** The audit of an action: the broker's answer with its status, and executions saved beside it. */
  datatype Saved = Saved(account: string, responseOrder: string, order: string, filled: bool, quantity: Figure,
                         price: Figure, remaining: Figure, evidence: Option<SavedExecutions>)

  datatype SavedExecutions = SavedExecutions(account: string, callbacks: seq<Callback>)

  /** A saved action: whether its provider is IBKR, its environment Paper, and profile, owner and
      environment those of the profile; what it records; and its audit, when it can be read. */
  datatype Action = Action(id: string, ibkr: bool, paper: bool, owned: bool, status: string, order: string,
                           symbol: string, side: Option<Side>, quantity: real, created: int, saved: Option<Saved>)

  // ------------------------------------------------ what callbacks prove

  predicate Own(c: Callback, order: string, account: string) {
    c.order == order && c.account == account
  }

  function OwnOf(callbacks: seq<Callback>, order: string, account: string): (r: seq<Callback>)
    ensures forall c :: c in r <==> c in callbacks && Own(c, order, account)
  {
    if callbacks == [] then []
    else
      var n := |callbacks| - 1;
      OwnOf(callbacks[..n], order, account) + if Own(callbacks[n], order, account) then [callbacks[n]] else []
  }

  predicate Positive(f: Figure) {
    f.Figure? && f.value > 0.0
  }

  /** A callback that can belong to the action, between its lifetime's start and now. */
  predicate Belongs(c: Callback, a: Action, now: int) {
    && c.id != "" && c.symbol == a.symbol && c.stock
    && (a.side == Some(BUY) ==> c.side in {"BOT", "BUY"}) && (a.side != Some(BUY) ==> c.side in {"SLD", "SELL"})
    && a.created - 300_000 <= c.time <= now + 300_000
    && Positive(c.quantity) && Positive(c.price)
  }

  /** What is compared of repeated callbacks, and summed. */
  datatype Part = Part(id: string, quantity: real, price: real, time: int)

  function PartOf(c: Callback): Part {
    Part(c.id, if c.quantity.Figure? then c.quantity.value else 0.0, if c.price.Figure? then c.price.value else 0.0,
         c.time)
  }

  function PartsOf(rows: seq<Callback>): (r: seq<Part>)
    ensures |r| == |rows| && forall i :: 0 <= i < |r| ==> r[i] == PartOf(rows[i])
  {
    seq(|rows|, i requires 0 <= i < |rows| => PartOf(rows[i]))
  }

  function PartId(p: Part): string {
    p.id
  }

  datatype Amounts = Amounts(quantity: real, value: real, latest: Option<int>)

  const NOTHING := Amounts(0.0, 0.0, None)

  function AddPart(t: Amounts, p: Part): Amounts {
    Amounts(t.quantity + p.quantity, t.value + p.quantity * p.price,
           if t.latest == None || t.latest.value < p.time then Some(p.time) else t.latest)
  }

  /** A full fill: its quantity, average price and last time, and the executions it consists of. */
  datatype Proof = Proof(quantity: real, price: real, time: int, ids: set<string>)

  predicate Provable(a: Action, account: string) {
    account != "" && a.ibkr && a.paper && a.side.Some? && a.order != "" && a.quantity > 0.0
  }

  function ProofOf(a: Action, callbacks: seq<Callback>, account: string, now: int): Option<Proof> {
    var own := OwnOf(callbacks, a.order, account);
    if !Provable(a, account) || exists i :: 0 <= i < |own| && !Belongs(own[i], a, now) then None
    else
      var parts := Collected(PartsOf(own), PartId);
      if parts == None || parts.value == [] then None else ProofFrom(a, parts.value)
  }

  function ProofFrom(a: Action, parts: seq<Part>): Option<Proof> {
    var t := Fold(AddPart, NOTHING, parts);
    if t.quantity <= 0.0 || t.latest == None || Abs(t.quantity - a.quantity) > TOLERANCE then None
    else Some(Proof(t.quantity, t.value / t.quantity, t.latest.value, set p | p in parts :: p.id))
  }

  method SumParts(parts: seq<Part>) returns (t: Amounts)
    ensures t == Fold(AddPart, NOTHING, parts)
  {
    t := NOTHING;
    for i := 0 to |parts|
      invariant t == Fold(AddPart, NOTHING, parts[..i])
    {
      assert parts[..i + 1][..i] == parts[..i];
      t := AddPart(t, parts[i]);
    }
    assert parts[..|parts|] == parts;
  }

  /** The loop stops at the first own callback that does not fit or contradicts another. */
  method ProveFill(a: Action, callbacks: seq<Callback>, account: string, now: int) returns (proof: Option<Proof>)
    ensures proof == ProofOf(a, callbacks, account, now)
  {
    hide Belongs, Collected, Joined, Own, ProofFrom;
    proof := None;
    if account == "" || !a.ibkr || !a.paper || a.side == None || a.order == "" || a.quantity <= 0.0 { return; }
    var unique: seq<Part> := [];
    assert Collected(PartsOf([]), PartId) == Some([]) by { NothingCollected(); }
    for i := 0 to |callbacks|
      invariant Collected(PartsOf(OwnOf(callbacks[..i], a.order, account)), PartId) == Some(unique)
      invariant forall c :: c in OwnOf(callbacks[..i], a.order, account) ==> Belongs(c, a, now)
    {
      var c := callbacks[i];
      ghost var own := OwnOf(callbacks[..i], a.order, account);
      OwnStep(callbacks, i, a.order, account);
      if !Own(c, a.order, account) {
        assert own + [] == own;
        continue;
      }
      OwnRemains(callbacks, i + 1, a.order, account);
      if !Belongs(c, a, now) {
        assert c in OwnOf(callbacks, a.order, account);
        return;
      }
      PartsStep(own, c);
      var joined := Joined(unique, PartOf(c), PartId);
      if joined == None {
        ConflictStays(callbacks, i + 1, a.order, account);
        return;
      }
      unique := joined.value;
    }
    assert callbacks[..|callbacks|] == callbacks;
    if unique == [] { return; }
    proof := FromParts(a, unique);
  }

  method FromParts(a: Action, parts: seq<Part>) returns (proof: Option<Proof>)
    ensures proof == ProofFrom(a, parts)
  {
    var t := SumParts(parts);
    if t.quantity <= 0.0 || t.latest == None || Abs(t.quantity - a.quantity) > TOLERANCE { return None; }
    return Some(Proof(t.quantity, t.value / t.quantity, t.latest.value, set p | p in parts :: p.id));
  }

  lemma NothingCollected()
    ensures Collected(PartsOf([]), PartId) == Some([])
  {
  }

  lemma OwnStep(callbacks: seq<Callback>, i: nat, order: string, account: string)
    requires i < |callbacks|
    ensures OwnOf(callbacks[..i + 1], order, account)
         == OwnOf(callbacks[..i], order, account) + if Own(callbacks[i], order, account) then [callbacks[i]] else []
  {
    assert callbacks[..i + 1][..i] == callbacks[..i];
  }

  lemma PartsStep(own: seq<Callback>, c: Callback)
    ensures Collected(PartsOf(own + [c]), PartId)
         == var before := Collected(PartsOf(own), PartId);
            if before == None then None else Joined(before.value, PartOf(c), PartId)
  {
    hide Joined;
    assert PartsOf(own + [c])[..|own|] == PartsOf(own);
  }

  lemma {:induction false} OwnRemains(callbacks: seq<Callback>, n: nat, order: string, account: string)
    requires n <= |callbacks|
    ensures OwnOf(callbacks[..n], order, account) <= OwnOf(callbacks, order, account)
  {
    if n == |callbacks| {
      assert callbacks[..n] == callbacks;
    } else {
      var less := callbacks[..|callbacks| - 1];
      assert less[..n] == callbacks[..n];
      OwnRemains(less, n, order, account);
    }
  }

  lemma ConflictStays(callbacks: seq<Callback>, n: nat, order: string, account: string)
    requires n <= |callbacks| && Collected(PartsOf(OwnOf(callbacks[..n], order, account)), PartId) == None
    ensures Collected(PartsOf(OwnOf(callbacks, order, account)), PartId) == None
  {
    OwnRemains(callbacks, n, order, account);
    var some, all := OwnOf(callbacks[..n], order, account), OwnOf(callbacks, order, account);
    assert PartsOf(all)[..|some|] == PartsOf(some);
    CollectedStays(PartsOf(all), |some|, PartId);
  }

  // ---------------------------------------------------- what a proof means

  /** Own callbacks of one execution agree in quantity, price and time. */
  ghost predicate PartsAgree(own: seq<Callback>) {
    forall c, d :: c in own && d in own && c.id == d.id ==> PartOf(c) == PartOf(d)
  }

  lemma PartsAgreeIff(own: seq<Callback>)
    ensures Collected(PartsOf(own), PartId).Some? <==> PartsAgree(own)
    ensures Collected(PartsOf(own), PartId).Some? ==>
      ListsOnce(Collected(PartsOf(own), PartId).value, PartsOf(own), PartId)
  {
    var parts := PartsOf(own);
    CollectedIffAgree(parts, PartId);
    forall c | c in own ensures PartOf(c) in parts {
      var i :| 0 <= i < |own| && own[i] == c;
      assert parts[i] == PartOf(c);
    }
  }

  lemma AddCommutes()
    ensures Commutes(AddPart)
  {
  }

  predicate PositiveParts(parts: seq<Part>) {
    forall p :: p in parts ==> p.quantity > 0.0 && p.price > 0.0
  }

  /** Amounts whose average lies between two of the prices. */
  ghost predicate Between(parts: seq<Part>, t: Amounts) {
    && t.quantity > 0.0
    && (exists p :: p in parts && p.price * t.quantity <= t.value)
    && (exists p :: p in parts && t.value <= p.price * t.quantity)
  }

  ghost predicate Last(parts: seq<Part>, t: Amounts) {
    && t.latest.Some?
    && (exists p :: p in parts && p.time == t.latest.value)
    && (forall p :: p in parts ==> p.time <= t.latest.value)
  }

  lemma FoldAdds(parts: seq<Part>)
    requires parts != []
    ensures Fold(AddPart, NOTHING, parts) == AddPart(Fold(AddPart, NOTHING, parts[..|parts| - 1]), parts[|parts| - 1])
  {
  }

  lemma {:induction false} SumsAreLast(parts: seq<Part>)
    requires parts != []
    ensures Last(parts, Fold(AddPart, NOTHING, parts))
  {
    var n := |parts| - 1;
    var less, last := parts[..n], parts[n];
    assert parts == less + [last];
    FoldAdds(parts);
    if n == 0 { assert Fold(AddPart, NOTHING, less) == NOTHING; } else { SumsAreLast(less); }
    hide Fold;
    assert last in parts && forall p :: p in parts <==> p in less || p == last;
  }

  /** The average of sized parts is within their prices. */
  lemma {:induction false} SumsAreBetween(parts: seq<Part>)
    requires parts != [] && PositiveParts(parts)
    ensures Between(parts, Fold(AddPart, NOTHING, parts))
  {
    var n := |parts| - 1;
    var less, last := parts[..n], parts[n];
    assert parts == less + [last];
    assert last in parts && forall p :: p in parts <==> p in less || p == last;
    FoldAdds(parts);
    if n == 0 {
      assert Fold(AddPart, NOTHING, less) == NOTHING;
      hide Fold;
      assert AddPart(NOTHING, last).value == last.price * last.quantity;
    } else {
      SumsAreBetween(less);
      BetweenGrows(less, parts, Fold(AddPart, NOTHING, less), last);
    }
  }

  lemma BetweenGrows(less: seq<Part>, parts: seq<Part>, t: Amounts, last: Part)
    requires Between(less, t) && last.quantity > 0.0 && forall p :: p in parts <==> p in less || p == last
    ensures Between(parts, AddPart(t, last))
  {
    hide AddPart;
    var low :| low in less && low.price * t.quantity <= t.value;
    var high :| high in less && t.value <= high.price * t.quantity;
    OneMorePart(t, low, high, last);
    assert low in parts && high in parts && last in parts;
  }

  lemma OneMorePart(t: Amounts, low: Part, high: Part, p: Part)
    requires t.quantity > 0.0 && p.quantity > 0.0
    requires low.price * t.quantity <= t.value <= high.price * t.quantity
    ensures var total := AddPart(t, p);
      && total.quantity > 0.0
      && (low.price * total.quantity <= total.value || p.price * total.quantity <= total.value)
      && (total.value <= high.price * total.quantity || total.value <= p.price * total.quantity)
  {
    OneBelow(t.quantity, t.value, low.price, p.quantity, p.price);
    OneAbove(t.quantity, t.value, high.price, p.quantity, p.price);
  }

  lemma OneBelow(quantity: real, value: real, low: real, more: real, price: real)
    requires quantity > 0.0 && more > 0.0 && low * quantity <= value
    ensures low * (quantity + more) <= value + more * price || price * (quantity + more) <= value + more * price
  {
    var m := Min(low, price);
    Distribute(quantity, more, m);
    if low <= price { Scaled(low, price, more); } else { Scaled(price, low, quantity); }
    assert m * quantity <= value && more * m <= more * price;
  }

  lemma OneAbove(quantity: real, value: real, high: real, more: real, price: real)
    requires quantity > 0.0 && more > 0.0 && value <= high * quantity
    ensures value + more * price <= high * (quantity + more) || value + more * price <= price * (quantity + more)
  {
    var m := Max(high, price);
    Distribute(quantity, more, m);
    if price <= high { Scaled(price, high, more); } else { Scaled(high, price, quantity); }
    assert value <= m * quantity && more * price <= more * m;
  }

  lemma CollectedParts(a: Action, own: seq<Callback>, now: int)
    requires own != [] && (forall i :: 0 <= i < |own| ==> Belongs(own[i], a, now)) && PartsAgree(own)
    ensures var parts := Collected(PartsOf(own), PartId);
      && parts.Some? && parts.value != [] && PositiveParts(parts.value) && SameMembers(parts.value, PartsOf(own))
  {
    PartsAgreeIff(own);
    hide Collected;
    var all, parts := PartsOf(own), Collected(PartsOf(own), PartId).value;
    assert all[0] in parts;
    forall p | p in parts ensures p.quantity > 0.0 && p.price > 0.0 {
      assert p in all;
      var i :| 0 <= i < |all| && all[i] == p;
      assert Belongs(own[i], a, now);
    }
  }

  lemma PartsProve(a: Action, parts: seq<Part>)
    requires parts != [] && PositiveParts(parts)
    ensures ProofFrom(a, parts).Some? <==> Abs(Fold(AddPart, NOTHING, parts).quantity - a.quantity) <= TOLERANCE
    ensures ProofFrom(a, parts).Some? ==>
      var p := ProofFrom(a, parts).value;
      && (exists q :: q in parts && q.price <= p.price) && (exists q :: q in parts && p.price <= q.price)
      && (exists q :: q in parts && q.time == p.time) && (forall q :: q in parts ==> q.time <= p.time)
  {
    SumsAreBetween(parts);
    SumsAreLast(parts);
    var t := Fold(AddPart, NOTHING, parts);
    hide Fold, PositiveParts;
    AverageIsBetween(parts, t);
    hide Between;
  }

  lemma AverageIsBetween(parts: seq<Part>, t: Amounts)
    requires Between(parts, t)
    ensures t.quantity > 0.0
    ensures exists q :: q in parts && q.price <= t.value / t.quantity
    ensures exists q :: q in parts && t.value / t.quantity <= q.price
  {
    var low :| low in parts && low.price * t.quantity <= t.value;
    var high :| high in parts && t.value <= high.price * t.quantity;
    hide Between;
    QuotientBetween(t.value, t.quantity, low.price, high.price);
  }

  /** Own callbacks that fit and agree. */
  ghost predicate Sound(a: Action, own: seq<Callback>, now: int) {
    own != [] && (forall c :: c in own ==> Belongs(c, a, now)) && PartsAgree(own)
  }

  lemma ProofByParts(a: Action, callbacks: seq<Callback>, account: string, now: int)
    ensures var own := OwnOf(callbacks, a.order, account);
      && (ProofOf(a, callbacks, account, now).Some? ==> Provable(a, account) && Sound(a, own, now))
      && (Sound(a, own, now) ==> Collected(PartsOf(own), PartId).Some?)
      && (Provable(a, account) && Sound(a, own, now) ==>
          ProofOf(a, callbacks, account, now) == ProofFrom(a, Collected(PartsOf(own), PartId).value))
  {
    var own := OwnOf(callbacks, a.order, account);
    hide OwnOf, Belongs, ProofFrom, Provable;
    PartsAgreeIff(own);
    if Sound(a, own, now) {
      CollectedParts(a, own, now);
    } else if own == [] {
      NothingCollected();
      assert PartsOf(own) == PartsOf([]);
    }
  }

  /** A fill is proved exactly for a provable action with own callbacks that all fit and agree, whose
      distinct executions add up to its quantity. */
  lemma ProvedIff(a: Action, callbacks: seq<Callback>, account: string, now: int)
    ensures var own := OwnOf(callbacks, a.order, account);
      && (Sound(a, own, now) ==> Collected(PartsOf(own), PartId).Some?)
      && (ProofOf(a, callbacks, account, now).Some? <==>
          && Provable(a, account) && Sound(a, own, now)
          && Abs(Fold(AddPart, NOTHING, Collected(PartsOf(own), PartId).value).quantity - a.quantity) <= TOLERANCE)
  {
    hide ProofOf, ProofFrom, OwnOf, Provable, Fold, Collected, Belongs, PositiveParts;
    var own := OwnOf(callbacks, a.order, account);
    ProofByParts(a, callbacks, account, now);
    if Provable(a, account) && Sound(a, own, now) {
      CollectedParts(a, own, now);
      PartsProve(a, Collected(PartsOf(own), PartId).value);
    }
  }

  /** A proof covers the action's quantity, its price lies within those of own callbacks, and its
      time is the last of theirs. */
  lemma ProofMeans(a: Action, callbacks: seq<Callback>, account: string, now: int)
    requires ProofOf(a, callbacks, account, now).Some?
    ensures var p, own := ProofOf(a, callbacks, account, now).value, OwnOf(callbacks, a.order, account);
      && Abs(p.quantity - a.quantity) <= TOLERANCE
      && (exists c :: c in own && PartOf(c).price <= p.price) && (exists c :: c in own && p.price <= PartOf(c).price)
      && (exists c :: c in own && c.time == p.time) && (forall c :: c in own ==> c.time <= p.time)
      && p.ids == set c | c in own :: c.id
  {
    var own := OwnOf(callbacks, a.order, account);
    ProofByParts(a, callbacks, account, now);
    hide ProofOf, OwnOf, Provable;
    CollectedParts(a, own, now);
    var parts := Collected(PartsOf(own), PartId).value;
    PartsProve(a, parts);
    ProofIds(own, parts);
    hide Fold, Collected, Sound;
    PartsAreOwn(own, parts);
  }

  lemma PartsAreOwn(own: seq<Callback>, parts: seq<Part>)
    requires SameMembers(parts, PartsOf(own))
    ensures forall c :: c in own ==> PartOf(c) in parts
    ensures forall p :: p in parts ==> exists c :: c in own && PartOf(c) == p
  {
    var all := PartsOf(own);
    forall c | c in own ensures PartOf(c) in parts {
      var i :| 0 <= i < |own| && own[i] == c;
      assert all[i] in all;
    }
    forall p | p in parts ensures exists c :: c in own && PartOf(c) == p {
      assert p in all;
      var i :| 0 <= i < |all| && all[i] == p;
      assert own[i] in own;
    }
  }

  lemma ProofIds(own: seq<Callback>, parts: seq<Part>)
    requires SameMembers(parts, PartsOf(own))
    ensures (set p | p in parts :: p.id) == set c | c in own :: c.id
  {
    var all := PartsOf(own);
    forall c | c in own ensures c.id in set p | p in parts :: p.id {
      var i :| 0 <= i < |own| && own[i] == c;
      assert all[i] in parts;
    }
    forall p | p in parts ensures p.id in set c | c in own :: c.id {
      assert p in all;
      var i :| 0 <= i < |all| && all[i] == p;
      assert own[i] in own;
    }
  }

  /** What is proved depends neither on the order of callbacks nor on repetitions nor on those of
      other orders and accounts; and what is proved once stays proved. */
  lemma ProofIsStable(a: Action, callbacks: seq<Callback>, reread: seq<Callback>, account: string, now: int, later: int)
    requires SameMembers(OwnOf(callbacks, a.order, account), OwnOf(reread, a.order, account)) && now <= later
    requires ProofOf(a, callbacks, account, now).Some?
    ensures ProofOf(a, reread, account, later) == ProofOf(a, callbacks, account, now)
  {
    hide OwnOf, ProofOf, ProofFrom, Provable, Fold, Collected;
    var own, again := OwnOf(callbacks, a.order, account), OwnOf(reread, a.order, account);
    ProofByParts(a, callbacks, account, now);
    ProofByParts(a, reread, account, later);
    assert Sound(a, again, later) by {
      assert own[0] in again;
      hide SameMembers;
    }
    SameParts(own, again);
    CollectedAlike(PartsOf(own), PartsOf(again), PartId);
    ProofFromAlike(a, Collected(PartsOf(own), PartId).value, Collected(PartsOf(again), PartId).value);
  }

  lemma ProofFromAlike(a: Action, x: seq<Part>, y: seq<Part>)
    requires multiset(x) == multiset(y)
    ensures ProofFrom(a, x) == ProofFrom(a, y)
  {
    AddCommutes();
    FoldIgnoresOrder(AddPart, NOTHING, x, y);
    hide Fold;
    assert forall p :: p in x <==> p in multiset(x);
    assert forall p :: p in y <==> p in multiset(y);
    assert (set p | p in x :: p.id) == set p | p in y :: p.id;
  }

  lemma SameParts(a: seq<Callback>, b: seq<Callback>)
    requires SameMembers(a, b)
    ensures SameMembers(PartsOf(a), PartsOf(b))
  {
    PartsAreIn(a, b);
    PartsAreIn(b, a);
  }

  lemma PartsAreIn(a: seq<Callback>, b: seq<Callback>)
    requires SameMembers(a, b)
    ensures forall p :: p in PartsOf(a) ==> p in PartsOf(b)
  {
    var parts, others := PartsOf(a), PartsOf(b);
    forall p | p in parts ensures p in others {
      var i :| 0 <= i < |parts| && parts[i] == p;
      assert a[i] in b;
      var j :| 0 <= j < |b| && b[j] == a[i];
      assert others[j] == p;
    }
  }

  // ------------------------------------------------------- a saved fill

  /** What the ledger reads as one filled action. */
  datatype Audit = Audit(order: string, symbol: string, side: Side, quantity: real, price: real, closed: bool,
                         time: int)

  function Given(f: Figure): real {
    if f.Figure? then f.value else 0.0
  }

  /** The broker's final status reports the whole order filled, as far as the remaining quantity. */
  predicate StatusFills(a: Action, s: Saved) {
    && s.responseOrder == a.order && s.order == a.order && s.filled
    && Given(s.quantity) > 0.0 && Given(s.price) > 0.0 && a.quantity > 0.0
    && Abs(Given(s.quantity) - a.quantity) <= 0.00000001
  }

  predicate FullStatus(a: Action, s: Saved) {
    StatusFills(a, s) && s.remaining == Figure(0.0) && a.side.Some?
  }

  predicate Readable(a: Action) {
    && a.ibkr && a.owned && a.status in {"EXECUTED", "EXIT_EXECUTED"} && a.order != ""
    && a.saved.Some? && !a.saved.value.quantity.Malformed? && !a.saved.value.price.Malformed?
    && !(StatusFills(a, a.saved.value) && a.saved.value.remaining.Malformed?)
  }

  /** The executions saved with an entry prove its fill when the status does not. */
  function SavedProof(a: Action, account: string, now: int): Option<Proof> {
    if a.saved == None || a.saved.value.evidence == None then None
    else
      var e := a.saved.value.evidence.value;
      if e.account == "" || e.account != account then None else ProofOf(a, e.callbacks, e.account, now)
  }

  function SavedFill(a: Action, account: string, now: int): Option<Audit> {
    if !Readable(a) then None
    else if FullStatus(a, a.saved.value) then
      if a.saved.value.account !in {"", account} then None
      else Some(Audit(a.order, a.symbol, a.side.value, Given(a.saved.value.quantity), Given(a.saved.value.price),
                      a.status == "EXIT_EXECUTED", a.created))
    else
      var proof := SavedProof(a, account, now);
      if proof == None || a.status != "EXECUTED" || a.side == None then None
      else Some(Audit(a.order, a.symbol, a.side.value, proof.value.quantity, proof.value.price, false,
                      proof.value.time))
  }

  method ReadFill(a: Action, account: string, now: int) returns (fill: Option<Audit>)
    ensures fill == SavedFill(a, account, now)
  {
    hide ProofOf;
    fill := None;
    if !a.ibkr || a.status !in {"EXECUTED", "EXIT_EXECUTED"} || !a.owned || a.order == "" || a.saved == None { return; }
    var s := a.saved.value;
    if s.quantity.Malformed? || s.price.Malformed? { return; }
    var fills := StatusFills(a, s);
    if fills && s.remaining.Malformed? { return; }
    if !fills || s.remaining != Figure(0.0) || a.side == None {
      if s.evidence == None || s.evidence.value.account == "" || s.evidence.value.account != account { return; }
      var proof := ProveFill(a, s.evidence.value.callbacks, s.evidence.value.account, now);
      if proof == None || a.status != "EXECUTED" { return; }
      ProofHasSide(a, s.evidence.value.callbacks, s.evidence.value.account, now);
      return Some(Audit(a.order, a.symbol, a.side.value, proof.value.quantity, proof.value.price, false,
                        proof.value.time));
    }
    if s.account !in {"", account} { return; }
    fill := Some(Audit(a.order, a.symbol, a.side.value, s.quantity.value, s.price.value, a.status == "EXIT_EXECUTED",
                       a.created));
  }

  lemma ProofHasSide(a: Action, callbacks: seq<Callback>, account: string, now: int)
    ensures ProofOf(a, callbacks, account, now).Some? ==> a.side.Some?
  {
  }

  /** A saved fill covers its action's quantity at a positive price; an exit is only read from the
      broker's status; and a fill once read stays as it is. */
  lemma SavedFillMeans(a: Action, account: string, now: int)
    requires SavedFill(a, account, now).Some?
    ensures var f := SavedFill(a, account, now).value;
      && f.order == a.order && Some(f.side) == a.side && f.quantity > 0.0 && f.price > 0.0
      && Abs(f.quantity - a.quantity) <= TOLERANCE
      && (f.closed <==> a.status == "EXIT_EXECUTED") && (f.closed ==> FullStatus(a, a.saved.value))
      && (FullStatus(a, a.saved.value) ==> f.time == a.created) && a.created - 300_000 <= f.time
    ensures forall later :: now <= later ==> SavedFill(a, account, later) == SavedFill(a, account, now)
  {
    if FullStatus(a, a.saved.value) {
    } else {
      var callbacks := a.saved.value.evidence.value.callbacks;
      ProofIsSized(a, callbacks, account, now);
      hide ProofOf;
      forall later | now <= later ensures SavedFill(a, account, later) == SavedFill(a, account, now) {
        ProofIsStable(a, callbacks, callbacks, account, now, later);
      }
    }
  }

  lemma ProofIsSized(a: Action, callbacks: seq<Callback>, account: string, now: int)
    requires ProofOf(a, callbacks, account, now).Some?
    ensures var p := ProofOf(a, callbacks, account, now).value;
      p.quantity > 0.0 && p.price > 0.0 && a.created - 300_000 <= p.time && Abs(p.quantity - a.quantity) <= TOLERANCE
  {
    ProofMeans(a, callbacks, account, now);
    ProofByParts(a, callbacks, account, now);
    hide OwnOf, Collected, Fold, ProofOf, Provable;
  }
}
