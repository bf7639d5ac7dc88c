/** The statement-evidence store of one profile and the two reviewed workflows that write to it:
    importing an Activity Flex file against an explicit mapping, and recovering a closed round
    trip. */
module Evidence {

  import opened Wrappers
  import opened RealArith
  import opened Folds
  import opened FlexFile
  import opened SavedFills

  datatype Kind = OPENING | CLOSING

  datatype Closing = Closing(quantity: real, time: int, ids: set<string>, pnl: Option<real>, commission: Option<real>,
                             rows: set<Callback>)

  datatype Opening = Opening(quantity: real, price: real, time: int, commission: real)

  /** The compared part of an evidence row.  Executions are stored sorted by identifier, so they
      are a set here. */
  datatype Core =
    | Imported(order: string, symbol: string, side: Side, quantity: real, price: real, time: int, closed: bool,
               commission: real, pnl: Option<real>, trades: set<Execution>)
    | Recovered(kind: Kind, entry: string, exit: string, opening: Opening, closing: Closing, file: nat,
                openingTrades: set<Execution>, trades: set<Execution>)

  /** Who wrote a row and when: kept, never compared. */
  datatype Stamp = Stamp(operator: string, at: int)

  datatype Stored = Stored(core: Core, stamp: Stamp)

  type Store = map<string, Stored>

  function Ids(trades: set<Execution>): set<string> {
    set e | e in trades :: e.id
  }

  /** No execution belongs to two actions. */
  ghost predicate Unique(s: Store) {
    forall a, b :: a in s && b in s && a != b ==> Ids(s[a].core.trades) !! Ids(s[b].core.trades)
  }

  // ---------------------------------------------------- statement evidence

  /** Totals of a group: `pnl` is missing when it is for one execution, `latest` for none. */
  datatype Totals = Totals(quantity: real, value: real, fees: real, pnl: Option<real>, latest: Option<int>)

  const NO_TRADES := Totals(0.0, 0.0, 0.0, Some(0.0), None)

  function Plus(t: Totals, e: Execution): Totals {
    Totals(t.quantity + e.quantity, t.value + e.quantity * e.price, t.fees + e.commission,
           if t.pnl == None || e.pnl == None then None else Some(t.pnl.value + e.pnl.value),
           if t.latest == None || t.latest.value < e.time then Some(e.time) else t.latest)
  }

  function Sum(group: seq<Execution>): (t: Totals)
    ensures (forall i :: 0 <= i < |group| ==> group[i].quantity > 0.0) && group != [] ==> t.quantity > 0.0
    ensures group == [] ==> t.quantity == 0.0
    ensures group != [] ==> t.latest.Some?
  {
    if group == [] then NO_TRADES else Plus(Sum(group[..|group| - 1]), group[|group| - 1])
  }

  function Members(group: seq<Execution>): (r: set<Execution>)
    ensures forall e :: e in r <==> e in group
  {
    set e | e in group
  }

  predicate Agrees(e: Execution, audit: Audit, order: string) {
    && e.order == order && e.symbol == Upper(audit.symbol) && e.side == audit.side && e.closed == audit.closed
    && -300_000 <= audit.time - e.time <= 86_400_000
  }

  /** The evidence for one action, or nothing when the executions do not cover its saved fill. */
  function StatementEvidence(audit: Option<Audit>, group: seq<Execution>): Option<Core>
    requires forall i :: 0 <= i < |group| ==> group[i].quantity > 0.0
  {
    if audit == None || group == [] then None
    else
      var a, t := audit.value, Sum(group);
      var price := t.value / t.quantity;
      if (exists i :: 0 <= i < |group| && !Agrees(group[i], a, group[0].order))
         || Abs(t.quantity - a.quantity) > 0.00000001 || Abs(price - a.price) > 0.0001
      then None
      else Some(Imported(a.order, a.symbol, a.side, t.quantity, price, t.latest.value, a.closed, -t.fees,
                         if a.closed then t.pnl else None, Members(group)))
  }

  // Evidence does not depend on the order of the executions, so reading it back from the sorted
  // executions of a stored row gives the same evidence.

  lemma PlusCommutes()
    ensures Commutes(Plus)
  {
  }

  lemma {:induction false} SumIsFold(group: seq<Execution>)
    ensures Sum(group) == Fold(Plus, NO_TRADES, group)
  {
    if group != [] { SumIsFold(group[..|group| - 1]); }
  }

  lemma SumIgnoresOrder(a: seq<Execution>, b: seq<Execution>)
    requires multiset(a) == multiset(b)
    ensures Sum(a) == Sum(b)
  {
    PlusCommutes();
    SumIsFold(a);
    SumIsFold(b);
    FoldIgnoresOrder(Plus, NO_TRADES, a, b);
  }

  lemma DisagreementIgnoresOrder(audit: Audit, a: seq<Execution>, b: seq<Execution>)
    requires a != [] && b != [] && Members(a) == Members(b)
    requires forall i :: 0 <= i < |a| ==> Agrees(a[i], audit, a[0].order)
    ensures forall i :: 0 <= i < |b| ==> Agrees(b[i], audit, b[0].order)
  {
    forall i | 0 <= i < |b| ensures Agrees(b[i], audit, a[0].order) {
      assert b[i] in Members(b);
    }
  }

  lemma SameListing(a: seq<Execution>, b: seq<Execution>)
    requires NoRepeats(a) && NoRepeats(b) && Members(a) == Members(b)
    ensures SameMembers(a, b) && Sum(a) == Sum(b)
  {
    assert forall e :: e in a <==> e in Members(a);
    assert forall e :: e in b <==> e in Members(b);
    SameMembersSameCounts(a, b);
    SumIgnoresOrder(a, b);
  }

  /** Stored evidence revalidates: recomputed from its own executions in any order, it is found
      again. */
  lemma StoredEvidenceRevalidates(audit: Option<Audit>, group: seq<Execution>, reread: seq<Execution>)
    requires (forall i :: 0 <= i < |group| ==> group[i].quantity > 0.0) && StatementEvidence(audit, group).Some?
    requires NoRepeats(group) && NoRepeats(reread)
    requires Members(reread) == StatementEvidence(audit, group).value.trades
    ensures forall i :: 0 <= i < |reread| ==> reread[i].quantity > 0.0
    ensures StatementEvidence(audit, reread) == StatementEvidence(audit, group)
  {
    SameListing(group, reread);
    forall i | 0 <= i < |reread| ensures reread[i] in group {
      assert reread[i] in Members(reread);
    }
    assert group[0] in Members(group);
    DisagreementIgnoresOrder(audit.value, group, reread);
  }

  // --------------------------------------------------------------- requests

  datatype Mapped = Mapped(action: string, ids: seq<string>)

  /** A mapping is a dictionary: its keys are distinct. */
  predicate IsDictionary(mapping: seq<Mapped>) {
    forall i, j :: 0 <= i < j < |mapping| ==> mapping[i].action != mapping[j].action
  }

  predicate Distinct(ids: seq<string>) {
    forall i, j :: 0 <= i < j < |ids| ==> ids[i] != ids[j]
  }

  function Group(file: File, ids: seq<string>): (g: seq<Execution>)
    requires ValidFile(file) && forall t :: t in ids ==> t in file
    ensures |g| == |ids| && forall i :: 0 <= i < |g| ==> g[i] == file[ids[i]] && g[i].quantity > 0.0
  {
    seq(|ids|, i requires 0 <= i < |ids| => file[ids[i]])
  }

  /** The identifiers are those of one whole broker order of the file. */
  predicate WholeOrder(file: File, ids: seq<string>) {
    && ids != [] && Distinct(ids) && (forall t :: t in ids ==> t in file)
    && (forall t :: t in file ==> (t in ids <==> file[t].order == file[ids[0]].order))
  }

  predicate HeldByOthers(s: Store, action: string, ids: seq<string>) {
    exists a :: a in s && a != action && exists t :: t in ids && t in Ids(s[a].core.trades)
  }

  /** A request to import a file: the mapping under review, and the filled actions of the profile. */
  datatype Import = Import(file: File, account: string, now: int, mapping: seq<Mapped>, actions: map<string, Action>,
                           apply: bool)

  predicate ClaimedBefore(mapping: seq<Mapped>, i: nat)
    requires i < |mapping|
  {
    exists t :: t in mapping[i].ids && exists j :: 0 <= j < i && t in mapping[j].ids
  }

  function EvidenceFor(r: Import, i: nat): Option<Core>
    requires ValidFile(r.file) && i < |r.mapping|
  {
    var m := r.mapping[i];
    if m.action !in r.actions || exists t :: t in m.ids && t !in r.file then None
    else StatementEvidence(SavedFill(r.actions[m.action], r.account, r.now), Group(r.file, m.ids))
  }

  /** One mapped action passes every check of the import. */
  predicate Fits(s: Store, r: Import, i: nat)
    requires ValidFile(r.file) && i < |r.mapping|
  {
    var m := r.mapping[i];
    && m.action in r.actions
    && WholeOrder(r.file, m.ids)
    && !ClaimedBefore(r.mapping, i)
    && !HeldByOthers(s, m.action, m.ids)
    && EvidenceFor(r, i).Some?
    && (m.action in s ==> s[m.action].core == EvidenceFor(r, i).value)
  }

  predicate Accepted(s: Store, r: Import)
    requires ValidFile(r.file)
  {
    (r.apply ==> r.mapping != []) && forall i :: 0 <= i < |r.mapping| ==> Fits(s, r, i)
  }

  function Written(s: Store, r: Import, stamp: Stamp, n: nat): Store
    requires ValidFile(r.file) && n <= |r.mapping| && forall i :: 0 <= i < n ==> EvidenceFor(r, i).Some?
  {
    if n == 0 then s
    else
      var action, before := r.mapping[n - 1].action, Written(s, r, stamp, n - 1);
      if action in s then before else before[action := Stored(EvidenceFor(r, n - 1).value, stamp)]
  }

  function AfterImport(s: Store, r: Import, stamp: Stamp): Store
    requires ValidFile(r.file)
  {
    if Accepted(s, r) && r.apply then
      AcceptedFits(s, r);
      Written(s, r, stamp, |r.mapping|)
    else s
  }

  // ---------------------------------------------- closed round trips

  function CallbackId(c: Callback): string {
    c.id
  }

  /** The distinct callbacks of the exit's order, or nothing when one is repeated with other
      content. */
  function Gathered(callbacks: seq<Callback>, exit: Action, account: string): Option<seq<Callback>> {
    Collected(OwnOf(callbacks, exit.order, account), CallbackId)
  }

  /** A financial figure that is given must be a number in USD. */
  predicate Supported(c: Callback) {
    && !c.commission.Malformed? && !c.realized.Malformed?
    && (c.commission != Absent || c.realized != Absent ==> c.currency == "USD")
  }

  function Realized(pnl: Option<real>, c: Callback): Option<real> {
    if pnl == None || !c.pnlAvailable || !c.realized.Figure? then None else Some(pnl.value + c.realized.value)
  }

  function Charged(commission: Option<real>, c: Callback): Option<real> {
    if commission == None || !c.commission.Figure? then None else Some(commission.value + c.commission.value)
  }

  predicate InScope(a: Action) {
    a.ibkr && a.paper && a.owned
  }

  /** The audited fill and the one that callbacks prove are one, of the audit's time. */
  predicate Confirmed(exit: Action, audit: Option<Audit>, proof: Option<Proof>) {
    && InScope(exit) && exit.status == "EXIT_EXECUTED" && audit.Some? && proof.Some?
    && Abs(audit.value.price - proof.value.price) <= 0.0001
    && exit.created - 300_000 <= proof.value.time <= exit.created + 86_400_000
  }

  function ClosingOf(exit: Action, callbacks: seq<Callback>, account: string, now: int): Option<Closing> {
    var audit, proof := SavedFill(exit, account, now), ProofOf(exit, callbacks, account, now);
    if !Confirmed(exit, audit, proof) then None
    else
      var rows := Gathered(callbacks, exit, account);
      if rows == None || exists i :: 0 <= i < |rows.value| && !Supported(rows.value[i]) then None
      else Some(ClosingFrom(audit.value, proof.value, rows.value))
  }

  function ClosingFrom(audit: Audit, proof: Proof, rows: seq<Callback>): Closing {
    Closing(audit.quantity, proof.time, proof.ids, Fold(Realized, Some(0.0), rows), Fold(Charged, Some(0.0), rows),
            set c | c in rows)
  }

  predicate OpensFor(t: Execution, entry: Action, order: string) {
    && t.order == order && t.callback.Some? && t.callback.value != "" && !t.closed
    && t.symbol == entry.symbol && Some(t.side) == entry.side
  }

  predicate SameExecution(a: Execution, b: Execution) {
    a.id == b.id || a.callback == b.callback
  }

  predicate AllOpen(group: seq<Execution>, entry: Action, order: string, latest: int) {
    forall i :: 0 <= i < |group| ==>
      OpensFor(group[i], entry, order) && entry.created - 300_000 <= group[i].time <= latest
  }

  predicate Apart(group: seq<Execution>) {
    forall i, j :: 0 <= i < j < |group| ==> !SameExecution(group[i], group[j])
  }

  function OpeningOf(entry: Action, exit: Action, group: seq<Execution>, close: Closing): Option<Opening>
    requires forall i :: 0 <= i < |group| ==> group[i].quantity > 0.0
  {
    if !InScope(entry) || entry.status != "EXECUTED" || entry.side == None || entry.order == ""
       || entry.symbol != exit.symbol || entry.side == exit.side || group == []
       || !AllOpen(group, entry, group[0].order, close.time) || !Apart(group) then None
    else
      var t := Sum(group);
      if Abs(t.quantity - entry.quantity) > 0.00000001 || Abs(t.quantity - close.quantity) > 0.00000001 then None
      else Some(Opening(t.quantity, t.value / t.quantity, t.latest.value, -t.fees))
  }

  /** A request to recover a closed pair. */
  datatype Recovery = Recovery(file: File, hash: nat, account: string, now: int, reviewed: bool, entry: Action,
                               exit: Action, linked: Option<string>, ids: seq<string>, callbacks: seq<Callback>,
                               apply: bool)

  function ClosingFor(r: Recovery): Option<Closing> {
    ClosingOf(r.exit, r.callbacks, r.account, r.now)
  }

  function OpeningFor(r: Recovery): Option<Opening>
    requires ValidFile(r.file) && forall t :: t in r.ids ==> t in r.file
  {
    if ClosingFor(r) == None then None else OpeningOf(r.entry, r.exit, Group(r.file, r.ids), ClosingFor(r).value)
  }

  function Candidate(r: Recovery, kind: Kind): Core
    requires ValidFile(r.file) && (forall t :: t in r.ids ==> t in r.file) && OpeningFor(r).Some?
  {
    var group := Members(Group(r.file, r.ids));
    Recovered(kind, r.entry.id, r.exit.id, OpeningFor(r).value, ClosingFor(r).value, r.hash, group,
              if kind == OPENING then group else {})
  }

  predicate Recoverable(s: Store, r: Recovery)
    requires ValidFile(r.file)
  {
    && r.reviewed && r.entry.id != r.exit.id && r.linked == Some(r.entry.id)
    && WholeOrder(r.file, r.ids) && OpeningFor(r).Some?
    && !HeldByOthers(s, r.entry.id, r.ids)
    && (r.entry.id in s ==> s[r.entry.id].core == Candidate(r, OPENING))
    && (r.exit.id in s ==> s[r.exit.id].core == Candidate(r, CLOSING))
  }

  function AfterRecovery(s: Store, r: Recovery, stamp: Stamp): Store
    requires ValidFile(r.file)
  {
    if Recoverable(s, r) && r.apply then
      var t := if r.entry.id in s then s else s[r.entry.id := Stored(Candidate(r, OPENING), stamp)];
      if r.exit.id in s then t else t[r.exit.id := Stored(Candidate(r, CLOSING), stamp)]
    else s
  }

  // ------------------------------------------------------ the two workflows

  datatype Planned = Planned(action: string, core: Core, duplicate: bool)

  function Plan(s: Store, r: Import, i: nat): Planned
    requires ValidFile(r.file) && i < |r.mapping| && EvidenceFor(r, i).Some?
  {
    Planned(r.mapping[i].action, EvidenceFor(r, i).value, r.mapping[i].action in s)
  }

  function Duplicates(s: Store, mapping: seq<Mapped>, n: nat): nat
    requires n <= |mapping|
  {
    if n == 0 then 0 else Duplicates(s, mapping, n - 1) + if mapping[n - 1].action in s then 1 else 0
  }

  /** The reverse index from executions to the action that holds them. */
  ghost predicate Indexes(owners: map<string, string>, s: Store, done: set<string>) {
    && (forall a, t :: a in s && a in done && t in Ids(s[a].core.trades) ==> t in owners && owners[t] == a)
    && (forall t :: t in owners ==> owners[t] in s && owners[t] in done && t in Ids(s[owners[t]].core.trades))
  }

  lemma IndexesOneMore(owners: map<string, string>, s: Store, done: set<string>, a: string, next: map<string, string>)
    requires Unique(s) && Indexes(owners, s, done) && a in s && a !in done
    requires next == map t | t in owners.Keys + Ids(s[a].core.trades) :: if t in Ids(s[a].core.trades) then a
      else owners[t]
    ensures Indexes(next, s, done + {a})
  {
    hide Ids;
  }

  lemma OwnersDecide(owners: map<string, string>, s: Store, action: string, ids: seq<string>)
    requires Indexes(owners, s, s.Keys)
    ensures HeldByOthers(s, action, ids) <==> exists t :: t in ids && t in owners && owners[t] != action
  {
    hide Ids;
    if t :| t in ids && t in owners && owners[t] != action {
      assert owners[t] in s;
    }
  }

  class EvidenceStore {

    var rows: Store

    constructor ()
      ensures rows == map[]
    {
      rows := map[];
    }

    method Owners() returns (owners: map<string, string>)
      requires Unique(rows)
      ensures Indexes(owners, rows, rows.Keys)
    {
      hide Unique, Ids;
      owners := map[];
      var rest := rows.Keys;
      while rest != {}
        invariant rest <= rows.Keys
        invariant Indexes(owners, rows, rows.Keys - rest)
        decreases |rest|
      {
        hide Indexes;
        var a :| a in rest;
        var held := Ids(rows[a].core.trades);
        var next := map t | t in owners.Keys + held :: if t in held then a else owners[t];
        IndexesOneMore(owners, rows, rows.Keys - rest, a, next);
        assert rows.Keys - rest + {a} == rows.Keys - (rest - {a});
        owners, rest := next, rest - {a};
      }
      assert rows.Keys - rest == rows.Keys;
    }

    /** The checks of one mapped action, in the order they are made. */
    method Check(r: Import, i: nat, owners: map<string, string>, seen: set<string>) returns (core: Option<Core>)
      requires ValidFile(r.file) && i < |r.mapping| && Indexes(owners, rows, rows.Keys)
      requires forall t :: t in seen <==> exists j :: 0 <= j < i && t in r.mapping[j].ids
      ensures core.Some? <==> Fits(rows, r, i)
      ensures core.Some? ==> core == EvidenceFor(r, i)
    {
      hide StatementEvidence, HeldByOthers, Indexes, Distinct, ValidFile;
      core := None;
      var m := r.mapping[i];
      if m.action !in r.actions { return; }
      if m.ids == [] || !Distinct(m.ids) || exists t :: t in m.ids && t !in r.file { return; }
      OwnersDecide(owners, rows, m.action, m.ids);
      if exists t :: t in m.ids && (t in seen || (t in owners && owners[t] != m.action)) { return; }
      var group := Group(r.file, m.ids);
      var order := group[0].order;
      if (set t | t in r.file && r.file[t].order == order) != (set t | t in m.ids) {
        assert !WholeOrder(r.file, m.ids);
        return;
      }
      WholeOrderBySets(r.file, m.ids);
      var audit := ReadFill(r.actions[m.action], r.account, r.now);
      var evidence := StatementEvidence(audit, group);
      if evidence == None { return; }
      if m.action in rows && rows[m.action].core != evidence.value { return; }
      core := evidence;
    }

    /** Every mapping is validated before anything is written. */
    method Reconcile(r: Import, stamp: Stamp) returns (accepted: bool, duplicates: nat, unmapped: set<string>)
      requires Unique(rows) && ValidFile(r.file) && IsDictionary(r.mapping)
      modifies this
      ensures accepted <==> Accepted(old(rows), r)
      ensures rows == AfterImport(old(rows), r, stamp)
      ensures accepted ==> unmapped == set t | t in r.file && forall i :: 0 <= i < |r.mapping| ==>
        t !in r.mapping[i].ids
      ensures accepted ==> duplicates == Duplicates(old(rows), r.mapping, |r.mapping|)
    {
      hide Fits, EvidenceFor, Unique, Indexes, ValidFile;
      accepted, duplicates, unmapped := false, 0, {};
      if r.apply && r.mapping == [] { return; }
      var owners := Owners();
      var planned: seq<Planned> := [];
      var seen: set<string> := {};
      for i := 0 to |r.mapping|
        invariant rows == old(rows)
        invariant forall j :: 0 <= j < i ==> Fits(rows, r, j) && EvidenceFor(r, j).Some?
        invariant forall t :: t in seen <==> exists j :: 0 <= j < i && t in r.mapping[j].ids
        invariant |planned| == i
        invariant forall j :: 0 <= j < i ==> planned[j] == Plan(rows, r, j)
      {
        var core := Check(r, i, owners, seen);
        if core == None { return; }
        seen := seen + set t | t in r.mapping[i].ids;
        planned := planned + [Planned(r.mapping[i].action, core.value, r.mapping[i].action in rows)];
      }
      accepted := true;
      for i := 0 to |planned|
        invariant rows == if r.apply then Written(old(rows), r, stamp, i) else old(rows)
        invariant duplicates == Duplicates(old(rows), r.mapping, i)
      {
        var p := planned[i];
        if r.apply && !p.duplicate { rows := rows[p.action := Stored(p.core, stamp)]; }
        if p.duplicate { duplicates := duplicates + 1; }
      }
      unmapped := r.file.Keys - seen;
    }

    /** Own callbacks are gathered once each before their figures are read. */
    method CloseEvidence(exit: Action, callbacks: seq<Callback>, account: string, now: int)
      returns (closing: Option<Closing>)
      ensures closing == ClosingOf(exit, callbacks, account, now)
    {
      hide Supported, Joined, Own, SavedFill, ProofOf, ClosingFrom;
      closing := None;
      var audit := ReadFill(exit, account, now);
      var proof := ProveFill(exit, callbacks, account, now);
      if !InScope(exit) || exit.status != "EXIT_EXECUTED" || audit == None || proof == None { return; }
      if Abs(audit.value.price - proof.value.price) > 0.0001 { return; }
      if !(exit.created - 300_000 <= proof.value.time <= exit.created + 86_400_000) { return; }
      var rows := Gather(exit, callbacks, account);
      if rows == None || exists i :: 0 <= i < |rows.value| && !Supported(rows.value[i]) { return; }
      closing := Some(ClosingFrom(audit.value, proof.value, rows.value));
    }

    method Gather(exit: Action, callbacks: seq<Callback>, account: string) returns (rows: Option<seq<Callback>>)
      ensures rows == Gathered(callbacks, exit, account)
    {
      hide Joined, Own, OwnOf;
      var unique: seq<Callback> := [];
      assert OwnOf([], exit.order, account) == [] by { NoneOwn(exit.order, account); }
      for i := 0 to |callbacks|
        invariant Gathered(callbacks[..i], exit, account) == Some(unique)
      {
        GatheredStep(callbacks, i, exit, account);
        if Own(callbacks[i], exit.order, account) {
          var joined := Joined(unique, callbacks[i], CallbackId);
          if joined == None {
            ConflictRemains(callbacks, i + 1, exit, account);
            return None;
          }
          unique := joined.value;
        }
      }
      assert callbacks[..|callbacks|] == callbacks;
      return Some(unique);
    }

    method Recover(r: Recovery, stamp: Stamp) returns (accepted: bool)
      requires ValidFile(r.file)
      modifies this
      ensures accepted <==> Recoverable(old(rows), r)
      ensures rows == AfterRecovery(old(rows), r, stamp)
    {
      hide Ids, WholeOrder, ValidFile, ClosingOf, OpeningOf;
      accepted := false;
      if !r.reviewed || r.entry.id == r.exit.id || r.linked != Some(r.entry.id) { return; }
      if !WholeOrder(r.file, r.ids) { return; }
      WholeOrderIsKnown(r.file, r.ids);
      var closing := CloseEvidence(r.exit, r.callbacks, r.account, r.now);
      if closing == None || OpeningOf(r.entry, r.exit, Group(r.file, r.ids), closing.value) == None { return; }
      var held := HeldElsewhere(r.entry.id, r.ids);
      if held { return; }
      hide HeldByOthers, OpeningFor, ClosingFor;
      if r.entry.id in rows && rows[r.entry.id].core != Candidate(r, OPENING) { return; }
      if r.exit.id in rows && rows[r.exit.id].core != Candidate(r, CLOSING) { return; }
      accepted := true;
      if r.apply {
        if r.entry.id !in rows { rows := rows[r.entry.id := Stored(Candidate(r, OPENING), stamp)]; }
        if r.exit.id !in rows { rows := rows[r.exit.id := Stored(Candidate(r, CLOSING), stamp)]; }
      }
    }

    /** The loop over the stored evidence of other actions. */
    method HeldElsewhere(action: string, ids: seq<string>) returns (held: bool)
      ensures held <==> HeldByOthers(rows, action, ids)
    {
      hide Ids;
      var rest := rows.Keys;
      while rest != {}
        invariant rest <= rows.Keys
        invariant forall a, t :: a in rows.Keys - rest && a != action && t in ids ==> t !in Ids(rows[a].core.trades)
        decreases |rest|
      {
        var a :| a in rest;
        if a != action && exists t :: t in ids && t in Ids(rows[a].core.trades) { return true; }
        rest := rest - {a};
      }
      held := false;
    }
  }

  lemma NoneOwn(order: string, account: string)
    ensures OwnOf([], order, account) == []
  {
  }

  lemma GatheredStep(callbacks: seq<Callback>, i: nat, exit: Action, account: string)
    requires i < |callbacks|
    ensures Gathered(callbacks[..i + 1], exit, account) ==
      var before := Gathered(callbacks[..i], exit, account);
      if before == None || !Own(callbacks[i], exit.order, account) then before
      else Joined(before.value, callbacks[i], CallbackId)
  {
    hide Joined, Own, OwnOf;
    OwnStep(callbacks, i, exit.order, account);
    var own := OwnOf(callbacks[..i], exit.order, account);
    assert own + [] == own && (own + [callbacks[i]])[..|own|] == own;
  }

  lemma ConflictRemains(callbacks: seq<Callback>, n: nat, exit: Action, account: string)
    requires n <= |callbacks| && Gathered(callbacks[..n], exit, account) == None
    ensures Gathered(callbacks, exit, account) == None
  {
    hide OwnOf, Own;
    OwnRemains(callbacks, n, exit.order, account);
    var some, all := OwnOf(callbacks[..n], exit.order, account), OwnOf(callbacks, exit.order, account);
    assert all[..|some|] == some;
    CollectedStays(all, |some|, CallbackId);
  }

  /** Callbacks are gathered exactly when the repeated ones agree, each own one once. */
  lemma GatheredIffAgree(callbacks: seq<Callback>, exit: Action, account: string)
    ensures var own := OwnOf(callbacks, exit.order, account);
      && (Gathered(callbacks, exit, account).Some? <==> Agree(own, CallbackId))
      && (Gathered(callbacks, exit, account).Some? ==>
          ListsOnce(Gathered(callbacks, exit, account).value, own, CallbackId))
  {
    hide Collected;
    CollectedIffAgree(OwnOf(callbacks, exit.order, account), CallbackId);
  }

  lemma CallbackSums()
    ensures Commutes(Realized) && Commutes(Charged)
  {
  }

  lemma ListedOnce(rows: seq<Callback>, own: seq<Callback>)
    requires ListsOnce(rows, own, CallbackId)
    ensures NoRepeats(rows) && SameMembers(rows, own)
  {
  }

  lemma ClosingAlike(audit: Audit, proof: Proof, rows: seq<Callback>, again: seq<Callback>)
    requires multiset(rows) == multiset(again)
    ensures ClosingFrom(audit, proof, again) == ClosingFrom(audit, proof, rows)
  {
    CallbackSums();
    FoldIgnoresOrder(Realized, Some(0.0), rows, again);
    FoldIgnoresOrder(Charged, Some(0.0), rows, again);
    hide Fold;
    assert forall c :: c in rows <==> c in multiset(rows);
    assert forall c :: c in again <==> c in multiset(again);
    assert (set c | c in rows) == set c | c in again;
  }

  /** A closing does not depend on the order or repetition of callbacks, nor on those of other
      orders and accounts; once confirmed it stays confirmed. */
  lemma ClosingIsStable(exit: Action, callbacks: seq<Callback>, reread: seq<Callback>, account: string, now: int,
                        later: int)
    requires SameMembers(OwnOf(callbacks, exit.order, account), OwnOf(reread, exit.order, account)) && now <= later
    requires ClosingOf(exit, callbacks, account, now).Some?
    ensures ClosingOf(exit, reread, account, later) == ClosingOf(exit, callbacks, account, now)
  {
    hide OwnOf, Collected, Supported, SavedFill, ProofOf, ClosingFrom;
    ProofIsStable(exit, callbacks, reread, account, now, later);
    SavedFillMeans(exit, account, now);
    CollectedAlike(OwnOf(callbacks, exit.order, account), OwnOf(reread, exit.order, account), CallbackId);
    var rows, again := Gathered(callbacks, exit, account).value, Gathered(reread, exit, account).value;
    ClosingAlike(SavedFill(exit, account, now).value, ProofOf(exit, callbacks, account, now).value, rows, again);
    forall i | 0 <= i < |again| ensures Supported(again[i]) {
      assert again[i] in multiset(rows);
      var j :| 0 <= j < |rows| && rows[j] == again[i];
    }
  }

  /** Reading a recovered pair back: from the stored executions and callbacks, in any order, the
      stored opening and closing are found again. */
  lemma StoredPairRevalidates(s: Store, r: Recovery, opening: seq<Execution>, callbacks: seq<Callback>, later: int)
    requires ValidFile(r.file) && Recoverable(s, r) && r.now <= later
    requires var c := Candidate(r, OPENING);
      && NoRepeats(opening) && Members(opening) == c.openingTrades
      && (forall x :: x in callbacks <==> x in c.closing.rows)
    ensures forall i :: 0 <= i < |opening| ==> opening[i].quantity > 0.0
    ensures ClosingOf(r.exit, callbacks, r.account, later) == Some(Candidate(r, CLOSING).closing)
    ensures OpeningOf(r.entry, r.exit, opening, Candidate(r, CLOSING).closing) == Some(Candidate(r, OPENING).opening)
  {
    hide ClosingOf, OpeningOf, HeldByOthers;
    StoredCallbacks(r, callbacks);
    ClosingIsStable(r.exit, r.callbacks, callbacks, r.account, r.now, later);
    var group := Group(r.file, r.ids);
    GroupHasNoRepeats(r.file, r.ids);
    OpeningAlike(r.entry, r.exit, group, opening, ClosingFor(r).value);
  }

  lemma StoredCallbacks(r: Recovery, callbacks: seq<Callback>)
    requires ClosingFor(r).Some? && forall x :: x in callbacks <==> x in ClosingFor(r).value.rows
    ensures SameMembers(OwnOf(r.callbacks, r.exit.order, r.account), OwnOf(callbacks, r.exit.order, r.account))
  {
    GatheredIffAgree(r.callbacks, r.exit, r.account);
    hide Collected, SavedFill, ProofOf, Fold;
    var own := OwnOf(r.callbacks, r.exit.order, r.account);
    var rows := Gathered(r.callbacks, r.exit, r.account).value;
    ListedOnce(rows, own);
    assert forall c :: c in ClosingFor(r).value.rows <==> c in rows;
  }

  lemma GroupHasNoRepeats(file: File, ids: seq<string>)
    requires ValidFile(file) && Distinct(ids) && forall t :: t in ids ==> t in file
    ensures NoRepeats(Group(file, ids))
  {
    var g := Group(file, ids);
    forall i, j | 0 <= i < j < |g| ensures g[i] != g[j] {
      assert g[i].id == ids[i] && g[j].id == ids[j];
    }
  }

  lemma OpeningAlike(entry: Action, exit: Action, group: seq<Execution>, reread: seq<Execution>, close: Closing)
    requires forall i :: 0 <= i < |group| ==> group[i].quantity > 0.0
    requires OpeningOf(entry, exit, group, close).Some?
    requires NoRepeats(group) && NoRepeats(reread) && Members(reread) == Members(group)
    ensures forall i :: 0 <= i < |reread| ==> reread[i].quantity > 0.0
    ensures OpeningOf(entry, exit, reread, close) == OpeningOf(entry, exit, group, close)
  {
    SameListing(group, reread);
    assert group[0] in reread;
    forall i | 0 <= i < |reread| ensures exists k :: 0 <= k < |group| && group[k] == reread[i] {
      assert reread[i] in group;
    }
    hide Sum, Members;
    OpensAlike(entry, group, reread, close);
  }

  lemma OpensAlike(entry: Action, group: seq<Execution>, reread: seq<Execution>, close: Closing)
    requires group != [] && reread != [] && NoRepeats(reread)
    requires forall i :: 0 <= i < |reread| ==> exists k :: 0 <= k < |group| && group[k] == reread[i]
    requires AllOpen(group, entry, group[0].order, close.time) && Apart(group)
    ensures AllOpen(reread, entry, reread[0].order, close.time) && Apart(reread)
  {
    hide OpensFor;
    var first :| 0 <= first < |group| && group[first] == reread[0];
    assert group[first].order == group[0].order by { SameOrder(group[first], entry, group[0].order); }
    forall i, j | 0 <= i < j < |reread| ensures !SameExecution(reread[i], reread[j]) {
      var k :| 0 <= k < |group| && group[k] == reread[i];
      var l :| 0 <= l < |group| && group[l] == reread[j];
      assert k != l;
      assert SameExecution(group[k], group[l]) <==> SameExecution(group[l], group[k]);
    }
  }

  lemma SameOrder(t: Execution, entry: Action, order: string)
    requires OpensFor(t, entry, order)
    ensures t.order == order
  {
  }

  lemma WholeOrderIsKnown(file: File, ids: seq<string>)
    requires WholeOrder(file, ids)
    ensures forall t :: t in ids ==> t in file
  {
  }

  lemma WholeOrderBySets(file: File, ids: seq<string>)
    requires ids != [] && Distinct(ids) && (forall t :: t in ids ==> t in file)
    requires (set t | t in file && file[t].order == file[ids[0]].order) == (set t | t in ids)
    ensures WholeOrder(file, ids)
  {
    var same, given := set t | t in file && file[t].order == file[ids[0]].order, set t | t in ids;
    forall t | t in file ensures t in ids <==> file[t].order == file[ids[0]].order {
      assert t in same <==> t in given;
    }
  }

  // -------------------------------------------------------- any sequence of requests

  datatype Request = Importing(mapping: Import, stamp: Stamp) | Recovering(recovery: Recovery, stamp: Stamp)

  predicate WellFormed(q: Request) {
    match q
    case Importing(r, _) => ValidFile(r.file) && IsDictionary(r.mapping)
    case Recovering(r, _) => ValidFile(r.file)
  }

  predicate IsAccepted(s: Store, q: Request)
    requires WellFormed(q)
  {
    match q
    case Importing(r, _) => Accepted(s, r)
    case Recovering(r, _) => Recoverable(s, r)
  }

  predicate Applies(q: Request) {
    match q
    case Importing(r, _) => r.apply
    case Recovering(r, _) => r.apply
  }

  function Step(s: Store, q: Request): Store
    requires WellFormed(q)
  {
    match q
    case Importing(r, stamp) => AfterImport(s, r, stamp)
    case Recovering(r, stamp) => AfterRecovery(s, r, stamp)
  }

  function After(s: Store, requests: seq<Request>): Store
    requires forall i :: 0 <= i < |requests| ==> WellFormed(requests[i])
  {
    if requests == [] then s
    else Step(After(s, requests[..|requests| - 1]), requests[|requests| - 1])
  }

  /** The rows of one store are rows of another, unchanged. */
  ghost predicate Keeps(s: Store, t: Store) {
    forall a :: a in s ==> a in t && t[a] == s[a]
  }

  // What an import writes.

  lemma OneRow(r: Import, n: nat)
    requires IsDictionary(r.mapping) && n < |r.mapping|
    ensures forall i :: 0 <= i < n ==> r.mapping[i].action != r.mapping[n].action
  {
  }

  lemma {:induction false} WrittenFrom(s: Store, r: Import, stamp: Stamp, n: nat)
    requires ValidFile(r.file) && n <= |r.mapping| && forall i :: 0 <= i < n ==> EvidenceFor(r, i).Some?
    ensures Keeps(s, Written(s, r, stamp, n))
    ensures forall a :: a in Written(s, r, stamp, n) ==> a in s || exists i :: 0 <= i < n && r.mapping[i].action == a
  {
    hide EvidenceFor, ValidFile;
    if n > 0 {
      WrittenFrom(s, r, stamp, n - 1);
      var a := r.mapping[n - 1].action;
      forall b | b in Written(s, r, stamp, n) && b !in s ensures exists i :: 0 <= i < n && r.mapping[i].action == b {
        if b == a {
          assert r.mapping[n - 1].action == b;
        } else {
          assert b in Written(s, r, stamp, n - 1);
        }
      }
    }
  }

  lemma NotYetWritten(s: Store, r: Import, stamp: Stamp, n: nat)
    requires ValidFile(r.file) && IsDictionary(r.mapping) && n < |r.mapping|
    requires forall i :: 0 <= i < n ==> EvidenceFor(r, i).Some?
    ensures r.mapping[n].action in Written(s, r, stamp, n) ==> r.mapping[n].action in s
  {
    hide EvidenceFor, ValidFile, IsDictionary, Written;
    WrittenFrom(s, r, stamp, n);
    OneRow(r, n);
  }

  lemma {:induction false} WrittenRows(s: Store, r: Import, stamp: Stamp, n: nat)
    requires ValidFile(r.file) && IsDictionary(r.mapping) && n <= |r.mapping|
    requires forall i :: 0 <= i < n ==> EvidenceFor(r, i).Some?
    ensures forall i :: 0 <= i < n ==> r.mapping[i].action in Written(s, r, stamp, n)
    ensures forall i :: 0 <= i < n && r.mapping[i].action !in s ==>
      Written(s, r, stamp, n)[r.mapping[i].action] == Stored(EvidenceFor(r, i).value, stamp)
  {
    hide EvidenceFor, ValidFile, IsDictionary;
    if n > 0 {
      WrittenFrom(s, r, stamp, n - 1);
      WrittenRows(s, r, stamp, n - 1);
      OneRow(r, n - 1);
      NotYetWritten(s, r, stamp, n - 1);
    }
  }

  lemma ImportedIds(s: Store, r: Import, i: nat)
    requires ValidFile(r.file) && i < |r.mapping| && Fits(s, r, i)
    ensures EvidenceFor(r, i).value.trades == set t | t in r.mapping[i].ids :: r.file[t]
    ensures Ids(EvidenceFor(r, i).value.trades) == set t | t in r.mapping[i].ids
  {
    hide HeldByOthers, ClaimedBefore, Distinct;
    var ids := r.mapping[i].ids;
    var trades := EvidenceFor(r, i).value.trades;
    GroupSet(r.file, ids);
    assert trades == Members(Group(r.file, ids));
    IdsOfTrades(r.file, ids);
  }

  lemma GroupSet(file: File, ids: seq<string>)
    requires ValidFile(file) && forall t :: t in ids ==> t in file
    ensures Members(Group(file, ids)) == set t | t in ids :: file[t]
  {
    var g := Group(file, ids);
    forall t | t in ids ensures file[t] in g {
      var k :| 0 <= k < |ids| && ids[k] == t;
      assert g[k] == file[t];
    }
  }

  lemma IdsOfTrades(file: File, ids: seq<string>)
    requires ValidFile(file) && forall t :: t in ids ==> t in file
    ensures Ids(set t | t in ids :: file[t]) == set t | t in ids
  {
    var trades := set t | t in ids :: file[t];
    forall t | t in ids ensures t in Ids(trades) {
      assert file[t] in trades && file[t].id == t;
    }
  }

  lemma AcceptedFits(s: Store, r: Import)
    requires ValidFile(r.file) && Accepted(s, r)
    ensures forall i :: 0 <= i < |r.mapping| ==> Fits(s, r, i) && EvidenceFor(r, i).Some?
  {
    forall i | 0 <= i < |r.mapping| ensures Fits(s, r, i) && EvidenceFor(r, i).Some? {
      assert Fits(s, r, i);
    }
  }

  /** After an applied import every mapped action holds its evidence, whether new or not. */
  lemma ImportHolds(s: Store, r: Import, stamp: Stamp, i: nat)
    requires ValidFile(r.file) && IsDictionary(r.mapping) && Accepted(s, r) && r.apply && i < |r.mapping|
    ensures Fits(s, r, i) && r.mapping[i].action in AfterImport(s, r, stamp)
    ensures AfterImport(s, r, stamp)[r.mapping[i].action].core == EvidenceFor(r, i).value
  {
    AcceptedFits(s, r);
    hide EvidenceFor, ValidFile, WholeOrder, HeldByOthers, ClaimedBefore;
    WrittenFrom(s, r, stamp, |r.mapping|);
    WrittenRows(s, r, stamp, |r.mapping|);
  }

  function OrderIn(file: File, order: string): set<Execution> {
    set t | t in file && file[t].order == order :: file[t]
  }

  /** What an import stores for an action is every execution of one broker order of the file. */
  lemma ImportedOrdersAreWhole(s: Store, r: Import, stamp: Stamp, i: nat)
    requires ValidFile(r.file) && IsDictionary(r.mapping) && Accepted(s, r) && r.apply && i < |r.mapping|
    ensures r.mapping[i].action in AfterImport(s, r, stamp)
    ensures r.mapping[i].ids != [] && r.mapping[i].ids[0] in r.file
    ensures AfterImport(s, r, stamp)[r.mapping[i].action].core.trades == OrderIn(r.file,
        r.file[r.mapping[i].ids[0]].order)
  {
    ImportHolds(s, r, stamp, i);
    ImportedIds(s, r, i);
    var ids := r.mapping[i].ids;
    assert WholeOrder(r.file, ids);
    hide AfterImport, Accepted, Fits, EvidenceFor;
    assert (set t | t in ids :: r.file[t]) == OrderIn(r.file, r.file[ids[0]].order);
  }

  lemma NewAgainstOld(s: Store, r: Import, a: string, i: nat)
    requires ValidFile(r.file) && i < |r.mapping| && Fits(s, r, i) && a in s && a != r.mapping[i].action
    ensures Ids(s[a].core.trades) !! Ids(EvidenceFor(r, i).value.trades)
  {
    ImportedIds(s, r, i);
    hide EvidenceFor, WholeOrder, Ids, ClaimedBefore;
  }

  lemma NewAgainstNew(s: Store, r: Import, i: nat, j: nat)
    requires ValidFile(r.file) && j < i < |r.mapping| && Fits(s, r, i) && Fits(s, r, j)
    ensures Ids(EvidenceFor(r, j).value.trades) !! Ids(EvidenceFor(r, i).value.trades)
  {
    ImportedIds(s, r, i);
    ImportedIds(s, r, j);
    assert !ClaimedBefore(r.mapping, i);
    hide EvidenceFor, WholeOrder, Ids, HeldByOthers, Fits;
  }

  /** A row of the written store is an old one, or the evidence of a mapped action. */
  ghost predicate WrittenBy(s: Store, t: Store, r: Import, a: string, i: nat)
    requires ValidFile(r.file) && a in t
  {
    i < |r.mapping| && r.mapping[i].action == a && a !in s
    && Fits(s, r, i) && EvidenceFor(r, i).Some? && t[a].core == EvidenceFor(r, i).value
  }

  lemma RowsAreDisjoint(s: Store, t: Store, r: Import, a: string, b: string)
    requires Unique(s) && ValidFile(r.file) && IsDictionary(r.mapping) && Keeps(s, t) && a in t && b in t && a != b
    requires forall c :: c in t ==> c in s || exists i :: WrittenBy(s, t, r, c, i)
    ensures Ids(t[a].core.trades) !! Ids(t[b].core.trades)
  {
    hide Fits, EvidenceFor, ValidFile, Ids;
    if a in s && b in s {
    } else if a in s {
      var j :| WrittenBy(s, t, r, b, j);
      NewAgainstOld(s, r, a, j);
    } else if b in s {
      var i :| WrittenBy(s, t, r, a, i);
      NewAgainstOld(s, r, b, i);
    } else {
      var i :| WrittenBy(s, t, r, a, i);
      var j :| WrittenBy(s, t, r, b, j);
      if i < j { NewAgainstNew(s, r, j, i); } else { NewAgainstNew(s, r, i, j); }
    }
  }

  lemma ImportKeepsUnique(s: Store, r: Import, stamp: Stamp)
    requires Unique(s) && ValidFile(r.file) && IsDictionary(r.mapping)
    ensures Unique(AfterImport(s, r, stamp)) && Keeps(s, AfterImport(s, r, stamp))
  {
    var n := |r.mapping|;
    if Accepted(s, r) && r.apply {
      AcceptedFits(s, r);
      hide Fits, EvidenceFor, ValidFile, Ids;
      WrittenFrom(s, r, stamp, n);
      WrittenRows(s, r, stamp, n);
      var t := Written(s, r, stamp, n);
      hide Written;
      forall c | c in t && c !in s ensures exists i :: WrittenBy(s, t, r, c, i) {
        var i :| 0 <= i < n && r.mapping[i].action == c;
        assert WrittenBy(s, t, r, c, i);
      }
      forall a, b | a in t && b in t && a != b ensures Ids(t[a].core.trades) !! Ids(t[b].core.trades) {
        RowsAreDisjoint(s, t, r, a, b);
      }
    }
  }

  // What a recovery writes.

  lemma CandidateIds(r: Recovery)
    requires ValidFile(r.file) && (forall t :: t in r.ids ==> t in r.file) && OpeningFor(r).Some?
    ensures Ids(Candidate(r, OPENING).trades) == set t | t in r.ids
    ensures Ids(Candidate(r, CLOSING).trades) == {}
  {
    GroupSet(r.file, r.ids);
    IdsOfTrades(r.file, r.ids);
  }

  lemma OneMoreRow(s: Store, a: string, row: Stored)
    requires Unique(s) && a !in s
    requires forall b :: b in s ==> Ids(s[b].core.trades) !! Ids(row.core.trades)
    ensures Unique(s[a := row]) && Keeps(s, s[a := row])
  {
    hide Ids;
  }

  lemma UnheldIsDisjoint(s: Store, action: string, ids: seq<string>, trades: set<Execution>)
    requires !HeldByOthers(s, action, ids) && action !in s && Ids(trades) == set t | t in ids
    ensures forall b :: b in s ==> Ids(s[b].core.trades) !! Ids(trades)
  {
    hide Ids;
  }

  lemma RecoveryKeepsUnique(s: Store, r: Recovery, stamp: Stamp)
    requires Unique(s) && ValidFile(r.file)
    ensures Unique(AfterRecovery(s, r, stamp)) && Keeps(s, AfterRecovery(s, r, stamp))
  {
    if Recoverable(s, r) && r.apply {
      WholeOrderIsKnown(r.file, r.ids);
      CandidateIds(r);
      hide Ids, WholeOrder, ValidFile, Candidate, Unique, HeldByOthers, OpeningFor;
      var entry, exit := Stored(Candidate(r, OPENING), stamp), Stored(Candidate(r, CLOSING), stamp);
      var t := if r.entry.id in s then s else s[r.entry.id := entry];
      if r.entry.id !in s {
        UnheldIsDisjoint(s, r.entry.id, r.ids, entry.core.trades);
        OneMoreRow(s, r.entry.id, entry);
      }
      if r.exit.id !in s { OneMoreRow(t, r.exit.id, exit); }
    }
  }

  lemma StepKeeps(s: Store, q: Request)
    requires Unique(s) && WellFormed(q)
    ensures Unique(Step(s, q)) && Keeps(s, Step(s, q))
  {
    hide Unique, Keeps;
    match q
    case Importing(r, stamp) => ImportKeepsUnique(s, r, stamp);
    case Recovering(r, stamp) => RecoveryKeepsUnique(s, r, stamp);
  }

  /** Over any sequence of imports and recoveries no execution belongs to two actions, and
      evidence once stored is never changed. */
  lemma {:induction false} EvidenceIsSafe(s: Store, requests: seq<Request>)
    requires Unique(s) && forall i :: 0 <= i < |requests| ==> WellFormed(requests[i])
    ensures Unique(After(s, requests)) && Keeps(s, After(s, requests))
  {
    hide Unique, WellFormed;
    if requests == [] {
    } else {
      var n := |requests| - 1;
      EvidenceIsSafe(s, requests[..n]);
      StepKeeps(After(s, requests[..n]), requests[n]);
    }
  }

  /** The same request, made again later. */
  function Repeated(q: Request, stamp: Stamp, later: int): Request {
    match q
    case Importing(r, _) => Importing(r.(now := later), stamp)
    case Recovering(r, _) => Recovering(r.(now := later), stamp)
  }

  function AskedAt(q: Request): int {
    match q
    case Importing(r, _) => r.now
    case Recovering(r, _) => r.now
  }

  /** A request that was accepted and applied is accepted again, whenever it is made and in every
      later store, and then adds nothing. */
  lemma RepeatAddsNothing(s: Store, q: Request, between: seq<Request>, stamp: Stamp, later: int)
    requires Unique(s) && WellFormed(q) && IsAccepted(s, q) && Applies(q) && AskedAt(q) <= later
    requires forall i :: 0 <= i < |between| ==> WellFormed(between[i])
    ensures var again, t := Repeated(q, stamp, later), After(Step(s, q), between);
            WellFormed(again) && IsAccepted(t, again) && Step(t, again) == t
  {
    StepKeeps(s, q);
    EvidenceIsSafe(Step(s, q), between);
    var t := After(Step(s, q), between);
    match q
    case Importing(r, first) =>
      SameImport(s, r, later);
      RepeatedImport(s, r, first, t, stamp);
      SameImport(t, r, later);
      SameWrites(t, r, stamp, later, |r.mapping|);
    case Recovering(r, first) =>
      RepeatedRecovery(s, r, first, t, stamp);
      SameRecovery(t, r, stamp, later);
  }

  lemma SameEvidence(r: Import, later: int, i: nat)
    requires ValidFile(r.file) && i < |r.mapping| && r.now <= later && EvidenceFor(r, i).Some?
    ensures EvidenceFor(r.(now := later), i) == EvidenceFor(r, i)
  {
    hide SavedFill, StatementEvidence;
    var a := r.actions[r.mapping[i].action];
    if SavedFill(a, r.account, r.now).Some? {
      SavedFillMeans(a, r.account, r.now);
    } else {
      NoEvidenceWithoutFill(Group(r.file, r.mapping[i].ids));
    }
  }

  lemma NoEvidenceWithoutFill(group: seq<Execution>)
    requires forall i :: 0 <= i < |group| ==> group[i].quantity > 0.0
    ensures StatementEvidence(None, group) == None
  {
  }

  lemma SameImport(s: Store, r: Import, later: int)
    requires ValidFile(r.file) && Accepted(s, r) && r.now <= later
    ensures Accepted(s, r.(now := later))
  {
    hide EvidenceFor, WholeOrder, HeldByOthers, ClaimedBefore;
    forall i | 0 <= i < |r.mapping| ensures Fits(s, r.(now := later), i) {
      assert Fits(s, r, i);
      SameEvidence(r, later, i);
      SameClaims(r, later, i);
    }
  }

  lemma SameClaims(r: Import, later: int, i: nat)
    requires i < |r.mapping|
    ensures ClaimedBefore(r.(now := later).mapping, i) == ClaimedBefore(r.mapping, i)
  {
  }

  lemma {:induction false} SameWrites(s: Store, r: Import, stamp: Stamp, later: int, n: nat)
    requires ValidFile(r.file) && n <= |r.mapping| && r.now <= later
    requires forall i :: 0 <= i < |r.mapping| ==> Fits(s, r, i)
    ensures forall i :: 0 <= i < n ==> EvidenceFor(r, i).Some? && EvidenceFor(r.(now := later), i) == EvidenceFor(r, i)
    ensures Written(s, r.(now := later), stamp, n) == Written(s, r, stamp, n)
  {
    hide EvidenceFor, ValidFile;
    if n > 0 {
      assert Fits(s, r, n - 1);
      hide Fits;
      SameEvidence(r, later, n - 1);
      SameWrites(s, r, stamp, later, n - 1);
    }
  }

  lemma SameRecovery(s: Store, r: Recovery, stamp: Stamp, later: int)
    requires ValidFile(r.file) && Recoverable(s, r) && r.now <= later
    ensures Recoverable(s, r.(now := later))
    ensures AfterRecovery(s, r.(now := later), stamp) == AfterRecovery(s, r, stamp)
  {
    hide ClosingOf, OpeningOf, HeldByOthers, WholeOrder;
    WholeOrderIsKnown(r.file, r.ids);
    ClosingIsStable(r.exit, r.callbacks, r.callbacks, r.account, r.now, later);
  }

  lemma NotHeldByOthers(t: Store, action: string, ids: seq<string>)
    requires Unique(t) && action in t && Ids(t[action].core.trades) == set x | x in ids
    ensures !HeldByOthers(t, action, ids)
  {
    hide Ids;
  }

  lemma {:induction false} NothingWritten(t: Store, r: Import, stamp: Stamp, n: nat)
    requires ValidFile(r.file) && n <= |r.mapping|
    requires forall i :: 0 <= i < n ==> EvidenceFor(r, i).Some? && r.mapping[i].action in t
    ensures Written(t, r, stamp, n) == t
  {
    hide EvidenceFor, ValidFile;
    if n > 0 { NothingWritten(t, r, stamp, n - 1); }
  }

  lemma RepeatedImport(s: Store, r: Import, first: Stamp, t: Store, stamp: Stamp)
    requires ValidFile(r.file) && IsDictionary(r.mapping) && Accepted(s, r) && r.apply
    requires Unique(t) && Keeps(AfterImport(s, r, first), t)
    ensures Accepted(t, r) && AfterImport(t, r, stamp) == t
  {
    var n := |r.mapping|;
    forall i | 0 <= i < n ensures Fits(t, r, i) && EvidenceFor(r, i).Some? && r.mapping[i].action in t {
      ImportHolds(s, r, first, i);
      ImportedIds(s, r, i);
      hide AfterImport, Accepted, HeldByOthers, ClaimedBefore, WholeOrder, EvidenceFor, Ids, Unique, ValidFile;
      var action := r.mapping[i].action;
      assert action in t && t[action].core == EvidenceFor(r, i).value;
      NotHeldByOthers(t, action, r.mapping[i].ids);
    }
    hide Fits, EvidenceFor, ValidFile;
    NothingWritten(t, r, stamp, n);
  }

  lemma RepeatedRecovery(s: Store, r: Recovery, first: Stamp, t: Store, stamp: Stamp)
    requires ValidFile(r.file) && Recoverable(s, r) && r.apply
    requires Unique(t) && Keeps(AfterRecovery(s, r, first), t)
    ensures Recoverable(t, r) && AfterRecovery(t, r, stamp) == t
  {
    WholeOrderIsKnown(r.file, r.ids);
    CandidateIds(r);
    hide Ids, WholeOrder, ValidFile, Candidate, HeldByOthers;
    var u := AfterRecovery(s, r, first);
    assert u[r.entry.id].core == Candidate(r, OPENING) && u[r.exit.id].core == Candidate(r, CLOSING);
    NotHeldByOthers(t, r.entry.id, r.ids);
  }
}
