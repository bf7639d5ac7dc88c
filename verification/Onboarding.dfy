/** The onboarding queue: eight states, three attempts, single-use logins and leases, and a
    verification that releases its row lock while it waits for the network.  Handlers are
    atomic database transactions; time, tokens, profile reads and broker answers are inputs. */
module Onboarding {

  import opened Wrappers

  datatype Status = REQUESTED | APPROVED | QUEUED | PROVISIONING | LOGIN_REQUIRED | FAILED | REJECTED | CONNECTED

  /** A login submission, a lease and a profile are identified by their serial numbers. */
  datatype Job = Job(account: string, status: Status, approved: bool, profile: Option<nat>, credentials: Option<nat>,
                     bridgeToken: bool, leaseHash: Option<nat>, leaseUntil: Option<int>, attempts: nat, error: string)

  const LEASE := 600

  const NODE_ERRORS := {"NODE_CAPACITY", "NODE_START_FAILED", "NODE_POLICY_INVALID", "LEASE_EXPIRED"}

  // ---------------------------------------------------------- transitions

  function Requested(account: string): Job {
    Job(account, REQUESTED, false, None, None, false, None, None, 0, "")
  }

  function Amended(j: Job, account: string, sameOwner: bool, registered: bool): Result<Job, int> {
    if j.status !in {REQUESTED, REJECTED} || j.attempts != 0 || !sameOwner || registered then Error(409)
    else Ok(j.(account := account, status := REQUESTED, approved := false, error := ""))
  }

  function Approved(j: Job, ownerActive: bool, registered: bool, competing: bool): Result<Job, int> {
    if j.status !in {REQUESTED, FAILED, REJECTED} || !ownerActive || registered || competing then Error(409)
    else Ok(j.(status := APPROVED, approved := true, error := "", attempts := 0, credentials := None,
               leaseHash := None, leaseUntil := None))
  }

  function Rejected(j: Job): Result<Job, int> {
    if j.status !in {REQUESTED, APPROVED, FAILED} then Error(409)
    else Ok(j.(status := REJECTED, credentials := None))
  }

  function LoggedIn(j: Job, owner: bool, wellFormed: bool, login: nat): Result<Job, int> {
    if !owner then Error(403)
    else if j.status !in {APPROVED, FAILED, LOGIN_REQUIRED} || !j.approved || j.attempts >= 3 then Error(409)
    else if !wellFormed then Error(400)
    else Ok(j.(credentials := Some(login), bridgeToken := true, status := QUEUED, error := "",
               leaseHash := None, leaseUntil := None))
  }

  predicate Stale(j: Job, now: int) {
    j.status == PROVISIONING && j.leaseUntil.Some? && j.leaseUntil.value < now
  }

  function Swept(j: Job, now: int): Job {
    if Stale(j, now) then j.(status := FAILED, error := "LEASE_EXPIRED", credentials := None, leaseHash := None) else j
  }

  /** A queued job is refused or leased. */
  function Claimed(j: Job, registered: bool, ownerActive: bool, now: int, lease: nat): Job {
    if registered then j.(status := FAILED, error := "ACCOUNT_ALREADY_ASSIGNED", credentials := None)
    else if !ownerActive then j.(status := FAILED, error := "OWNER_DISABLED", credentials := None)
    else j.(leaseHash := Some(lease), status := PROVISIONING, leaseUntil := Some(now + LEASE),
            attempts := j.attempts + 1)
  }

  function Acknowledged(j: Job, lease: nat, started: bool, failure: string, now: int): Result<Job, int> {
    if j.status != PROVISIONING || j.leaseHash != Some(lease) || j.leaseUntil == None || j.leaseUntil.value < now
    then Error(409)
    else Ok(j.(status := if started then LOGIN_REQUIRED else FAILED,
               error := if started then "" else if failure in NODE_ERRORS then failure else "NODE_START_FAILED",
               credentials := None, leaseHash := None, leaseUntil := None))
  }

  datatype BrokerAnswer = Verified | Mismatch | Pending

  /** The second half of a verification, under a fresh lock. */
  function Concluded(j: Job, answer: BrokerAnswer, assignable: bool, ownerActive: bool, profile: nat)
    : Result<Job, int>
  {
    if answer != Verified then
      Ok(if j.status != LOGIN_REQUIRED then j
         else j.(error := if answer == Mismatch then "ACCOUNT_OR_ENVIRONMENT_MISMATCH" else "BROKER_LOGIN_PENDING"))
    else if j.status == CONNECTED then Ok(j)
    else if j.status != LOGIN_REQUIRED || !assignable || !ownerActive then Error(409)
    else Ok(j.(profile := Some(profile), status := CONNECTED, error := "", bridgeToken := false))
  }

  // ---------------------------------------------- the handlers, row by row

  function Code(r: Result<Job, int>): int {
    if r.Ok? then 200 else r.error
  }

  function Outcome(r: Result<Job, int>, before: Job): Job {
    if r.Ok? then r.value else before
  }

  /** One row of the queue; every handler locks it, decides, assigns fields and commits. */
  class JobRow {

    var account: string

    var status: Status

    var approved: bool

    var profile: Option<nat>

    var credentials: Option<nat>

    var bridgeToken: bool

    var leaseHash: Option<nat>

    var leaseUntil: Option<int>

    var attempts: nat

    var error: string

    ghost function View(): Job
      reads this
    {
      Job(account, status, approved, profile, credentials, bridgeToken, leaseHash, leaseUntil, attempts, error)
    }

    constructor (account: string)
      ensures View() == Requested(account)
    {
      this.account, status, approved, attempts, error := account, REQUESTED, false, 0, "";
      profile, credentials, bridgeToken, leaseHash, leaseUntil := None, None, false, None, None;
    }

    method Amend(newAccount: string, sameOwner: bool, registered: bool) returns (code: int)
      modifies this
      ensures code == Code(Amended(old(View()), newAccount, sameOwner, registered))
      ensures View() == Outcome(Amended(old(View()), newAccount, sameOwner, registered), old(View()))
    {
      if (status != REQUESTED && status != REJECTED) || attempts != 0 { return 409; }
      if !sameOwner { return 409; }
      if registered { return 409; }
      account, status := newAccount, REQUESTED;
      approved, error := false, "";
      code := 200;
    }

    method Approve(ownerActive: bool, registered: bool, competing: bool) returns (code: int)
      modifies this
      ensures code == Code(Approved(old(View()), ownerActive, registered, competing))
      ensures View() == Outcome(Approved(old(View()), ownerActive, registered, competing), old(View()))
    {
      if status != REQUESTED && status != FAILED && status != REJECTED { return 409; }
      if !ownerActive { return 409; }
      if registered { return 409; }
      if competing { return 409; }
      status, approved, error, attempts := APPROVED, true, "", 0;
      credentials, leaseHash, leaseUntil := None, None, None;
      code := 200;
    }

    method Reject() returns (code: int)
      modifies this
      ensures code == Code(Rejected(old(View())))
      ensures View() == Outcome(Rejected(old(View())), old(View()))
    {
      if status != REQUESTED && status != APPROVED && status != FAILED { return 409; }
      status, credentials := REJECTED, None;
      code := 200;
    }

    method SubmitLogin(owner: bool, wellFormed: bool, login: nat) returns (code: int)
      modifies this
      ensures code == Code(LoggedIn(old(View()), owner, wellFormed, login))
      ensures View() == Outcome(LoggedIn(old(View()), owner, wellFormed, login), old(View()))
    {
      if !owner { return 403; }
      if (status != APPROVED && status != FAILED && status != LOGIN_REQUIRED) || !approved { return 409; }
      if attempts >= 3 { return 409; }
      if !wellFormed { return 400; }
      credentials := Some(login);
      if !bridgeToken { bridgeToken := true; }
      status, error, leaseHash, leaseUntil := QUEUED, "", None, None;
      code := 200;
    }

    method Sweep(now: int)
      modifies this
      ensures View() == Swept(old(View()), now)
    {
      if status == PROVISIONING && leaseUntil.Some? && leaseUntil.value < now {
        status, error, credentials, leaseHash := FAILED, "LEASE_EXPIRED", None, None;
      }
    }

    /** Hands out the login and the lease, or fails the job. */
    method Claim(registered: bool, ownerActive: bool, now: int, lease: nat) returns (login: Option<nat>)
      requires status == QUEUED
      modifies this
      ensures View() == Claimed(old(View()), registered, ownerActive, now, lease)
      ensures login == if status == PROVISIONING then old(credentials) else None
    {
      if registered {
        status, error, credentials := FAILED, "ACCOUNT_ALREADY_ASSIGNED", None;
        return None;
      }
      if !ownerActive {
        status, error, credentials := FAILED, "OWNER_DISABLED", None;
        return None;
      }
      leaseHash := Some(lease);
      status, leaseUntil := PROVISIONING, Some(now + LEASE);
      attempts := attempts + 1;
      login := credentials;
    }

    method Acknowledge(lease: nat, started: bool, failure: string, now: int) returns (code: int)
      modifies this
      ensures code == Code(Acknowledged(old(View()), lease, started, failure, now))
      ensures View() == Outcome(Acknowledged(old(View()), lease, started, failure, now), old(View()))
    {
      if status != PROVISIONING || leaseHash == None || leaseHash.value != lease
         || leaseUntil == None || leaseUntil.value < now { return 409; }
      status := if started then LOGIN_REQUIRED else FAILED;
      error := if started then "" else if failure in NODE_ERRORS then failure else "NODE_START_FAILED";
      credentials, leaseHash, leaseUntil := None, None, None;
      code := 200;
    }

    /** The second half of a verification. */
    method Conclude(answer: BrokerAnswer, assignable: bool, ownerActive: bool, newProfile: nat) returns (code: int)
      modifies this
      ensures code == Code(Concluded(old(View()), answer, assignable, ownerActive, newProfile))
      ensures View() == Outcome(Concluded(old(View()), answer, assignable, ownerActive, newProfile), old(View()))
    {
      if answer != Verified {
        if status == LOGIN_REQUIRED {
          error := if answer == Mismatch then "ACCOUNT_OR_ENVIRONMENT_MISMATCH" else "BROKER_LOGIN_PENDING";
        }
        return 200;
      }
      if status == CONNECTED { return 200; }
      if status != LOGIN_REQUIRED { return 409; }
      if !assignable || !ownerActive { return 409; }
      profile, status, error := Some(newProfile), CONNECTED, "";
      bridgeToken := false;
      code := 200;
    }
  }

  // ------------------------------------------------------------- the queue

  /** What a worker was handed, and what the queue did: history, never read by a handler. */
  datatype Handed = Handed(job: nat, login: nat, lease: nat, until: int)

  datatype Acked = Acked(job: nat, lease: nat, at: int)

  datatype Created = Created(job: nat, profile: nat, account: string, verifiedAccount: string)

  /** A verification that waits for the network, with the account it will prove. */
  datatype Verifying = Verifying(job: nat, account: string)

  datatype Queue = Queue(jobs: map<nat, Job>, verifying: set<Verifying>, serial: nat,
                         handed: seq<Handed>, acked: seq<Acked>, created: seq<Created>)

  const EMPTY := Queue(map[], {}, 0, [], [], [])

  datatype Event =
    | Request(key: nat, account: string, registered: bool)
    | Amend(key: nat, account: string, sameOwner: bool, registered: bool)
    | Approve(key: nat, ownerActive: bool, registered: bool, competing: bool)
    | Reject(key: nat)
    | Credentials(key: nat, owner: bool, wellFormed: bool)
    | Claim(now: int, unlocked: set<nat>, oldest: Option<nat>, registered: bool, ownerActive: bool)
    | Acknowledge(key: nat, lease: nat, started: bool, failure: string, now: int)
    | VerifyBegin(key: nat, ownerActive: bool)
    | VerifyEnd(call: Verifying, answer: BrokerAnswer, assignable: bool, ownerActive: bool)
    | ProfileRemoved(key: nat)
    | ApproverRemoved(key: nat)

  function Put(q: Queue, key: nat, r: Result<Job, int>): Queue {
    if r.Ok? then q.(jobs := q.jobs[key := r.value]) else q
  }

  /** Expired leases whose rows are not locked elsewhere are failed first. */
  function Sweep(q: Queue, now: int, unlocked: set<nat>): Queue {
    q.(jobs := map k | k in q.jobs :: if k in unlocked then Swept(q.jobs[k], now) else q.jobs[k])
  }

  /** Handing out a job decrypts its login and its bridge token: both must be stored. */
  function DoClaim(q: Queue, now: int, key: nat, registered: bool, ownerActive: bool): Queue
    requires key in q.jobs && q.jobs[key].status == QUEUED
    requires q.jobs[key].credentials.Some? && q.jobs[key].bridgeToken
  {
    var j := q.jobs[key];
    var c := Claimed(j, registered, ownerActive, now, q.serial);
    var q1 := q.(jobs := q.jobs[key := c]);
    if c.status != PROVISIONING then q1
    else q1.(serial := q.serial + 1, handed := q.handed + [Handed(key, j.credentials.value, q.serial, now + LEASE)])
  }

  /** A verification decrypts the bridge token before it releases the row. */
  function DoVerify(q: Queue, key: nat): Queue
    requires key in q.jobs && q.jobs[key].bridgeToken
  {
    q.(verifying := q.verifying + {Verifying(key, q.jobs[key].account)})
  }

  predicate Claimable(q: Queue, key: Option<nat>) {
    key.Some? && key.value in q.jobs && q.jobs[key.value].status == QUEUED
  }

  function Next(q: Queue, e: Event): Queue
    requires Sound(q)
  {
    match e
    case Request(k, account, registered) =>
      if registered || k in q.jobs then q else q.(jobs := q.jobs[k := Requested(account)])
    case Amend(k, account, same, registered) =>
      if k in q.jobs then Put(q, k, Amended(q.jobs[k], account, same, registered)) else q
    case Approve(k, active, registered, competing) =>
      if k in q.jobs then Put(q, k, Approved(q.jobs[k], active, registered, competing)) else q
    case Reject(k) => if k in q.jobs then Put(q, k, Rejected(q.jobs[k])) else q
    case Credentials(k, owner, wellFormed) =>
      if k !in q.jobs then q
      else
        var r := LoggedIn(q.jobs[k], owner, wellFormed, q.serial);
        if r.Ok? then Put(q, k, r).(serial := q.serial + 1) else q
    case Claim(now, unlocked, key, registered, active) =>
      var q1 := Sweep(q, now, unlocked);
      if Claimable(q1, key) then DoClaim(q1, now, key.value, registered, active) else q1
    case Acknowledge(k, lease, started, failure, now) =>
      if k !in q.jobs then q
      else
        var r := Acknowledged(q.jobs[k], lease, started, failure, now);
        if r.Ok? then Put(q, k, r).(acked := q.acked + [Acked(k, lease, now)]) else q
    case VerifyBegin(k, active) =>
      if k !in q.jobs || q.jobs[k].status != LOGIN_REQUIRED || !active then q else DoVerify(q, k)
    case VerifyEnd(call, answer, assignable, active) =>
      if call !in q.verifying || call.job !in q.jobs then q
      else
        var r := Concluded(q.jobs[call.job], answer, assignable, active, q.serial);
        var q1 := Put(q, call.job, r);
        if r.Ok? && r.value.status == CONNECTED && q.jobs[call.job].status != CONNECTED
        then q1.(serial := q.serial + 1, created := q.created + [Created(call.job, q.serial,
            q.jobs[call.job].account, call.account)])
        else q1
    case ProfileRemoved(k) => if k in q.jobs then q.(jobs := q.jobs[k := q.jobs[k].(profile := None)]) else q
    case ApproverRemoved(k) => if k in q.jobs then q.(jobs := q.jobs[k := q.jobs[k].(approved := false)]) else q
  }

  // ------------------------------------------------------------- invariant

  /** What holds of every stored job. */
  predicate SoundJob(j: Job) {
    && (j.credentials.Some? <==> j.status in {QUEUED, PROVISIONING})
    && (j.leaseHash.Some? <==> j.status == PROVISIONING)
    && (j.status == PROVISIONING ==> j.leaseUntil.Some?)
    && j.attempts <= 3 && (j.status == QUEUED ==> j.attempts <= 2)
    && (j.status in {QUEUED, PROVISIONING, LOGIN_REQUIRED} ==> j.bridgeToken)
    && (j.status in {PROVISIONING, LOGIN_REQUIRED} ==> j.attempts >= 1)
    && (j.profile.Some? ==> j.status == CONNECTED)
  }

  predicate Sound(q: Queue) {
    forall k :: k in q.jobs ==> SoundJob(q.jobs[k])
  }

  lemma TransitionsAreSound(j: Job)
    requires SoundJob(j)
    ensures forall a, o, r :: Amended(j, a, o, r).Ok? ==> SoundJob(Amended(j, a, o, r).value)
    ensures forall o, r, c :: Approved(j, o, r, c).Ok? ==> SoundJob(Approved(j, o, r, c).value)
    ensures Rejected(j).Ok? ==> SoundJob(Rejected(j).value)
    ensures forall o, w, n :: LoggedIn(j, o, w, n).Ok? ==> SoundJob(LoggedIn(j, o, w, n).value)
    ensures forall t :: SoundJob(Swept(j, t))
    ensures forall r, o, t, n :: j.status == QUEUED ==> SoundJob(Claimed(j, r, o, t, n))
    ensures forall n, s, f, t :: Acknowledged(j, n, s, f, t).Ok? ==> SoundJob(Acknowledged(j, n, s, f, t).value)
    ensures forall b, a, o, n :: Concluded(j, b, a, o, n).Ok? ==> SoundJob(Concluded(j, b, a, o, n).value)
  {
  }

  lemma SweepIsSound(q: Queue, now: int, unlocked: set<nat>)
    requires Sound(q)
    ensures Sound(Sweep(q, now, unlocked))
  {
    forall k | k in q.jobs { TransitionsAreSound(q.jobs[k]); }
    hide Swept, SoundJob;
  }

  lemma ClaimIsSound(q: Queue, e: Event)
    requires Sound(q) && e.Claim?
    ensures Sound(Sweep(q, e.now, e.unlocked)) && Sound(Next(q, e))
  {
    SweepIsSound(q, e.now, e.unlocked);
    var q1 := Sweep(q, e.now, e.unlocked);
    hide Sweep, Claimed;
    if Claimable(q1, e.oldest) {
      var x := e.oldest.value;
      TransitionsAreSound(q1.jobs[x]);
      assert SoundJob(q1.jobs[x]);
    }
  }

  lemma NextIsSound(q: Queue, e: Event)
    requires Sound(q)
    ensures Sound(Next(q, e))
  {
    hide Amended, Approved, Rejected, LoggedIn, Swept, Acknowledged, Concluded;
    if e.Claim? {
      ClaimIsSound(q, e);
    } else {
      forall k | k in q.jobs { TransitionsAreSound(q.jobs[k]); }
      hide SoundJob;
    }
  }

  ghost function After(events: seq<Event>): (q: Queue)
    ensures Sound(q)
  {
    if events == [] then EMPTY
    else
      var q := After(events[..|events| - 1]);
      NextIsSound(q, events[|events| - 1]);
      Next(q, events[|events| - 1])
  }

  /** In every reachable queue a claim finds the login and the bridge token it decrypts, after
      the sweep of expired leases too, and a verification finds the token. */
  lemma SecretsAreStored(events: seq<Event>, now: int, unlocked: set<nat>, key: nat)
    requires key in After(events).jobs
    ensures var q, swept := After(events), Sweep(After(events), now, unlocked);
            && (Claimable(swept, Some(key)) ==> swept.jobs[key].credentials.Some? && swept.jobs[key].bridgeToken)
            && (q.jobs[key].status == LOGIN_REQUIRED ==> q.jobs[key].bridgeToken)
  {
    hide After;
    TransitionsAreSound(After(events).jobs[key]);
  }

  // ----------------------------------------------------------- single use

  ghost predicate WasHanded(q: Queue, login: nat) {
    exists i :: 0 <= i < |q.handed| && q.handed[i].login == login
  }

  ghost predicate WasAcked(q: Queue, lease: nat) {
    exists i :: 0 <= i < |q.acked| && q.acked[i].lease == lease
  }

  ghost predicate LeasedTo(q: Queue, job: nat, lease: nat, until: int) {
    exists i :: 0 <= i < |q.handed| && q.handed[i].job == job && q.handed[i].lease == lease
      && q.handed[i].until == until
  }

  predicate Leased(j: Job) {
    j.status == PROVISIONING && j.leaseHash.Some? && j.leaseUntil.Some?
  }

  ghost predicate InTime(q: Queue, a: Acked) {
    exists until :: LeasedTo(q, a.job, a.lease, until) && a.at <= until
  }

  /** Serial numbers in use are in the past and belong to one job each. */
  ghost predicate SerialsInv(q: Queue) {
    && (forall k :: k in q.jobs && q.jobs[k].credentials.Some? ==> q.jobs[k].credentials.value < q.serial)
    && (forall k :: k in q.jobs && q.jobs[k].leaseHash.Some? ==> q.jobs[k].leaseHash.value < q.serial)
    && (forall k, l :: k in q.jobs && l in q.jobs && k != l && q.jobs[k].credentials.Some? ==>
        q.jobs[k].credentials != q.jobs[l].credentials)
    && (forall k, l :: k in q.jobs && l in q.jobs && k != l && q.jobs[k].leaseHash.Some? ==>
        q.jobs[k].leaseHash != q.jobs[l].leaseHash)
    && (forall i :: 0 <= i < |q.handed| ==> q.handed[i].login < q.serial && q.handed[i].lease < q.serial)
    && (forall i :: 0 <= i < |q.acked| ==> q.acked[i].lease < q.serial)
  }

  /** A submitted login is handed out at most once, and a queued one not yet. */
  ghost predicate LoginsInv(q: Queue) {
    && (forall i, j :: 0 <= i < j < |q.handed| ==> q.handed[i].login != q.handed[j].login)
    && (forall k :: k in q.jobs && q.jobs[k].status == QUEUED && q.jobs[k].credentials.Some? ==>
        !WasHanded(q, q.jobs[k].credentials.value))
  }

  /** A lease is acknowledged at most once, by the job it was handed to, and not after it
      expires; the lease of a provisioning job has not been acknowledged. */
  ghost predicate LeasesInv(q: Queue) {
    && (forall i, j :: 0 <= i < j < |q.acked| ==> q.acked[i].lease != q.acked[j].lease)
    && (forall i :: 0 <= i < |q.acked| ==> InTime(q, q.acked[i]))
    && (forall k :: k in q.jobs && Leased(q.jobs[k]) ==>
        && !WasAcked(q, q.jobs[k].leaseHash.value)
        && LeasedTo(q, k, q.jobs[k].leaseHash.value, q.jobs[k].leaseUntil.value))
  }

  /** A job creates at most one profile; from then on it stays connected, to that profile or,
      once the profile is removed, to none. */
  ghost predicate ProfilesInv(q: Queue) {
    && (forall i, j :: 0 <= i < j < |q.created| ==> q.created[i].job != q.created[j].job)
    && (forall i :: 0 <= i < |q.created| ==>
        q.created[i].job in q.jobs && q.jobs[q.created[i].job].status == CONNECTED
        && q.jobs[q.created[i].job].profile in {Some(q.created[i].profile), None})
  }

  ghost predicate UseInv(q: Queue) {
    SerialsInv(q) && LoginsInv(q) && LeasesInv(q)
  }

  /** A job that holds neither login nor lease, or holds what it held. */
  ghost predicate Calm(q: Queue, k: nat, j: Job) {
    || (j.credentials == None && j.leaseHash == None && j.status !in {QUEUED, PROVISIONING})
    || (k in q.jobs && j.credentials == q.jobs[k].credentials && j.leaseHash == q.jobs[k].leaseHash
        && j.leaseUntil == q.jobs[k].leaseUntil && j.status == q.jobs[k].status)
  }

  /** The history is untouched. */
  ghost predicate SameHistory(q: Queue, t: Queue) {
    && t.handed == q.handed && t.acked == q.acked && t.serial >= q.serial
  }

  lemma HistoryAgrees(q: Queue, t: Queue)
    requires t.handed == q.handed && t.acked == q.acked
    ensures forall n :: WasHanded(t, n) == WasHanded(q, n)
    ensures forall n :: WasAcked(t, n) == WasAcked(q, n)
    ensures forall k, n, u :: LeasedTo(t, k, n, u) == LeasedTo(q, k, n, u)
    ensures forall a :: InTime(q, a) ==> InTime(t, a)
  {
    assert forall k, n, u :: LeasedTo(t, k, n, u) == LeasedTo(q, k, n, u);
  }

  lemma CalmKeepsSerials(q: Queue, t: Queue)
    requires SerialsInv(q) && SameHistory(q, t) && forall k :: k in t.jobs ==> Calm(q, k, t.jobs[k])
    ensures SerialsInv(t)
  {
  }

  lemma CalmKeepsLogins(q: Queue, t: Queue)
    requires LoginsInv(q) && SameHistory(q, t) && forall k :: k in t.jobs ==> Calm(q, k, t.jobs[k])
    ensures LoginsInv(t)
  {
    HistoryAgrees(q, t);
    hide WasHanded, WasAcked, LeasedTo, InTime;
  }

  lemma CalmKeepsLeases(q: Queue, t: Queue)
    requires LeasesInv(q) && SameHistory(q, t) && forall k :: k in t.jobs ==> Calm(q, k, t.jobs[k])
    ensures LeasesInv(t)
  {
    HistoryAgrees(q, t);
    hide WasHanded, WasAcked, LeasedTo, InTime;
  }

  lemma CalmKeepsUse(q: Queue, t: Queue)
    requires UseInv(q) && SameHistory(q, t) && forall k :: k in t.jobs ==> Calm(q, k, t.jobs[k])
    ensures UseInv(t)
  {
    hide SerialsInv, LoginsInv, LeasesInv, Calm, SameHistory;
    CalmKeepsSerials(q, t);
    CalmKeepsLogins(q, t);
    CalmKeepsLeases(q, t);
  }

  ghost predicate LoginMove(q: Queue, t: Queue, x: nat) {
    && t.handed == q.handed && t.acked == q.acked && t.serial == q.serial + 1
    && x in t.jobs && t.jobs[x].credentials == Some(q.serial) && t.jobs[x].leaseHash == None
    && t.jobs[x].status == QUEUED
    && forall k :: k in t.jobs && k != x ==> Calm(q, k, t.jobs[k])
  }

  lemma LoginKeepsSerials(q: Queue, t: Queue, x: nat)
    requires SerialsInv(q) && LoginMove(q, t, x)
    ensures SerialsInv(t)
  {
  }

  lemma LoginKeepsLogins(q: Queue, t: Queue, x: nat)
    requires SerialsInv(q) && LoginsInv(q) && LoginMove(q, t, x)
    ensures LoginsInv(t)
  {
    assert forall n :: WasHanded(t, n) == WasHanded(q, n);
    assert forall n: nat :: WasHanded(q, n) ==> n < q.serial;
    hide WasHanded, SerialsInv;
  }

  lemma LoginKeepsLeases(q: Queue, t: Queue, x: nat)
    requires LeasesInv(q) && LoginMove(q, t, x)
    ensures LeasesInv(t)
  {
    HistoryAgrees(q, t);
    hide WasHanded, WasAcked, LeasedTo, InTime;
  }

  lemma LoginKeepsUse(q: Queue, t: Queue, x: nat)
    requires UseInv(q) && LoginMove(q, t, x)
    ensures UseInv(t)
  {
    hide SerialsInv, LoginsInv, LeasesInv, LoginMove;
    LoginKeepsSerials(q, t, x);
    LoginKeepsLogins(q, t, x);
    LoginKeepsLeases(q, t, x);
  }

  lemma HandedAppend(q: Queue, t: Queue, h: Handed)
    requires t.handed == q.handed + [h]
    ensures forall m: nat :: WasHanded(t, m) <==> WasHanded(q, m) || m == h.login
    ensures forall k, m, u :: LeasedTo(q, k, m, u) ==> LeasedTo(t, k, m, u)
    ensures LeasedTo(t, h.job, h.lease, h.until)
    ensures forall a :: InTime(q, a) ==> InTime(t, a)
  {
    var n := |q.handed|;
    assert t.handed[n] == h;
    forall m: nat | WasHanded(q, m) ensures WasHanded(t, m) {
      var i :| 0 <= i < n && q.handed[i].login == m;
      assert t.handed[i] == q.handed[i];
    }
    forall k, m, u | LeasedTo(q, k, m, u) ensures LeasedTo(t, k, m, u) {
      var i :| 0 <= i < n && q.handed[i].job == k && q.handed[i].lease == m && q.handed[i].until == u;
      assert t.handed[i] == q.handed[i];
    }
    forall a | InTime(q, a) ensures InTime(t, a) {
      var u :| LeasedTo(q, a.job, a.lease, u) && a.at <= u;
      assert LeasedTo(t, a.job, a.lease, u);
    }
  }

  lemma AckedAppend(q: Queue, t: Queue, a: Acked)
    requires t.acked == q.acked + [a]
    ensures forall m: nat :: WasAcked(t, m) ==> WasAcked(q, m) || m == a.lease
  {
    forall m: nat | WasAcked(t, m) && m != a.lease ensures WasAcked(q, m) {
      var i :| 0 <= i < |t.acked| && t.acked[i].lease == m;
      assert q.acked[i] == t.acked[i];
    }
  }

  ghost predicate LeaseMove(q: Queue, t: Queue, x: nat, login: nat, until: int) {
    && t.acked == q.acked && t.serial == q.serial + 1
    && t.handed == q.handed + [Handed(x, login, q.serial, until)]
    && x in q.jobs && q.jobs[x].status == QUEUED && q.jobs[x].credentials == Some(login)
    && x in t.jobs && t.jobs[x] == q.jobs[x].(status := PROVISIONING, leaseHash := Some(q.serial),
                                              leaseUntil := Some(until), attempts := q.jobs[x].attempts + 1)
    && forall k :: k in t.jobs && k != x ==> Calm(q, k, t.jobs[k])
  }

  lemma LeaseKeepsSerials(q: Queue, t: Queue, x: nat, login: nat, until: int)
    requires SerialsInv(q) && LeaseMove(q, t, x, login, until)
    ensures SerialsInv(t)
  {
    assert forall k :: k in t.jobs ==> k == x || Calm(q, k, t.jobs[k]);
    assert forall k :: k in t.jobs && t.jobs[k].credentials.Some? ==>
      k in q.jobs && t.jobs[k].credentials == q.jobs[k].credentials;
    assert forall k :: k in t.jobs && k != x && t.jobs[k].leaseHash.Some? ==>
      k in q.jobs && t.jobs[k].leaseHash == q.jobs[k].leaseHash;
    hide Calm;
  }

  lemma LeaseKeepsLogins(q: Queue, t: Queue, x: nat, login: nat, until: int)
    requires SerialsInv(q) && LoginsInv(q) && LeaseMove(q, t, x, login, until)
    ensures LoginsInv(t)
  {
    HandedAppend(q, t, Handed(x, login, q.serial, until));
    assert !WasHanded(q, login);
    forall i | 0 <= i < |q.handed| ensures q.handed[i].login != login { }
    hide WasHanded, LeasedTo, InTime;
  }

  lemma LeaseKeepsLeases(q: Queue, t: Queue, x: nat, login: nat, until: int)
    requires SerialsInv(q) && LeasesInv(q) && LeaseMove(q, t, x, login, until)
    ensures LeasesInv(t)
  {
    HandedAppend(q, t, Handed(x, login, q.serial, until));
    assert forall m: nat :: WasAcked(t, m) == WasAcked(q, m);
    assert forall m: nat :: WasAcked(q, m) ==> m < q.serial;
    hide WasHanded, WasAcked, LeasedTo, InTime, SerialsInv;
  }

  ghost predicate AckMove(q: Queue, t: Queue, x: nat, lease: nat, now: int) {
    && t.handed == q.handed && t.acked == q.acked + [Acked(x, lease, now)] && t.serial == q.serial
    && x in q.jobs && Leased(q.jobs[x]) && q.jobs[x].leaseHash == Some(lease) && now <= q.jobs[x].leaseUntil.value
    && forall k :: k in t.jobs ==>
      Calm(q, k, t.jobs[k]) && (k == x ==> t.jobs[k].leaseHash == None)
  }

  lemma AckKeepsSerials(q: Queue, t: Queue, x: nat, lease: nat, now: int)
    requires SerialsInv(q) && AckMove(q, t, x, lease, now)
    ensures SerialsInv(t)
  {
  }

  lemma AckKeepsLogins(q: Queue, t: Queue, x: nat, lease: nat, now: int)
    requires LoginsInv(q) && AckMove(q, t, x, lease, now)
    ensures LoginsInv(t)
  {
    assert forall m: nat :: WasHanded(t, m) == WasHanded(q, m);
    hide WasHanded;
  }

  lemma AckIsFresh(q: Queue, t: Queue, x: nat, lease: nat, now: int)
    requires LeasesInv(q) && AckMove(q, t, x, lease, now)
    ensures forall i :: 0 <= i < |q.acked| ==> q.acked[i].lease != lease
    ensures forall i :: 0 <= i < |t.acked| ==> InTime(t, t.acked[i])
    ensures forall k, m, u :: LeasedTo(t, k, m, u) == LeasedTo(q, k, m, u)
  {
    assert !WasAcked(q, lease);
    assert forall k, m, u :: LeasedTo(t, k, m, u) == LeasedTo(q, k, m, u);
    assert LeasedTo(q, x, lease, q.jobs[x].leaseUntil.value);
    hide LeasedTo, Calm;
    forall i | 0 <= i < |t.acked| ensures InTime(t, t.acked[i]) {
      if i < |q.acked| {
        assert InTime(q, q.acked[i]);
      } else {
        assert LeasedTo(t, x, lease, q.jobs[x].leaseUntil.value);
      }
    }
  }

  lemma AckKeepsLeases(q: Queue, t: Queue, x: nat, lease: nat, now: int)
    requires SerialsInv(q) && LeasesInv(q) && AckMove(q, t, x, lease, now)
    ensures LeasesInv(t)
  {
    AckIsFresh(q, t, x, lease, now);
    AckedAppend(q, t, Acked(x, lease, now));
    hide WasAcked, LeasedTo, InTime;
  }

  lemma AckKeepsUse(q: Queue, t: Queue, x: nat, lease: nat, now: int)
    requires UseInv(q) && AckMove(q, t, x, lease, now)
    ensures UseInv(t)
  {
    hide SerialsInv, LoginsInv, LeasesInv, AckMove;
    AckKeepsSerials(q, t, x, lease, now);
    AckKeepsLogins(q, t, x, lease, now);
    AckKeepsLeases(q, t, x, lease, now);
  }

  lemma LeasingKeepsUse(q: Queue, now: int, x: nat)
    requires Sound(q) && UseInv(q) && x in q.jobs && q.jobs[x].status == QUEUED
    ensures SoundJob(q.jobs[x]) && UseInv(DoClaim(q, now, x, false, true))
  {
    hide SerialsInv, LoginsInv, LeasesInv;
    assert SoundJob(q.jobs[x]);
    hide SoundJob;
    var t := DoClaim(q, now, x, false, true);
    var login, until := q.jobs[x].credentials.value, now + LEASE;
    assert LeaseMove(q, t, x, login, until);
    LeaseKeepsSerials(q, t, x, login, until);
    LeaseKeepsLogins(q, t, x, login, until);
    LeaseKeepsLeases(q, t, x, login, until);
  }

  lemma SweepKeepsUse(q: Queue, now: int, unlocked: set<nat>)
    requires Sound(q) && UseInv(q)
    ensures Sound(Sweep(q, now, unlocked)) && UseInv(Sweep(q, now, unlocked))
  {
    hide UseInv;
    var t := Sweep(q, now, unlocked);
    forall k | k in t.jobs ensures Calm(q, k, t.jobs[k]) && SoundJob(t.jobs[k]) {
      TransitionsAreSound(q.jobs[k]);
    }
    CalmKeepsUse(q, t);
  }

  lemma ClaimKeepsUse(q: Queue, e: Event)
    requires Sound(q) && UseInv(q) && e.Claim?
    ensures UseInv(Next(q, e))
  {
    hide UseInv;
    SweepKeepsUse(q, e.now, e.unlocked);
    var q1 := Sweep(q, e.now, e.unlocked);
    hide Sweep;
    if Claimable(q1, e.oldest) {
      var x := e.oldest.value;
      assert SoundJob(q1.jobs[x]);
      if e.registered || !e.ownerActive {
        CalmKeepsUse(q1, DoClaim(q1, e.now, x, e.registered, e.ownerActive));
      } else {
        LeasingKeepsUse(q1, e.now, x);
      }
    }
  }

  lemma AcknowledgeKeepsUse(q: Queue, e: Event)
    requires Sound(q) && UseInv(q) && e.Acknowledge?
    ensures UseInv(Next(q, e))
  {
    hide UseInv;
    var t := Next(q, e);
    if t.acked != q.acked { AckKeepsUse(q, t, e.key, e.lease, e.now); } else { CalmKeepsUse(q, t); }
  }

  lemma NextKeepsUse(q: Queue, e: Event)
    requires Sound(q) && UseInv(q)
    ensures UseInv(Next(q, e))
  {
    hide UseInv;
    var t := Next(q, e);
    NextIsSound(q, e);
    if e.Claim? {
      ClaimKeepsUse(q, e);
    } else if e.Credentials? && t.serial != q.serial {
      LoginKeepsUse(q, t, e.key);
    } else if e.Acknowledge? {
      AcknowledgeKeepsUse(q, e);
    } else {
      CalmKeepsUse(q, t);
    }
  }

  /** A connected job stays connected, to the profile it has or to none. */
  ghost predicate ConnectedStay(q: Queue, t: Queue) {
    forall k :: k in q.jobs && q.jobs[k].status == CONNECTED ==>
      k in t.jobs && t.jobs[k].status == CONNECTED && t.jobs[k].profile in {q.jobs[k].profile, None}
  }

  /** No handler accepts a connected job, and the sweep leaves it alone. */
  lemma ConnectedIsFinal(j: Job)
    requires j.status == CONNECTED
    ensures forall a, o, r :: Amended(j, a, o, r).Error?
    ensures forall o, r, c :: Approved(j, o, r, c).Error?
    ensures Rejected(j).Error?
    ensures forall o, w, n :: LoggedIn(j, o, w, n).Error?
    ensures forall t :: Swept(j, t) == j
    ensures forall n, s, f, t :: Acknowledged(j, n, s, f, t).Error?
    ensures forall b, a, o, n :: Concluded(j, b, a, o, n).Ok? ==> Concluded(j, b, a, o, n).value == j
  {
  }

  lemma ConnectedStays(q: Queue, e: Event, k: nat)
    requires Sound(q) && k in q.jobs && q.jobs[k].status == CONNECTED
    ensures var t := Next(q, e);
      k in t.jobs && t.jobs[k].status == CONNECTED && t.jobs[k].profile in {q.jobs[k].profile, None}
  {
    hide SoundJob, Amended, Approved, Rejected, LoggedIn, Swept, Acknowledged, Concluded;
    ConnectedIsFinal(q.jobs[k]);
  }

  lemma NextKeepsConnected(q: Queue, e: Event)
    requires Sound(q)
    ensures ConnectedStay(q, Next(q, e))
  {
    hide Next, Sound;
    forall k | k in q.jobs && q.jobs[k].status == CONNECTED { ConnectedStays(q, e, k); }
  }

  lemma NextKeepsProfiles(q: Queue, e: Event)
    requires Sound(q) && ProfilesInv(q)
    ensures ProfilesInv(Next(q, e))
  {
    var t := Next(q, e);
    NextKeepsConnected(q, e);
    if e.VerifyEnd? && t.created != q.created {
      assert q.jobs[e.call.job].status == LOGIN_REQUIRED;
      assert t.jobs[e.call.job].status == CONNECTED && t.jobs[e.call.job].profile == Some(q.serial);
      assert t.created[|q.created|].job == e.call.job && t.created[|q.created|].profile == q.serial;
    } else {
      assert t.created == q.created;
    }
    hide Next;
  }

  /** In every reachable interleaving: each job is sound, a submitted login is handed out at
      most once, a lease is acknowledged at most once and not after it expires, and racing
      verifications of one job create one profile. */
  lemma {:induction false} OnboardingIsSafe(events: seq<Event>)
    ensures Sound(After(events)) && UseInv(After(events)) && ProfilesInv(After(events))
  {
    if events != [] {
      var q := After(events[..|events| - 1]);
      OnboardingIsSafe(events[..|events| - 1]);
      NextKeepsUse(q, events[|events| - 1]);
      NextKeepsProfiles(q, events[|events| - 1]);
    }
  }

  // ---------------------------------------- what a verification proves

  predicate Amends(q: Queue, e: Event, k: nat) {
    e.Amend? && e.key == k && k in q.jobs && Amended(q.jobs[k], e.account, e.sameOwner, e.registered).Ok?
  }

  predicate Approves(q: Queue, e: Event, k: nat) {
    e.Approve? && e.key == k && k in q.jobs && Approved(q.jobs[k], e.ownerActive, e.registered, e.competing).Ok?
  }

  /** The account that the last accepted amendment of the job among `later` set. */
  ghost function AmendedTo(before: seq<Event>, later: seq<Event>, k: nat): Option<string> {
    if later == [] then None
    else
      var n := |later| - 1;
      if Amends(After(before + later[..n]), later[n], k) then Some(later[n].account)
      else AmendedTo(before, later[..n], k)
  }

  lemma TransitionsKeepAccount(j: Job)
    ensures forall a, o, r :: Amended(j, a, o, r).Ok? ==>
      Amended(j, a, o, r).value.account == a && Amended(j, a, o, r).value.attempts == j.attempts
    ensures forall o, r, c :: Approved(j, o, r, c).Ok? ==> Approved(j, o, r, c).value.account == j.account
    ensures Rejected(j).Ok? ==> Rejected(j).value.account == j.account && Rejected(j).value.attempts == j.attempts
    ensures forall o, w, n :: LoggedIn(j, o, w, n).Ok? ==>
      LoggedIn(j, o, w, n).value.account == j.account && LoggedIn(j, o, w, n).value.attempts == j.attempts
    ensures forall t :: Swept(j, t).account == j.account && Swept(j, t).attempts == j.attempts
    ensures forall n, s, f, t :: Acknowledged(j, n, s, f, t).Ok? ==>
      && Acknowledged(j, n, s, f, t).value.account == j.account
      && Acknowledged(j, n, s, f, t).value.attempts == j.attempts
    ensures forall b, a, o, n :: Concluded(j, b, a, o, n).Ok? ==>
      Concluded(j, b, a, o, n).value.account == j.account && Concluded(j, b, a, o, n).value.attempts == j.attempts
  {
  }

  lemma OneEvent(q: Queue, e: Event, k: nat)
    requires Sound(q) && k in q.jobs
    ensures var t := Next(q, e);
      && k in t.jobs
      && t.jobs[k].account == (if Amends(q, e, k) then e.account else q.jobs[k].account)
      && (!Approves(q, e, k) ==> t.jobs[k].attempts >= q.jobs[k].attempts)
  {
    hide SoundJob, Amended, Approved, Rejected, LoggedIn, Swept, Acknowledged, Concluded;
    TransitionsKeepAccount(q.jobs[k]);
  }

  lemma AfterOneMore(before: seq<Event>, later: seq<Event>)
    requires later != []
    ensures After(before + later) == Next(After(before + later[..|later| - 1]), later[|later| - 1])
  {
    var n := |later| - 1;
    assert (before + later)[..|before + later| - 1] == before + later[..n];
  }

  /** An account only changes through an accepted amendment. */
  lemma {:induction false} AccountFollows(before: seq<Event>, later: seq<Event>, k: nat)
    requires k in After(before).jobs
    ensures k in After(before + later).jobs
    ensures After(before + later).jobs[k].account
         == match AmendedTo(before, later, k) case None => After(before).jobs[k].account case Some(a) => a
  {
    if later == [] {
      assert before + later == before;
    } else {
      var n := |later| - 1;
      AccountFollows(before, later[..n], k);
      AfterOneMore(before, later);
      OneEvent(After(before + later[..n]), later[n], k);
      hide After, Amends, Next;
    }
  }

  /** A verification that began after `before` and ends after `later`. */
  ghost predicate Waited(before: seq<Event>, later: seq<Event>, end: Event) {
    && end.VerifyEnd? && end.call.job in After(before).jobs
    && After(before).jobs[end.call.job].status == LOGIN_REQUIRED
    && end.call.account == After(before).jobs[end.call.job].account
    && later != [] && later[0] == VerifyBegin(end.call.job, true)
  }

  lemma CreatedByEnd(q: Queue, end: Event)
    requires Sound(q) && end.VerifyEnd? && Next(q, end).created != q.created
    ensures end.call.job in q.jobs
    ensures Next(q, end).created
         == q.created + [Created(end.call.job, q.serial, q.jobs[end.call.job].account, end.call.account)]
  {
    hide SoundJob;
  }

  /** The created profile names the verified account if and only if the job was not amended during
      the wait, or was last amended to that same account. */
  lemma ProfileMatchesIff(before: seq<Event>, later: seq<Event>, end: Event)
    requires Waited(before, later, end) && Next(After(before + later), end).created != After(before + later).created
    ensures var q, t := After(before + later), Next(After(before + later), end);
      && |t.created| == |q.created| + 1 && t.created[..|q.created|] == q.created
      && t.created[|q.created|].job == end.call.job && t.created[|q.created|].verifiedAccount == end.call.account
      && (t.created[|q.created|].account == end.call.account
          <==> AmendedTo(before, later, end.call.job) in {None, Some(end.call.account)})
  {
    hide After, AmendedTo, Next;
    AccountFollows(before, later, end.call.job);
    CreatedByEnd(After(before + later), end);
  }

  lemma AttemptedIsNotAmended(q: Queue, e: Event, k: nat)
    ensures Amends(q, e, k) ==> q.jobs[k].attempts == 0
  {
  }

  /** No amendment is accepted during the wait unless an approval of the job was accepted first. */
  lemma {:induction false} AmendNeedsApproval(before: seq<Event>, later: seq<Event>, k: nat)
    requires k in After(before).jobs && After(before).jobs[k].status == LOGIN_REQUIRED
    requires forall i :: 0 <= i < |later| ==> !Approves(After(before + later[..i]), later[i], k)
    ensures k in After(before + later).jobs && After(before + later).jobs[k].attempts >= 1
    ensures AmendedTo(before, later, k) == None
  {
    hide After, Next, Amends, Approves;
    if later == [] {
      assert before + later == before;
      assert SoundJob(After(before).jobs[k]);
    } else {
      var n := |later| - 1;
      forall i | 0 <= i < n ensures !Approves(After(before + later[..n][..i]), later[..n][i], k) {
        assert later[..n][..i] == later[..i];
      }
      AmendNeedsApproval(before, later[..n], k);
      AfterOneMore(before, later);
      OneEvent(After(before + later[..n]), later[n], k);
      AttemptedIsNotAmended(After(before + later[..n]), later[n], k);
      assert later[..n] + [later[n]] == later;
    }
  }

  lemma {:induction false} NeverAmended(before: seq<Event>, later: seq<Event>, k: nat)
    requires forall i :: 0 <= i < |later| ==> !Amends(After(before + later[..i]), later[i], k)
    ensures AmendedTo(before, later, k) == None
  {
    if later != [] {
      var n := |later| - 1;
      forall i | 0 <= i < n ensures !Amends(After(before + later[..n][..i]), later[..n][i], k) {
        assert later[..n][..i] == later[..i];
      }
      NeverAmended(before, later[..n], k);
    }
  }

  /** If no amendment of the job, or no approval, is accepted while a verification waits, the
      profile it creates names the verified account. */
  lemma VerifiedAccountIsStored(before: seq<Event>, later: seq<Event>, end: Event)
    requires Waited(before, later, end)
    requires (forall i :: 0 <= i < |later| ==> !Amends(After(before + later[..i]), later[i], end.call.job))
      || (forall i :: 0 <= i < |later| ==> !Approves(After(before + later[..i]), later[i], end.call.job))
    ensures var q, t := After(before + later), Next(After(before + later), end);
      t.created == q.created
      || t.created == q.created + [Created(end.call.job, q.serial, end.call.account, end.call.account)]
  {
    hide After, Next, AmendedTo;
    var k := end.call.job;
    if forall i :: 0 <= i < |later| ==> !Amends(After(before + later[..i]), later[i], k) {
      NeverAmended(before, later, k);
    } else {
      AmendNeedsApproval(before, later, k);
    }
    AccountFollows(before, later, k);
    if Next(After(before + later), end).created != After(before + later).created {
      CreatedByEnd(After(before + later), end);
    }
  }

  // A run in which another account connects: while a verification waits, the login is submitted
  // again, the job fails because its owner is disabled, is approved, rejected and amended, and
  // comes back to the same status.

  const CALL := Verifying(0, "DU111")

  const TO_WAITING := [
    Request(0, "DU111", false), Approve(0, true, false, false), Credentials(0, true, true),
    Claim(0, {}, Some(0), false, true), Acknowledge(0, 1, true, "", 0)]

  const DETOUR := [
    VerifyBegin(0, true), Credentials(0, true, true), Claim(0, {}, Some(0), false, false),
    Approve(0, true, false, false), Reject(0), Amend(0, "DU222", true, false), Approve(0, true, false, false),
    Credentials(0, true, true), Claim(0, {}, Some(0), false, true), Acknowledge(0, 4, true, "", 0)]

  const LAST := VerifyEnd(CALL, Verified, true, true)

  function Waiting(account: string): Job {
    Job(account, LOGIN_REQUIRED, true, None, None, true, None, None, 1, "")
  }

  /** A queue of one job. */
  function Lone(j: Job, calls: set<Verifying>, serial: nat, handed: seq<Handed>, acked: seq<Acked>): Queue {
    Queue(map[0 := j], calls, serial, handed, acked, [])
  }

  lemma Reaches(events: seq<Event>, e: Event, q: Queue, t: Queue)
    requires After(events) == q && Sound(q) && Next(q, e) == t
    ensures After(events + [e]) == t && Sound(t)
  {
    assert (events + [e])[..|events|] == events;
  }

  /** A login of the one job is leased, or the job fails because its owner is disabled. */
  lemma LoneClaim(q: Queue, j: Job, ownerActive: bool)
    requires q.jobs == map[0 := j] && Sound(q) && j.status == QUEUED && j.credentials.Some?
    ensures var e := Claim(0, {}, Some(0), false, ownerActive);
      Next(q, e) == if !ownerActive then q.(jobs := map[0 := Claimed(j, false, false, 0, q.serial)])
        else q.(jobs := map[0 := Claimed(j, false, true, 0, q.serial)], serial := q.serial + 1,
                handed := q.handed + [Handed(0, j.credentials.value, q.serial, LEASE)])
  {
    assert 0 in q.jobs && q.jobs[0] == j;
    assert SoundJob(j);
    hide SoundJob;
    assert Sweep(q, 0, {}).jobs == q.jobs;
    assert Sweep(q, 0, {}) == q;
    hide Sweep;
  }

  lemma FirstLogin() returns (q: Queue)
    ensures After(TO_WAITING[..3]) == q
    ensures q == Lone(Job("DU111", QUEUED, true, None, Some(0), true, None, None, 0, ""), {}, 1, [], [])
  {
    hide After;
    var s0: seq<Event> := [];
    assert After(s0) == EMPTY by { NoEvents(); }
    var a := Requested("DU111");
    var s1, q1 := s0 + [TO_WAITING[0]], Lone(a, {}, 0, [], []);
    Reaches(s0, TO_WAITING[0], EMPTY, q1);
    var b := Approved(a, true, false, false).value;
    var s2, q2 := s1 + [TO_WAITING[1]], Lone(b, {}, 0, [], []);
    Reaches(s1, TO_WAITING[1], q1, q2);
    q := Lone(LoggedIn(b, true, true, 0).value, {}, 1, [], []);
    Reaches(s2, TO_WAITING[2], q2, q);
    assert s2 + [TO_WAITING[2]] == TO_WAITING[..3];
  }

  lemma FirstWait() returns (q: Queue)
    ensures After(TO_WAITING) == q == Lone(Waiting("DU111"), {}, 2, [Handed(0, 0, 1, LEASE)], [Acked(0, 1, 0)])
  {
    hide After;
    var q0 := FirstLogin();
    var s0 := TO_WAITING[..3];
    var c := q0.jobs[0];
    var d := Claimed(c, false, true, 0, 1);
    var s1, q1 := s0 + [TO_WAITING[3]], Lone(d, {}, 2, [Handed(0, 0, 1, LEASE)], []);
    LoneClaim(q0, c, true);
    Reaches(s0, TO_WAITING[3], q0, q1);
    q := Lone(Waiting("DU111"), {}, 2, [Handed(0, 0, 1, LEASE)], [Acked(0, 1, 0)]);
    Reaches(s1, TO_WAITING[4], q1, q);
    assert s1 + [TO_WAITING[4]] == TO_WAITING;
  }

  lemma NoEvents()
    ensures After([]) == EMPTY
  {
  }

  /** The detour begins with a waiting call, and the job fails: its owner is disabled. */
  lemma FirstEvents(q: Queue) returns (t: Queue)
    requires After(TO_WAITING) == q == Lone(Waiting("DU111"), {}, 2, [Handed(0, 0, 1, LEASE)], [Acked(0, 1, 0)])
    ensures After(TO_WAITING + DETOUR[..3]) == t
    ensures t == Lone(Claimed(Job("DU111", QUEUED, true, None, Some(2), true, None, None, 1, ""), false, false, 0, 3),
                      {CALL}, 3, q.handed, q.acked)
  {
    hide After;
    var s0 := TO_WAITING;
    var a := Waiting("DU111");
    var s1, q1 := s0 + [DETOUR[0]], Lone(a, {CALL}, 2, q.handed, q.acked);
    Reaches(s0, DETOUR[0], q, q1);
    var b := LoggedIn(a, true, true, 2).value;
    var s2, q2 := s1 + [DETOUR[1]], Lone(b, {CALL}, 3, q.handed, q.acked);
    Reaches(s1, DETOUR[1], q1, q2);
    t := Lone(Claimed(b, false, false, 0, 3), {CALL}, 3, q.handed, q.acked);
    LoneClaim(q2, b, false);
    Reaches(s2, DETOUR[2], q2, t);
    assert s2 + [DETOUR[2]] == TO_WAITING + DETOUR[..3];
  }

  /** The failed job is approved, rejected and amended. */
  lemma NextEvents(q: Queue) returns (t: Queue)
    requires After(TO_WAITING + DETOUR[..3]) == q
    requires q == Lone(Claimed(Job("DU111", QUEUED, true, None, Some(2), true, None, None, 1, ""), false, false, 0, 3),
                       {CALL}, 3, q.handed, q.acked)
    ensures After(TO_WAITING + DETOUR[..6]) == t
    ensures t == Lone(Job("DU222", REQUESTED, false, None, None, true, None, None, 0, ""), {CALL}, 3, q.handed, q.acked)
  {
    hide After;
    var s0 := TO_WAITING + DETOUR[..3];
    var a := Approved(q.jobs[0], true, false, false).value;
    var s1, q1 := s0 + [DETOUR[3]], Lone(a, {CALL}, 3, q.handed, q.acked);
    Reaches(s0, DETOUR[3], q, q1);
    var b := Rejected(a).value;
    var s2, q2 := s1 + [DETOUR[4]], Lone(b, {CALL}, 3, q.handed, q.acked);
    Reaches(s1, DETOUR[4], q1, q2);
    t := Lone(Amended(b, "DU222", true, false).value, {CALL}, 3, q.handed, q.acked);
    Reaches(s2, DETOUR[5], q2, t);
    assert s2 + [DETOUR[5]] == TO_WAITING + DETOUR[..6];
  }

  /** The amended job is approved and its login submitted. */
  lemma SecondLogin(q: Queue) returns (t: Queue)
    requires After(TO_WAITING + DETOUR[..6]) == q
    requires q == Lone(Job("DU222", REQUESTED, false, None, None, true, None, None, 0, ""),
                       {CALL}, 3, q.handed, q.acked)
    ensures After(TO_WAITING + DETOUR[..8]) == t
    ensures t == Lone(Job("DU222", QUEUED, true, None, Some(3), true, None, None, 0, ""), {CALL}, 4, q.handed, q.acked)
  {
    hide After;
    var s0 := TO_WAITING + DETOUR[..6];
    var a := Approved(q.jobs[0], true, false, false).value;
    var s1, q1 := s0 + [DETOUR[6]], Lone(a, {CALL}, 3, q.handed, q.acked);
    Reaches(s0, DETOUR[6], q, q1);
    t := Lone(LoggedIn(a, true, true, 3).value, {CALL}, 4, q.handed, q.acked);
    Reaches(s1, DETOUR[7], q1, t);
    assert s1 + [DETOUR[7]] == TO_WAITING + DETOUR[..8];
  }

  /** It comes to the waiting status again, with the other account. */
  lemma SecondWait(q: Queue) returns (t: Queue)
    requires After(TO_WAITING + DETOUR[..8]) == q
    requires q == Lone(Job("DU222", QUEUED, true, None, Some(3), true, None, None, 0, ""), {CALL}, 4, q.handed, q.acked)
    ensures After(TO_WAITING + DETOUR) == t
    ensures t == Lone(Waiting("DU222"), {CALL}, 5, q.handed + [Handed(0, 3, 4, LEASE)], q.acked + [Acked(0, 4, 0)])
  {
    hide After;
    var s0 := TO_WAITING + DETOUR[..8];
    var a := q.jobs[0];
    var b := Claimed(a, false, true, 0, 4);
    var s1, q1 := s0 + [DETOUR[8]], Lone(b, {CALL}, 5, q.handed + [Handed(0, 3, 4, LEASE)], q.acked);
    LoneClaim(q, a, true);
    Reaches(s0, DETOUR[8], q, q1);
    t := Lone(Waiting("DU222"), {CALL}, 5, q.handed + [Handed(0, 3, 4, LEASE)], q.acked + [Acked(0, 4, 0)]);
    Reaches(s1, DETOUR[9], q1, t);
    assert s1 + [DETOUR[9]] == TO_WAITING + DETOUR;
  }

  /** A reachable queue in which the waiting verification of one account creates a profile that
      names another. */
  lemma AnotherAccountCanConnect()
    ensures Waited(TO_WAITING, DETOUR, LAST)
    ensures Next(After(TO_WAITING + DETOUR), LAST).created == [Created(0, 5, "DU222", "DU111")]
  {
    hide After;
    var q := FirstWait();
    var failed := FirstEvents(q);
    var amended := NextEvents(failed);
    var queued := SecondLogin(amended);
    var t := SecondWait(queued);
    assert Next(t, LAST).created == t.created + [Created(0, 5, "DU222", "DU111")];
  }
}
