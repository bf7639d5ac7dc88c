/** How a job came to be where it is: every state is reached by accepted requests of the right
    people, in order; and a request that is due is never refused. */
module OnboardingCustody {

  import opened Wrappers
  import opened Onboarding

  // -------------------------------------------- what a state presupposes

  /** An administrator approved it, for an active owner, an account without a profile and no other
      running setup. */
  ghost predicate WasApproved(events: seq<Event>, k: nat) {
    exists i :: 0 <= i < |events| && events[i] == Approve(k, true, false, false)
  }

  /** After that its owner submitted a well-formed login. */
  ghost predicate WasLoggedIn(events: seq<Event>, k: nat) {
    exists i :: 0 <= i < |events| && events[i] == Credentials(k, true, true) && WasApproved(events[..i], k)
  }

  /** After that a worker claimed it, still for an active owner and a free account. */
  ghost predicate WasClaimed(events: seq<Event>, k: nat) {
    exists i :: 0 <= i < |events| && ClaimOf(events[i], k) && WasLoggedIn(events[..i], k)
  }

  ghost predicate ClaimOf(e: Event, k: nat) {
    e.Claim? && e.oldest == Some(k) && !e.registered && e.ownerActive
  }

  /** After that the worker reported a start. */
  ghost predicate WasStarted(events: seq<Event>, k: nat) {
    exists i :: 0 <= i < |events| && StartOf(events[i], k) && WasClaimed(events[..i], k)
  }

  ghost predicate StartOf(e: Event, k: nat) {
    e.Acknowledge? && e.key == k && e.started
  }

  /** After that the bridge verified the login, for an active owner and an assignable account. */
  ghost predicate WasVerified(events: seq<Event>, k: nat) {
    exists i :: 0 <= i < |events| && VerificationOf(events[i], k) && WasStarted(events[..i], k)
  }

  ghost predicate VerificationOf(e: Event, k: nat) {
    e.VerifyEnd? && e.call.job == k && e.answer == Verified && e.assignable && e.ownerActive
  }

  ghost predicate Custody(events: seq<Event>, j: Job, k: nat) {
    && (j.approved || j.status == APPROVED ==> WasApproved(events, k))
    && (j.status == QUEUED ==> WasLoggedIn(events, k))
    && (j.status == PROVISIONING ==> WasClaimed(events, k))
    && (j.status == LOGIN_REQUIRED ==> WasStarted(events, k))
    && (j.status == CONNECTED ==> WasVerified(events, k))
  }

  lemma PrefixOfMore(events: seq<Event>, e: Event, i: nat)
    requires i <= |events|
    ensures (events + [e])[..i] == events[..i]
  {
  }

  /** What has happened stays so. */
  lemma PastStays(events: seq<Event>, e: Event, k: nat)
    ensures WasApproved(events, k) ==> WasApproved(events + [e], k)
    ensures WasLoggedIn(events, k) ==> WasLoggedIn(events + [e], k)
    ensures WasClaimed(events, k) ==> WasClaimed(events + [e], k)
    ensures WasStarted(events, k) ==> WasStarted(events + [e], k)
    ensures WasVerified(events, k) ==> WasVerified(events + [e], k)
  {
    var more := events + [e];
    forall i | 0 <= i < |events| ensures more[i] == events[i] && more[..i] == events[..i] {
      PrefixOfMore(events, e, i);
    }
  }

  /** What happens is in the past from then on. */
  lemma NowIsPast(events: seq<Event>, e: Event, k: nat)
    ensures e == Approve(k, true, false, false) ==> WasApproved(events + [e], k)
    ensures e == Credentials(k, true, true) && WasApproved(events, k) ==> WasLoggedIn(events + [e], k)
    ensures ClaimOf(e, k) && WasLoggedIn(events, k) ==> WasClaimed(events + [e], k)
    ensures StartOf(e, k) && WasClaimed(events, k) ==> WasStarted(events + [e], k)
    ensures VerificationOf(e, k) && WasStarted(events, k) ==> WasVerified(events + [e], k)
  {
    var more, n := events + [e], |events|;
    assert more[n] == e && more[..n] == events;
  }

  /** How one event may change one job. */
  ghost predicate Step(a: Job, b: Job, e: Event, k: nat) {
    && (b.approved ==> a.approved || e == Approve(k, true, false, false))
    && (b.status == APPROVED ==> a.status == APPROVED || e == Approve(k, true, false, false))
    && (b.status == QUEUED ==> a.status == QUEUED || (a.approved && e == Credentials(k, true, true)))
    && (b.status == PROVISIONING ==> a.status == PROVISIONING || (a.status == QUEUED && ClaimOf(e, k)))
    && (b.status == LOGIN_REQUIRED ==> a.status == LOGIN_REQUIRED || (a.status == PROVISIONING && StartOf(e, k)))
    && (b.status == CONNECTED ==> a.status == CONNECTED || (a.status == LOGIN_REQUIRED && VerificationOf(e, k)))
  }

  lemma EventsAreSteps(q: Queue, e: Event, k: nat)
    requires Sound(q) && k in Next(q, e).jobs
    ensures k in q.jobs ==> Step(q.jobs[k], Next(q, e).jobs[k], e, k)
    ensures k !in q.jobs ==>
      && e.Request? && e.key == k && !e.registered
      && Next(q, e).jobs[k] == Job(e.account, REQUESTED, false, None, None, false, None, None, 0, "")
  {
    hide SoundJob;
  }

  lemma StepKeepsCustody(events: seq<Event>, e: Event, a: Job, b: Job, k: nat)
    requires Custody(events, a, k) && Step(a, b, e, k)
    ensures Custody(events + [e], b, k)
  {
    PastStays(events, e, k);
    NowIsPast(events, e, k);
    hide WasApproved, WasLoggedIn, WasClaimed, WasStarted, WasVerified, ClaimOf, StartOf, VerificationOf;
  }

  /** In every reachable queue each job has been brought to its state by accepted requests, each after
      the one before: approval, the owner's login, a claim, a start, a verification. */
  lemma {:induction false} EveryJobHasCustody(events: seq<Event>, k: nat)
    requires k in After(events).jobs
    ensures Custody(events, After(events).jobs[k], k)
  {
    if events != [] {
      var n := |events| - 1;
      var q := After(events[..n]);
      assert events[..n] + [events[n]] == events;
      hide After, Custody, Next, Step;
      AfterEvents(events);
      EventsAreSteps(q, events[n], k);
      if k in q.jobs {
        EveryJobHasCustody(events[..n], k);
        StepKeepsCustody(events[..n], events[n], q.jobs[k], After(events).jobs[k], k);
      } else {
        NewJobHasCustody(events, After(events).jobs[k], k);
      }
    }
  }

  lemma AfterEvents(events: seq<Event>)
    requires events != []
    ensures After(events) == Next(After(events[..|events| - 1]), events[|events| - 1])
  {
  }

  lemma NewJobHasCustody(events: seq<Event>, j: Job, k: nat)
    requires j.status == REQUESTED && !j.approved
    ensures Custody(events, j, k)
  {
  }

  // --------------------------------------------- what is never refused

  /** A request that the job's state and its guards allow is carried out. */
  lemma DueRequestsSucceed(q: Queue, e: Event)
    requires Sound(q)
    ensures e.Request? && !e.registered && e.key !in q.jobs ==> e.key in Next(q, e).jobs
    ensures e.Amend? && e.key in q.jobs && e.sameOwner && !e.registered ==>
      var j, t := q.jobs[e.key], Next(q, e).jobs[e.key];
      j.status in {REQUESTED, REJECTED} && j.attempts == 0 ==>
        t == j.(account := e.account, status := REQUESTED, approved := false, error := "")
    ensures e.Approve? && e.key in q.jobs && e.ownerActive && !e.registered && !e.competing ==>
      var j, t := q.jobs[e.key], Next(q, e).jobs[e.key];
      j.status in {REQUESTED, FAILED, REJECTED} ==>
        t.status == APPROVED && t.approved && t.attempts == 0 && t.error == "" && t.account == j.account
        && t.credentials == None && t.leaseHash == None && t.leaseUntil == None
    ensures e.Reject? && e.key in q.jobs ==>
      var j, t := q.jobs[e.key], Next(q, e).jobs[e.key];
      j.status in {REQUESTED, APPROVED, FAILED} ==> t == j.(status := REJECTED, credentials := None)
    ensures e.Credentials? && e.key in q.jobs && e.owner && e.wellFormed ==>
      var j, t := q.jobs[e.key], Next(q, e).jobs[e.key];
      j.status in {APPROVED, FAILED, LOGIN_REQUIRED} && j.approved && j.attempts < 3 ==>
        t.status == QUEUED && t.credentials == Some(q.serial) && t.bridgeToken && t.error == ""
        && t.leaseHash == None && t.leaseUntil == None && t.account == j.account && t.attempts == j.attempts
  {
    hide SoundJob;
  }

  /** The same of the worker's requests and of a verification. */
  lemma DueAnswersSucceed(q: Queue, e: Event)
    requires Sound(q)
    ensures e.Claim? && e.oldest.Some? && e.oldest.value in q.jobs && q.jobs[e.oldest.value].status == QUEUED ==>
      var j, t := q.jobs[e.oldest.value], Next(q, e).jobs[e.oldest.value];
      if e.registered then t == j.(status := FAILED, error := "ACCOUNT_ALREADY_ASSIGNED", credentials := None)
      else if !e.ownerActive then t == j.(status := FAILED, error := "OWNER_DISABLED", credentials := None)
      else t == j.(status := PROVISIONING, leaseHash := Some(q.serial), leaseUntil := Some(e.now + 600),
                   attempts := j.attempts + 1)
    ensures e.Claim? ==> forall k :: k in q.jobs && k in e.unlocked ==>
      q.jobs[k].status == PROVISIONING && q.jobs[k].leaseUntil.Some? && q.jobs[k].leaseUntil.value < e.now ==>
        Next(q, e).jobs[k] == q.jobs[k].(status := FAILED, error := "LEASE_EXPIRED", credentials := None,
                                         leaseHash := None)
    ensures e.Acknowledge? && e.key in q.jobs ==>
      var j, t := q.jobs[e.key], Next(q, e).jobs[e.key];
      j.status == PROVISIONING && j.leaseHash == Some(e.lease) && j.leaseUntil.Some? && e.now <= j.leaseUntil.value ==>
        && t.status == (if e.started then LOGIN_REQUIRED else FAILED)
        && t.error == (if e.started then ""
                       else if e.failure in {"NODE_CAPACITY", "NODE_START_FAILED", "NODE_POLICY_INVALID",
                                             "LEASE_EXPIRED"} then e.failure
                       else "NODE_START_FAILED")
        && t.credentials == None && t.leaseHash == None && t.leaseUntil == None && t.account == j.account
    ensures e.VerifyEnd? && e.call in q.verifying && e.call.job in q.jobs ==>
      q.jobs[e.call.job].status == LOGIN_REQUIRED ==>
      var j, t := q.jobs[e.call.job], Next(q, e).jobs[e.call.job];
      && (e.answer == Verified && e.assignable && e.ownerActive ==>
            t == j.(status := CONNECTED, profile := Some(q.serial), error := "", bridgeToken := false))
      && (e.answer == Verified && !(e.assignable && e.ownerActive) ==> t == j)
      && (e.answer == Mismatch ==> t == j.(error := "ACCOUNT_OR_ENVIRONMENT_MISMATCH"))
      && (e.answer == Pending ==> t == j.(error := "BROKER_LOGIN_PENDING"))
  {
    hide SoundJob;
  }
}
