/** The durable tables (src/db/migrations.js): rows, their UNIQUE indexes, and a database
    object holding them. Identifiers, times and codes are abstract numbers; random ids
    come in as parameters and a clash of ids is a constraint violation. */
module Schema {
  import opened Wrappers
  import opened JobStates
  import opened ProxyStates
  import opened CanonicalJson

  type JobId = nat
  type ApplicationId = nat
  type UserId = nat
  type ProxyId = nat
  type AllocationId = nat
  type ReservationId = nat
  type StepId = string
  type BootId = nat
  type Time = nat

  /** Error codes; the ones the retry policy knows by name, and all the others. */
  datatype Code =
    | ManualChallengeRequired
    | ProcessShutdown
    | GracefulShutdown
    | ShutdownAbort
    | NonRetryableError
    | RetryExhaustedError
    | RetryableError
    | AbortedCode
    | FinalResultFailure
    | OtherCode(number: nat)

  datatype Job = Job(
    applicationId: ApplicationId,
    userId: Option<UserId>,
    state: JobState,
    currentStep: Option<StepId>,
    retryCount: nat,
    startedAt: Option<Time>,
    completedAt: Option<Time>,
    failureCode: Option<Code>,
    version: nat)

  datatype Claim = Claim(applicationId: ApplicationId, active: bool, releasedAt: Option<Time>)

  datatype Protocol = Http | Https

  datatype Endpoint = Endpoint(ip: nat, port: nat)

  datatype Proxy = Proxy(
    endpoint: Endpoint,
    protocol: Protocol,
    enabled: bool,
    status: ProxyState,
    healthOk: bool,
    successCount: nat,
    failureCount: nat)

  datatype Allocation = Allocation(
    jobId: JobId,
    proxyId: ProxyId,
    endpoint: Endpoint,
    status: AllocationState,
    activatedAt: Option<Time>,
    releasedAt: Option<Time>,
    releaseReason: Option<ReleaseReason>,
    failureCount: nat)

  datatype Reservation = Reservation(
    proxyId: ProxyId,
    endpoint: Endpoint,
    status: ReservationState,
    jobId: Option<JobId>)

  datatype DeliveryStatus = DeliveryPending | InFlight | Delivered | Uncertain

  datatype Certainty = NotSent | Rejected | Ambiguous

  datatype FinalOutcome = SuccessOutcome | FailureOutcome

  /** SHA-256 of a canonical payload, taken to be collision free: the digest remembers what it is
      the digest of. */
  datatype Digest = Sha256(canonical: Json)

  datatype FinalResult = FinalResult(
    applicationId: ApplicationId,
    outcome: FinalOutcome,
    terminalState: JobState,
    code: Option<Code>,
    payload: Json,
    digest: Digest,
    status: DeliveryStatus,
    attempts: nat,
    certainty: Option<Certainty>,
    deliveredAt: Option<Time>,
    httpStatus: Option<int>)

  datatype RecoveryStatus =
    | NoRecovery
    | RetryScheduled
    | BlockedSessionLoss
    | BlockedUnsafeReplay
    | RetryExhausted
    | WaitingManual
    | FinalResultPending
    | FinalResultUncertain
    | FinalResultDelivered

  datatype Recovery = Recovery(
    restartCount: nat,
    status: RecoveryStatus,
    sessionLost: bool,
    lastState: JobState,
    lastStep: Option<StepId>,
    nextRetryAt: Option<Time>,
    bootId: BootId)

  datatype Tables = Tables(
    jobs: map<JobId, Job>,
    claims: map<JobId, Claim>,
    proxies: map<ProxyId, Proxy>,
    allocations: map<AllocationId, Allocation>,
    reservations: map<ReservationId, Reservation>,
    results: map<JobId, FinalResult>,
    recoveries: map<JobId, Recovery>)

  const EMPTY_TABLES := Tables(map[], map[], map[], map[], map[], map[], map[])

  datatype Error =
    | JobNotFound
    | JobConflict(retryable: bool)
    | InvalidTransition
    | ProxyUnavailable(retryable: bool)
    | ProxyNotFound
    | ProxyConfiguration
    | FinalResultConflict
    | DeliveryUncertain
    | ResultNotConfigured
    | InvalidArgument
    | PortalFailure(certainty: Certainty)
    | ExecutionInterrupted
    | ConstraintViolation

  /** What a transaction does: it commits new tables and a value, or rolls back with an error. */
  datatype Tx<+V> = Commit(tables: Tables, value: V) | Rollback(error: Error) {
    function After(before: Tables): Tables {
      if Commit? then tables else before
    }

    function Outcome(): Result<V, Error> {
      if Commit? then Success(value) else Failure(error)
    }
  }

  // -------------------------------------------------------------------------------------------
  // Rows and indexes
  // -------------------------------------------------------------------------------------------

  predicate LiveFor(t: Tables, a: AllocationId, j: JobId) {
    a in t.allocations && t.allocations[a].jobId == j && IsLive(t.allocations[a].status)
  }

  predicate LiveOn(t: Tables, a: AllocationId, p: ProxyId) {
    a in t.allocations && t.allocations[a].proxyId == p && IsLive(t.allocations[a].status)
  }

  predicate HeldOn(t: Tables, r: ReservationId, p: ProxyId) {
    r in t.reservations && t.reservations[r].proxyId == p && t.reservations[r].status == Held
  }

  /** The first of the live allocations of a job; the unique index leaves at most one. */
  ghost predicate IsFirstLive(t: Tables, a: AllocationId, j: JobId) {
    LiveFor(t, a, j) && forall b :: LiveFor(t, b, j) ==> a <= b
  }

  /** SELECT the live allocation of a job, LIMIT 1. */
  ghost function LiveOf(t: Tables, j: JobId): (r: Option<AllocationId>)
    ensures r.Some? ==> IsFirstLive(t, r.value, j)
    ensures r.None? ==> forall a :: !LiveFor(t, a, j)
  {
    if exists a :: IsFirstLive(t, a, j) then
      var a :| IsFirstLive(t, a, j);
      Some(a)
    else
      NoFirstMeansNoneLive(t, j);
      None
  }

  /** A non-empty set of numbers has a smallest one. */
  lemma {:induction false} SmallestExists(ids: set<nat>) returns (first: nat)
    requires ids != {}
    ensures first in ids && forall i :: i in ids ==> first <= i
    decreases |ids|
  {
    first :| first in ids;
    if ids != {first} {
      var other := SmallestExists(ids - {first});
      assert forall i :: i in ids ==> i == first || i in ids - {first};
      first := if other < first then other else first;
    }
  }

  lemma NoFirstMeansNoneLive(t: Tables, j: JobId)
    requires forall a :: !IsFirstLive(t, a, j)
    ensures forall a :: !LiveFor(t, a, j)
  {
    var live := set a | a in t.allocations && LiveFor(t, a, j);
    assert forall a :: LiveFor(t, a, j) ==> a in live;
    if live != {} {
      var first := SmallestExists(live);
      assert IsFirstLive(t, first, j);
    }
  }

  /** The UNIQUE indexes of the schema. */
  ghost predicate Constraints(t: Tables) {
    && UniqueApplications(t)
    && UniqueEndpoints(t.proxies)
    && UniqueLiveAllocations(t)
    && UniqueHeldReservations(t)
  }

  predicate JobFor(t: Tables, j: JobId, application: ApplicationId) {
    j in t.jobs && t.jobs[j].applicationId == application
  }

  predicate ClaimFor(t: Tables, j: JobId, application: ApplicationId) {
    j in t.claims && t.claims[j].applicationId == application
  }

  ghost predicate UniqueApplications(t: Tables) {
    && (forall i, j, application :: JobFor(t, i, application) && JobFor(t, j, application) ==> i == j)
    && (forall i, j, application :: ClaimFor(t, i, application) && ClaimFor(t, j, application) ==> i == j)
  }

  ghost predicate UniqueEndpoints(proxies: map<ProxyId, Proxy>) {
    forall p, q :: p in proxies && q in proxies && proxies[p].endpoint == proxies[q].endpoint ==> p == q
  }

  ghost predicate UniqueLiveAllocations(t: Tables) {
    && (forall a, b, j :: LiveFor(t, a, j) && LiveFor(t, b, j) ==> a == b)
    && (forall a, b, p :: LiveOn(t, a, p) && LiveOn(t, b, p) ==> a == b)
  }

  ghost predicate UniqueHeldReservations(t: Tables) {
    forall r, q, p :: HeldOn(t, r, p) && HeldOn(t, q, p) ==> r == q
  }

  lemma SameFirstLive(t: Tables, t': Tables, j: JobId)
    requires t'.allocations == t.allocations
    ensures LiveOf(t', j).Some? <==> LiveOf(t, j).Some?
  {
    assert forall a :: LiveFor(t', a, j) <==> LiveFor(t, a, j);
  }

  lemma SameLiveOf(t: Tables, t': Tables, j: JobId)
    requires t'.allocations == t.allocations
    ensures LiveOf(t', j) == LiveOf(t, j)
  {
    assert forall a, k :: LiveFor(t', a, k) <==> LiveFor(t, a, k);
    if LiveOf(t, j).Some? {
      assert IsFirstLive(t', LiveOf(t, j).value, j);
    }
    if LiveOf(t', j).Some? {
      assert IsFirstLive(t, LiveOf(t', j).value, j);
    }
  }

  lemma SameLiveAllocations(t: Tables, t': Tables)
    requires UniqueLiveAllocations(t) && t'.allocations == t.allocations
    ensures UniqueLiveAllocations(t')
  {
    assert forall a, j :: LiveFor(t', a, j) <==> LiveFor(t, a, j);
    assert forall a, p :: LiveOn(t', a, p) <==> LiveOn(t, a, p);
  }

  /** The database: one field per table. */
  class Database {
    var jobs: map<JobId, Job>
    var claims: map<JobId, Claim>
    var proxies: map<ProxyId, Proxy>
    var allocations: map<AllocationId, Allocation>
    var reservations: map<ReservationId, Reservation>
    var results: map<JobId, FinalResult>
    var recoveries: map<JobId, Recovery>

    function Contents(): Tables
      reads this
    {
      Tables(jobs, claims, proxies, allocations, reservations, results, recoveries)
    }

    ghost predicate Valid()
      reads this
    {
      Constraints(Contents())
    }

    constructor ()
      ensures Contents() == EMPTY_TABLES && Valid()
    {
      jobs, claims, proxies, allocations := map[], map[], map[], map[];
      reservations, results, recoveries := map[], map[], map[];
    }

    /** ROLLBACK to a savepoint. */
    method Restore(savepoint: Tables)
      modifies this
      ensures Contents() == savepoint
    {
      jobs, claims, proxies := savepoint.jobs, savepoint.claims, savepoint.proxies;
      allocations, reservations := savepoint.allocations, savepoint.reservations;
      results, recoveries := savepoint.results, savepoint.recoveries;
    }

    /** SELECT the live allocation of a job, LIMIT 1. */
    method LiveAllocation(j: JobId) returns (r: Option<AllocationId>)
      ensures r == LiveOf(Contents(), j)
    {
      var live := set a | a in allocations && LiveFor(Contents(), a, j);
      var rest := live;
      r := None;
      while rest != {}
        invariant rest <= live
        invariant r.None? ==> rest == live
        invariant r.Some? ==> r.value in live
        invariant r.Some? ==> forall a :: a in live && a !in rest ==> r.value <= a
      {
        var a :| a in rest;
        if r.None? || a < r.value {
          r := Some(a);
        }
        rest := rest - {a};
      }
      assert forall a :: LiveFor(Contents(), a, j) ==> a in live;
      if r.Some? {
        assert IsFirstLive(Contents(), r.value, j);
      }
    }
  }
}
