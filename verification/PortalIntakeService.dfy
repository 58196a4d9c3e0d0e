/** What one intake cycle comes to, told on the tables (src/portal/portal-intake-service.js). */
module IntakeRounds {
  import opened Wrappers
  import opened JobStates
  import opened ProxyStates
  import opened Schema
  import opened ProxyRows
  import opened JobTransactions
  import opened AllocationTransactions
  import opened ReservationTransactions
  import opened Transactions
  import opened Ownership
  import opened History
  import opened SystemModel
  import opened SystemInvariant
  import opened SystemSteps

  /** What the Portal answers to one fetch, with its mapping. */
  datatype Fetch =
    | FetchFails(error: Error)
    | NothingPending
    | MappingFails(error: Error)
    | EmptyResponse
    | Application(id: ApplicationId, user: Option<UserId>)

  /** Fresh identifiers for one round. */
  datatype Ids = Ids(reservation: ReservationId, job: JobId, allocation: AllocationId)

  datatype Handoff = Handoff(jobId: JobId, allocationId: AllocationId)

  /** How one round of the cycle ends. */
  datatype Round = NoSlot | NoApplication | NoContent | Duplicate | Taken(handoff: Handoff) | Thrown(error: Error)

  datatype Summary = Summary(
    consumed: nat, created: nat, duplicates: nat, effectiveCapacity: nat, jobs: seq<Handoff>)

  /** A job as it is handed to execution: waiting for its IP, with its own live, reserved allocation. */
  predicate HandedOff(t: Tables, h: Handoff) {
    && h.jobId in t.jobs && t.jobs[h.jobId].state == WaitingForIp
    && LiveFor(t, h.allocationId, h.jobId)
    && t.allocations[h.allocationId].status == AllocReserved
  }

  /** Rows that exist keep what a handed-off job needs. */
  predicate KeepsRowsOf(t: Tables, t': Tables) {
    && (forall j :: j in t.jobs ==> j in t'.jobs && t'.jobs[j] == t.jobs[j])
    && (forall a :: a in t.allocations ==> a in t'.allocations && t'.allocations[a] == t.allocations[a])
  }

  /** Tables as every run leaves them, as far as intake looks at them. */
  ghost predicate Sound(t: Tables) {
    && Consistent(t) && JobsOk(t)
    && forall a, j :: LiveFor(t, a, j) ==> j in t.jobs
  }

  predicate Unfolded(x: nat) {
    true
  }

  predicate Told(x: nat) {
    true
  }

  /** The same, and consistency alone, under quantifiers, so that only proofs that ask for it have to look at it. */
  ghost predicate IsSound(t: Tables) {
    forall x {:trigger Unfolded(x)} :: Unfolded(x) ==> Sound(t)
  }

  ghost predicate IsConsistent(t: Tables) {
    forall x {:trigger Unfolded(x)} :: Unfolded(x) ==> Consistent(t)
  }

  lemma SoundIsConsistent(t: Tables)
    ensures IsConsistent(t) <==> Consistent(t)
    ensures IsSound(t) <==> Sound(t)
    ensures IsSound(t) ==> IsConsistent(t)
  {
    assert Unfolded(0);
  }

  /** Consistency is kept, and the held reservations are these. */
  ghost predicate Holds(before: Tables, after: Tables, held: set<ReservationId>) {
    && (IsConsistent(before) ==> IsConsistent(after) && HeldReservations(after) == held)
    && (IsSound(before) ==> IsSound(after))
  }

  lemma IntakeKeeps(t: Tables, op: Op)
    requires op.ReserveOp? || op.GiveBackOp? || op.CreateJobOp? || op.BindOp? || op.TransitionOp?
    ensures IsConsistent(t) ==> IsConsistent(Apply(t, op))
    ensures IsSound(t) ==> IsSound(Apply(t, op))
  {
    var t' := Apply(t, op);
    assert Unfolded(0);
    if Consistent(t) {
      TransactionsKeepConsistent(t, op);
    }
    if Sound(t) {
      TransactionsKeepJobsOk(t, op);
      assert t.jobs.Keys <= t'.jobs.Keys;
      forall a, j | LiveFor(t', a, j) ensures j in t'.jobs {
        assert op.BindOp? || LiveFor(t, a, j);
        assert LiveFor(t, a, j) ==> j in t.jobs;
      }
    }
  }

  /** A successful reservation is the only new one that is held. */
  lemma ReservingHolds(t: Tables, maxConcurrent: int, r: ReservationId)
    ensures var tx := ReservationTransactions.Reserve(t, maxConcurrent, r);
            && (tx.Commit? ==> tx.value in {None, Some(r)})
            && (tx.Commit? && tx.value.Some? ==> r !in HeldReservations(t))
            && HeldReservations(tx.After(t)) ==
               HeldReservations(t) + if tx.Commit? && tx.value.Some? then {r} else {}
  {
  }

  lemma HandoffsStay(t: Tables, t': Tables, jobs: seq<Handoff>)
    requires KeepsRowsOf(t, t') && forall i :: 0 <= i < |jobs| ==> HandedOff(t, jobs[i])
    ensures forall i :: 0 <= i < |jobs| ==> HandedOff(t', jobs[i])
  {
  }

  /** Every reachable state is sound. */
  lemma ReachedIsSound(s: System)
    requires SystemOk(s)
    ensures IsSound(s.tables)
  {
    forall a, j | LiveFor(s.tables, a, j) ensures j in s.tables.jobs {
      assert ViewOk(ViewOf(s, j), s.maxRetries, s.everReplaySafe);
      assert OwnRow(s.tables, a, j);
    }
  }

  // -------------------------------------------------------------------------------------------
  // One round
  // -------------------------------------------------------------------------------------------

  /** A proxy can be reserved: there is room under the bound, and one to choose. */
  ghost predicate HasSlot(t: Tables, concurrency: int) {
    OccupiedSlots(t) < concurrency && exists p :: p in t.proxies && Selectable(t.proxies[p])
  }

  /** There is a job for this application. */
  ghost predicate Known(t: Tables, application: ApplicationId) {
    exists j :: JobFor(t, j, application)
  }

  predicate IsFresh(t: Tables, ids: Ids) {
    ids.job !in t.jobs && ids.allocation !in t.allocations && ids.reservation !in t.reservations
  }

  /** No job and no allocation is touched. */
  predicate NothingTaken(t: Tables, t': Tables) {
    t'.jobs == t.jobs && t'.allocations == t.allocations
  }

  /** Exactly one job is new: that of this application and its user, waiting for its IP, with a reserved allocation
      of its own. */
  predicate IsTaken(t: Tables, t': Tables, ids: Ids, application: ApplicationId, user: Option<UserId>) {
    && ids.job in t'.jobs && t'.jobs == t.jobs[ids.job := t'.jobs[ids.job]]
    && t'.jobs[ids.job].applicationId == application && t'.jobs[ids.job].userId == user
    && t'.jobs[ids.job].state == WaitingForIp && t'.jobs[ids.job].retryCount == 0
    && ids.allocation in t'.allocations && t'.allocations == t.allocations[ids.allocation := t'.allocations[ids.allocation]]
    && t'.allocations[ids.allocation].jobId == ids.job && t'.allocations[ids.allocation].status == AllocReserved
  }

  /** What becomes of a fetch, with a slot in hand. */
  ghost predicate FetchAs(t: Tables, t': Tables, ids: Ids, fetch: Fetch, round: Round, consumed: bool) {
    match fetch
    case FetchFails(error) => round == Thrown(error) && !consumed && NothingTaken(t, t')
    case NothingPending => round == NoApplication && !consumed && NothingTaken(t, t')
    case MappingFails(error) => round == Thrown(error) && consumed && NothingTaken(t, t')
    case EmptyResponse => round == NoContent && consumed && NothingTaken(t, t')
    case Application(id, user) =>
      && consumed
      && (Known(t, id) ==> round == Duplicate && NothingTaken(t, t'))
      && (!Known(t, id) ==> round == Taken(Handoff(ids.job, ids.allocation)) && IsTaken(t, t', ids, id, user))
  }

  /** What a round with fresh identifiers comes to: without a slot, nothing is fetched; with one, the fetch
      decides. */
  ghost predicate RoundAs(
    t: Tables, t': Tables, concurrency: int, ids: Ids, fetch: Fetch, round: Round, consumed: bool)
  {
    && (!HasSlot(t, concurrency) ==> round == NoSlot && !consumed && t' == t)
    && (HasSlot(t, concurrency) ==> FetchAs(t, t', ids, fetch, round, consumed))
    && t'.reservations.Keys <= t.reservations.Keys + {ids.reservation}
  }

  ghost predicate RoundFacts(
    t: Tables, t': Tables, concurrency: int, ids: Ids, fetch: Fetch, round: Round, consumed: bool)
  {
    && (consumed ==> fetch.MappingFails? || fetch.EmptyResponse? || fetch.Application?)
    && (round.NoSlot? || round.NoApplication? ==> !consumed)
    && (round.NoApplication? ==> fetch.NothingPending?) && (round.NoContent? ==> fetch.EmptyResponse?)
    && (round.Duplicate? || round.Taken? ==> fetch.Application?)
    && (round.NoContent? || round.Duplicate? || round.Taken? ==> consumed)
    && (round.Taken? ==>
          && round.handoff == Handoff(ids.job, ids.allocation)
          && HandedOff(t', round.handoff)
          && ids.job !in t.jobs && ids.allocation !in t.allocations)
    && KeepsRowsOf(t, t')
    && Holds(t, t', HeldReservations(t))
    && (IsSound(t) && IsFresh(t, ids) && concurrency >= 1 ==>
          RoundAs(t, t', concurrency, ids, fetch, round, consumed))
  }

  /** The same under a quantifier, so that only proofs that ask for it have to look at it. */
  ghost predicate RoundDone(
    t: Tables, t': Tables, concurrency: int, ids: Ids, fetch: Fetch, round: Round, consumed: bool)
  {
    forall x {:trigger Told(x)} :: Told(x) ==> RoundFacts(t, t', concurrency, ids, fetch, round, consumed)
  }

  /** What becomes of a fetch whose slot is held; on sound tables and with fresh identifiers, exactly that. */
  ghost predicate FetchFacts(t: Tables, t': Tables, ids: Ids, fetch: Fetch, round: Round, consumed: bool) {
    && (consumed <==> fetch.MappingFails? || fetch.EmptyResponse? || fetch.Application?)
    && (round.NoApplication? ==> !consumed)
    && (round.NoContent? || round.Duplicate? || round.Taken? ==> consumed)
    && !round.NoSlot?
    && (round.NoApplication? ==> fetch.NothingPending?) && (round.NoContent? ==> fetch.EmptyResponse?)
    && (round.Duplicate? || round.Taken? ==> fetch.Application?)
    && (round.Taken? ==>
          && round.handoff == Handoff(ids.job, ids.allocation)
          && HandedOff(t', round.handoff)
          && ids.job !in t.jobs && ids.allocation !in t.allocations)
    && KeepsRowsOf(t, t')
    && Holds(t, t', HeldReservations(t) - {ids.reservation})
    && (IsSound(t) && ids.job !in t.jobs && ids.allocation !in t.allocations ==>
          FetchAs(t, t', ids, fetch, round, consumed) && t'.reservations.Keys == t.reservations.Keys)
  }

  ghost predicate FetchDone(t: Tables, t': Tables, ids: Ids, fetch: Fetch, round: Round, consumed: bool) {
    forall x {:trigger Told(x)} :: Told(x) ==> FetchFacts(t, t', ids, fetch, round, consumed)
  }

  // What each transaction of a round means.

  /** A slot: reserved on sound tables, under a fresh identifier, exactly when there is one. */
  ghost predicate SlotReserved(
    t: Tables, t': Tables, concurrency: int, r: ReservationId, result: Result<Option<ReservationId>, Error>)
  {
    && NothingTaken(t, t') && t'.reservations.Keys <= t.reservations.Keys + {r}
    && (result.Success? ==> result.value in {None, Some(r)})
    && (result == Success(Some(r)) ==> r !in HeldReservations(t) && r in HeldReservations(t'))
    && Holds(t, t', HeldReservations(t) + if result == Success(Some(r)) then {r} else {})
    && (IsSound(t) && concurrency >= 1 && r !in t.reservations ==>
          result == (if HasSlot(t, concurrency) then Success(Some(r)) else Success(None)))
    && (result != Success(Some(r)) ==> t' == t)
  }

  lemma ReserveKeeps(t: Tables, concurrency: int, r: ReservationId)
    ensures var t' := ReservationTransactions.Reserve(t, concurrency, r).After(t);
            (IsConsistent(t) ==> IsConsistent(t')) && (IsSound(t) ==> IsSound(t'))
  {
    IntakeKeeps(t, ReserveOp(concurrency, r));
  }

  lemma ReserveHolds(t: Tables, concurrency: int, r: ReservationId)
    ensures var tx := ReservationTransactions.Reserve(t, concurrency, r);
            && Holds(t, tx.After(t), HeldReservations(t) + if tx.Outcome() == Success(Some(r)) then {r} else {})
            && (tx.Commit? ==> tx.value in {None, Some(r)})
            && (tx.Commit? && tx.value.Some? ==>
                  r !in HeldReservations(t) && r in HeldReservations(tx.tables))
  {
    ReserveKeeps(t, concurrency, r);
    ReservingHolds(t, concurrency, r);
  }

  lemma Reserving(t: Tables, concurrency: int, r: ReservationId)
    ensures var tx := ReservationTransactions.Reserve(t, concurrency, r);
            SlotReserved(t, tx.After(t), concurrency, r, tx.Outcome())
  {
    ReserveHolds(t, concurrency, r);
    if IsSound(t) && concurrency >= 1 && r !in t.reservations {
      SlotIsReserved(t, concurrency, r);
    }
  }

  lemma SlotIsReserved(t: Tables, concurrency: int, r: ReservationId)
    requires IsSound(t) && concurrency >= 1 && r !in t.reservations
    ensures var tx := ReservationTransactions.Reserve(t, concurrency, r);
            && tx.Commit?
            && (tx.value.Some? <==> HasSlot(t, concurrency))
  {
    assert Unfolded(0);
    var best := BestAvailable(t.proxies);
    if best.Some? {
      assert IsBest(t.proxies, best.value);
      forall q ensures !HeldOn(t, q, best.value) {
        assert HeldOn(t, q, best.value) ==> ReservationMirrored(t, t.reservations[q]);
      }
    }
  }

  /** A slot given back. */
  ghost predicate SlotReturned(t: Tables, t': Tables, r: ReservationId, result: Result<bool, Error>) {
    && NothingTaken(t, t') && t'.reservations.Keys == t.reservations.Keys
    && Holds(t, t', if r in HeldReservations(t) then HeldReservations(t) - {r} else HeldReservations(t))
    && (IsConsistent(t) && r in HeldReservations(t) ==> result == Success(true))
  }

  lemma GiveBackKeeps(t: Tables, r: ReservationId)
    ensures var t' := ReservationTransactions.GiveBack(t, r).After(t);
            (IsConsistent(t) ==> IsConsistent(t')) && (IsSound(t) ==> IsSound(t'))
  {
    IntakeKeeps(t, GiveBackOp(r));
  }

  lemma NotHeldStays(t: Tables, r: ReservationId)
    requires r !in HeldReservations(t)
    ensures ReservationTransactions.GiveBack(t, r).After(t) == t
  {
  }

  lemma Returning(t: Tables, r: ReservationId)
    ensures var tx := ReservationTransactions.GiveBack(t, r); SlotReturned(t, tx.After(t), r, tx.Outcome())
  {
    GiveBackKeeps(t, r);
    if r !in HeldReservations(t) {
      NotHeldStays(t, r);
    } else if IsConsistent(t) {
      HeldCanReturn(t, r);
    }
  }

  lemma HeldCanReturn(t: Tables, r: ReservationId)
    requires IsConsistent(t) && r in HeldReservations(t)
    ensures var tx := ReservationTransactions.GiveBack(t, r);
            tx.Commit? && tx.value && HeldReservations(tx.tables) == HeldReservations(t) - {r}
  {
    assert Unfolded(0);
    assert ReservationMirrored(t, t.reservations[r]);
  }

  /** A job for an application: the one there is, or on sound tables, under a fresh identifier, a new one. */
  ghost predicate JobCreated(
    t: Tables, t': Tables, application: ApplicationId, user: Option<UserId>, jobId: JobId,
    result: Result<CreatedJob, Error>)
  {
    && (if result.Success? && result.value.created then
          && result.value.jobId == jobId && jobId !in t.jobs
          && t' == t.(jobs := t.jobs[jobId := NewJob(application, user)], claims := t'.claims)
        else t' == t)
    && Holds(t, t', HeldReservations(t))
    && (IsSound(t) && jobId !in t.jobs ==>
          && result.Success? && (result.value.created <==> !Known(t, application))
          && forall a :: !LiveFor(t', a, jobId))
  }

  lemma Creating(t: Tables, application: ApplicationId, user: Option<UserId>, jobId: JobId)
    ensures var tx := CreateOrGetJob(t, application, user, jobId);
            JobCreated(t, tx.After(t), application, user, jobId, tx.Outcome())
  {
    IntakeKeeps(t, CreateJobOp(application, user, jobId));
    if IsSound(t) && jobId !in t.jobs {
      CreationIsDecided(t, application, user, jobId);
    }
  }

  lemma CreationIsDecided(t: Tables, application: ApplicationId, user: Option<UserId>, jobId: JobId)
    requires IsSound(t) && jobId !in t.jobs
    ensures var tx := CreateOrGetJob(t, application, user, jobId);
            && tx.Commit? && (tx.value.created <==> !Known(t, application))
            && forall a :: !LiveFor(tx.tables, a, jobId)
  {
    assert Unfolded(0);
    forall j | ClaimFor(t, j, application) ensures JobFor(t, j, application) {
      assert JobRowOk(t.jobs[j], t.claims[j]);
    }
    if JobOf(t, application).Some? {
      assert JobFor(t, JobOf(t, application).value, application);
    }
    assert forall a :: LiveFor(CreateOrGetJob(t, application, user, jobId).tables, a, jobId) ==> LiveFor(t, a, jobId);
  }

  /** The held slot becomes the IP of a job without one. */
  ghost predicate JobBound(
    t: Tables, t': Tables, r: ReservationId, j: JobId, a: AllocationId, result: Result<AllocationId, Error>)
  {
    && t'.jobs == t.jobs && t'.reservations.Keys == t.reservations.Keys
    && (if result.Success? then
          && result.value == a && a !in t.allocations
          && a in t'.allocations && t'.allocations == t.allocations[a := t'.allocations[a]]
          && t'.allocations[a].jobId == j && t'.allocations[a].status == AllocReserved
          && r in HeldReservations(t)
        else t' == t)
    && Holds(t, t', HeldReservations(t) - if result.Success? then {r} else {})
    && (&& IsSound(t) && r in HeldReservations(t) && j in t.jobs && t.jobs[j].state == Pending
        && a !in t.allocations && (forall b :: !LiveFor(t, b, j))
        ==> result.Success?)
  }

  lemma Binding(t: Tables, r: ReservationId, j: JobId, a: AllocationId)
    ensures var tx := Bind(t, r, j, a); JobBound(t, tx.After(t), r, j, a, tx.Outcome())
  {
    BindHolds(t, r, j, a);
    if IsSound(t) && r in HeldReservations(t) && j in t.jobs && t.jobs[j].state == Pending && a !in t.allocations
       && (forall b :: !LiveFor(t, b, j)) {
      HeldCanBind(t, r, j, a);
    }
  }

  lemma BindHolds(t: Tables, r: ReservationId, j: JobId, a: AllocationId)
    ensures var tx := Bind(t, r, j, a); Holds(t, tx.After(t), HeldReservations(t) - if tx.Commit? then {r} else {})
  {
    BindKeeps(t, r, j, a);
  }

  lemma BindKeeps(t: Tables, r: ReservationId, j: JobId, a: AllocationId)
    ensures var t' := Bind(t, r, j, a).After(t);
            (IsConsistent(t) ==> IsConsistent(t')) && (IsSound(t) ==> IsSound(t'))
  {
    IntakeKeeps(t, BindOp(r, j, a));
  }

  lemma HeldCanBind(t: Tables, r: ReservationId, j: JobId, a: AllocationId)
    requires IsSound(t) && r in HeldReservations(t) && j in t.jobs && t.jobs[j].state == Pending
    requires a !in t.allocations && forall b :: !LiveFor(t, b, j)
    ensures Bind(t, r, j, a).Commit?
  {
    assert Unfolded(0);
    assert HeldOn(t, r, t.reservations[r].proxyId);
  }

  /** PENDING, then CLAIMED, then WAITING_FOR_IP. */
  function Announced(t: Tables, j: JobId, now: Time): Tables {
    var t1 := TransitionJob(t, j, Claimed, NO_PATCH, None, now).After(t);
    TransitionJob(t1, j, WaitingForIp, NO_PATCH, None, now).After(t1)
  }

  /** The new job waits for its IP. */
  ghost predicate JobAnnounced(t: Tables, t': Tables, j: JobId) {
    && j in t.jobs
    && t' == t.(jobs := t.jobs[j := t.jobs[j].(state := WaitingForIp, version := t.jobs[j].version + 2)])
    && Holds(t, t', HeldReservations(t))
  }

  lemma Announcing(t: Tables, j: JobId, now: Time)
    requires j in t.jobs && t.jobs[j].state == Pending
    ensures JobAnnounced(t, Announced(t, j, now), j)
  {
    var t1 := TransitionJob(t, j, Claimed, NO_PATCH, None, now).After(t);
    IntakeKeeps(t, TransitionOp(j, Claimed, NO_PATCH, None, now));
    IntakeKeeps(t1, TransitionOp(j, WaitingForIp, NO_PATCH, None, now));
  }

  // How a round ends.

  /** Nothing was fetched into a job: the slot was given back. */
  lemma NothingFetched(
    t: Tables, t': Tables, ids: Ids, fetch: Fetch, round: Round, consumed: bool, released: Result<bool, Error>)
    requires !fetch.Application? && ids.reservation in HeldReservations(t)
    requires consumed <==> fetch.MappingFails? || fetch.EmptyResponse?
    requires SlotReturned(t, t', ids.reservation, released)
    requires match fetch
             case FetchFails(error) => round == Thrown(error)
             case NothingPending => if released.Success? then round == NoApplication else round.Thrown?
             case MappingFails(error) => round == Thrown(error)
             case EmptyResponse => if released.Success? then round == NoContent else round.Thrown?
             case _ => true
    ensures FetchDone(t, t', ids, fetch, round, consumed)
  {
    SoundIsConsistent(t);
  }

  /** The application is known, or its job could not be created. */
  lemma NoNewJob(
    t: Tables, t': Tables, ids: Ids, application: ApplicationId, user: Option<UserId>, round: Round,
    created: Result<CreatedJob, Error>, released: Result<bool, Error>)
    requires ids.reservation in HeldReservations(t)
    requires JobCreated(t, t, application, user, ids.job, created) && !(created.Success? && created.value.created)
    requires SlotReturned(t, t', ids.reservation, released)
    requires if created.Success? && released.Success? then round == Duplicate else round.Thrown?
    ensures FetchDone(t, t', ids, Application(application, user), round, true)
  {
    SoundIsConsistent(t);
  }

  /** The slot could not be bound to the new job. */
  lemma NotBound(
    t: Tables, t1: Tables, t': Tables, ids: Ids, application: ApplicationId, user: Option<UserId>, error: Error,
    created: Result<CreatedJob, Error>, bound: Result<AllocationId, Error>, released: Result<bool, Error>)
    requires ids.reservation in HeldReservations(t)
    requires JobCreated(t, t1, application, user, ids.job, created) && created.Success? && created.value.created
    requires JobBound(t1, t1, ids.reservation, ids.job, ids.allocation, bound) && bound.Failure?
    requires SlotReturned(t1, t', ids.reservation, released)
    ensures FetchDone(t, t', ids, Application(application, user), Thrown(error), true)
  {
    assert HeldReservations(t1) == HeldReservations(t);
  }

  /** The job is created, bound, claimed and made to wait for its IP. */
  lemma TakenAndAnnounced(
    t: Tables, t1: Tables, t2: Tables, t': Tables, ids: Ids, application: ApplicationId, user: Option<UserId>,
    created: Result<CreatedJob, Error>, bound: Result<AllocationId, Error>)
    requires JobCreated(t, t1, application, user, ids.job, created) && created.Success? && created.value.created
    requires JobBound(t1, t2, ids.reservation, ids.job, ids.allocation, bound) && bound.Success?
    requires JobAnnounced(t2, t', ids.job)
    ensures FetchDone(t, t', ids, Application(application, user), Taken(Handoff(ids.job, ids.allocation)), true)
  {
    assert HeldReservations(t1) == HeldReservations(t);
  }

  /** The round ended before anything was fetched. */
  lemma NothingReserved(
    t: Tables, t': Tables, concurrency: int, ids: Ids, fetch: Fetch, round: Round,
    reserved: Result<Option<ReservationId>, Error>)
    requires SlotReserved(t, t', concurrency, ids.reservation, reserved)
    requires if reserved.Failure? then round.Thrown? else reserved.value.None? && round == NoSlot
    ensures RoundDone(t, t', concurrency, ids, fetch, round, false)
  {
  }

  /** First the slot, then the fetch. */
  lemma ReservedThenFetched(
    t: Tables, t1: Tables, t': Tables, concurrency: int, ids: Ids, fetch: Fetch, round: Round, consumed: bool)
    requires SlotReserved(t, t1, concurrency, ids.reservation, Success(Some(ids.reservation)))
    requires FetchDone(t1, t', ids, fetch, round, consumed)
    ensures RoundDone(t, t', concurrency, ids, fetch, round, consumed)
  {
    assert FetchFacts(t1, t', ids, fetch, round, consumed) by {
      assert Told(0);
    }
    SlotIsUsed(t, t1, t', ids.reservation);
    if IsSound(t) && IsFresh(t, ids) && concurrency >= 1 {
      FetchDecidesRound(t, t1, t', concurrency, ids, fetch, round, consumed);
    }
  }

  /** The slot is reserved and then no longer held. */
  lemma SlotIsUsed(t: Tables, t1: Tables, t': Tables, r: ReservationId)
    requires NothingTaken(t, t1) && KeepsRowsOf(t1, t')
    requires r !in HeldReservations(t)
    requires Holds(t, t1, HeldReservations(t) + {r}) && Holds(t1, t', HeldReservations(t1) - {r})
    ensures KeepsRowsOf(t, t') && Holds(t, t', HeldReservations(t))
  {
    assert HeldReservations(t) + {r} - {r} == HeldReservations(t);
  }

  lemma FetchDecidesRound(
    t: Tables, t1: Tables, t': Tables, concurrency: int, ids: Ids, fetch: Fetch, round: Round, consumed: bool)
    requires IsSound(t) && IsFresh(t, ids) && concurrency >= 1
    requires SlotReserved(t, t1, concurrency, ids.reservation, Success(Some(ids.reservation)))
    requires FetchFacts(t1, t', ids, fetch, round, consumed)
    ensures RoundAs(t, t', concurrency, ids, fetch, round, consumed)
  {
    assert FetchAs(t1, t', ids, fetch, round, consumed) by {
      SoundIsConsistent(t);
    }
    if fetch.Application? {
      SameJobsKnow(t, t1, fetch.id);
    }
  }

  lemma SameJobsKnow(t: Tables, t': Tables, application: ApplicationId)
    requires t'.jobs == t.jobs
    ensures Known(t', application) <==> Known(t, application)
  {
    assert forall j :: JobFor(t', j, application) <==> JobFor(t, j, application);
  }

  // -------------------------------------------------------------------------------------------
  // A cycle
  // -------------------------------------------------------------------------------------------

  /** Identifiers that nothing uses, and no two rounds share. */
  predicate Distinct(x: Ids, y: Ids) {
    x.job != y.job && x.allocation != y.allocation && x.reservation != y.reservation
  }

  ghost predicate AllFresh(t: Tables, ids: nat -> Ids) {
    && (forall i: nat :: IsFresh(t, ids(i)))
    && (forall i: nat, k: nat :: i < k ==> Distinct(ids(i), ids(k)))
  }

  /** The application of fetch i is new: there was no job for it, and no earlier fetch brought it. */
  ghost predicate IsNew(t: Tables, fetches: nat -> Fetch, i: nat) {
    && fetches(i).Application?
    && !Known(t, fetches(i).id)
    && forall k: nat :: k < i && fetches(k).Application? ==> fetches(k).id != fetches(i).id
  }

  ghost function NewOnes(t: Tables, fetches: nat -> Fetch, m: nat): set<nat> {
    set i: nat | i < m && IsNew(t, fetches, i)
  }

  /** The jobs that the new applications among the first m fetches become, in order. */
  ghost function HandoffsOf(t: Tables, ids: nat -> Ids, fetches: nat -> Fetch, m: nat): (jobs: seq<Handoff>)
    ensures |jobs| <= m
  {
    if m == 0 then []
    else
      HandoffsOf(t, ids, fetches, m - 1)
      + if IsNew(t, fetches, m - 1) then [Handoff(ids(m - 1).job, ids(m - 1).allocation)] else []
  }

  /** The job of fetch i: that application, for that user, waiting for its IP. */
  predicate IsJobOf(t: Tables, id: Ids, fetch: Fetch) {
    && fetch.Application? && id.job in t.jobs
    && t.jobs[id.job].applicationId == fetch.id && t.jobs[id.job].userId == fetch.user
    && t.jobs[id.job].state == WaitingForIp
  }

  /** The fetches of these rounds have their jobs. */
  predicate HaveJobs(t: Tables, ids: nat -> Ids, fetches: nat -> Fetch, rounds: set<nat>) {
    forall i {:trigger i in rounds} :: i in rounds ==> IsJobOf(t, ids(i), fetches(i))
  }

  /** The job was there, or it is one of these rounds'. */
  ghost predicate Accounted(t: Tables, ids: nat -> Ids, rounds: set<nat>, j: JobId) {
    j in t.jobs || exists i :: i in rounds && ids(i).job == j
  }

  ghost predicate OnlyThese(t: Tables, t': Tables, ids: nat -> Ids, rounds: set<nat>) {
    forall j {:trigger Accounted(t, ids, rounds, j)} :: j in t'.jobs ==> Accounted(t, ids, rounds, j)
  }

  /** The first m fetches all brought applications: every new one of them has its job, handed off in order, and no
      other job is new. */
  ghost predicate Taking(
    t: Tables, t': Tables, ids: nat -> Ids, fetches: nat -> Fetch, m: nat, jobs: seq<Handoff>)
  {
    && (forall i: nat :: i < m ==> fetches(i).Application?)
    && jobs == HandoffsOf(t, ids, fetches, m)
    && HaveJobs(t', ids, fetches, NewOnes(t, fetches, m))
    && OnlyThese(t, t', ids, NewOnes(t, fetches, m))
  }

  /** What a cycle from sound tables with fresh identifiers comes to. It goes through m fetches that all bring
      applications, and then ends: because its capacity is used up, because no slot is left, because nothing is
      pending, or because the response is empty; or it throws what a fetch or a mapping throws. What it counts as
      created are the new applications, as duplicates the known ones. */
  ghost predicate EndsAfter(
    t: Tables, t': Tables, concurrency: int, capacity: nat, ids: nat -> Ids, fetches: nat -> Fetch, m: nat,
    r: Result<Summary, Error>)
  {
    && m <= capacity
    && Taking(t, t', ids, fetches, m, HandoffsOf(t, ids, fetches, m))
    && match r
       case Success(s) =>
         && s.jobs == HandoffsOf(t, ids, fetches, m)
         && s.created == |s.jobs| && s.duplicates == m - |s.jobs|
         && (|| (s.consumed == m && m == capacity)
             || (s.consumed == m && m < capacity && !HasSlot(t', concurrency))
             || (s.consumed == m && m < capacity && fetches(m).NothingPending?)
             || (s.consumed == m + 1 && m < capacity && fetches(m).EmptyResponse?))
       case Failure(error) =>
         && m < capacity
         && (fetches(m) == FetchFails(error) || fetches(m) == MappingFails(error))
  }

  ghost predicate CycleAs(
    t: Tables, t': Tables, concurrency: int, capacity: nat, ids: nat -> Ids, fetches: nat -> Fetch,
    r: Result<Summary, Error>)
  {
    exists m: nat :: EndsAfter(t, t', concurrency, capacity, ids, fetches, m, r)
  }

  /** Where a cycle stands after m rounds; under a quantifier, so that only proofs that ask for it have to look. */
  ghost predicate CycleFacts(
    t: Tables, t': Tables, concurrency: int, ids: nat -> Ids, fetches: nat -> Fetch, m: nat, jobs: seq<Handoff>)
  {
    && Holds(t, t', HeldReservations(t))
    && KeepsRowsOf(t, t')
    && (forall i :: 0 <= i < |jobs| ==> HandedOff(t', jobs[i]))
    && (forall i, k :: 0 <= i < k < |jobs| ==>
          jobs[i].jobId != jobs[k].jobId && jobs[i].allocationId != jobs[k].allocationId)
    && (IsSound(t) && AllFresh(t, ids) && concurrency >= 1 ==>
          && Taking(t, t', ids, fetches, m, jobs)
          && (forall i: nat :: i < m ==> Known(t', fetches(i).id))
          && (forall i: nat :: i >= m ==> IsFresh(t', ids(i))))
  }

  ghost predicate CycleSoFar(
    t: Tables, t': Tables, concurrency: int, ids: nat -> Ids, fetches: nat -> Fetch, m: nat, jobs: seq<Handoff>)
  {
    forall x {:trigger Told(x)} :: Told(x) ==> CycleFacts(t, t', concurrency, ids, fetches, m, jobs)
  }

  lemma NothingTakenYet(t: Tables, concurrency: int, ids: nat -> Ids, fetches: nat -> Fetch)
    ensures CycleSoFar(t, t, concurrency, ids, fetches, 0, [])
  {
  }

  /** After m applications, another one is new exactly when it is not known by then. */
  lemma NewIsUnknown(
    t: Tables, t1: Tables, ids: nat -> Ids, fetches: nat -> Fetch, m: nat, jobs: seq<Handoff>)
    requires KeepsRowsOf(t, t1) && Taking(t, t1, ids, fetches, m, jobs)
    requires forall i: nat :: i < m ==> Known(t1, fetches(i).id)
    requires fetches(m).Application?
    ensures IsNew(t, fetches, m) <==> !Known(t1, fetches(m).id)
  {
    var id := fetches(m).id;
    if Known(t, id) {
      var j :| JobFor(t, j, id);
      assert JobFor(t1, j, id);
    }
    if Known(t1, id) && !Known(t, id) {
      var j :| JobFor(t1, j, id);
      assert j in t.jobs ==> JobFor(t, j, id);
      assert Accounted(t, ids, NewOnes(t, fetches, m), j);
      var i :| i in NewOnes(t, fetches, m) && ids(i).job == j;
      assert IsJobOf(t1, ids(i), fetches(i));
    }
  }

  lemma KnownStays(t: Tables, t': Tables, application: ApplicationId)
    requires KeepsRowsOf(t, t') && Known(t, application)
    ensures Known(t', application)
  {
    var j :| JobFor(t, j, application);
    assert JobFor(t', j, application);
  }

  /** The application that round m meets is known afterwards, as the earlier ones are. */
  lemma AllMetAreKnown(
    t1: Tables, t2: Tables, id: Ids, fetches: nat -> Fetch, m: nat)
    requires KeepsRowsOf(t1, t2) && fetches(m).Application?
    requires forall i: nat :: i < m ==> fetches(i).Application? && Known(t1, fetches(i).id)
    requires Known(t1, fetches(m).id) || IsJobOf(t2, id, fetches(m))
    ensures forall i: nat :: i < m + 1 ==> Known(t2, fetches(i).id)
  {
    forall i: nat | i < m + 1 ensures Known(t2, fetches(i).id) {
      if Known(t1, fetches(i).id) {
        KnownStays(t1, t2, fetches(i).id);
      } else {
        assert JobFor(t2, id.job, fetches(i).id);
      }
    }
  }

  lemma JobsStay(t: Tables, t': Tables, id: Ids, fetch: Fetch)
    requires KeepsRowsOf(t, t') && IsJobOf(t, id, fetch)
    ensures IsJobOf(t', id, fetch)
  {
  }

  /** An application that is not known is taken, and the others stay where they are. */
  lemma TakingGoesOn(
    t: Tables, t1: Tables, t2: Tables, ids: nat -> Ids, fetches: nat -> Fetch, m: nat, jobs: seq<Handoff>,
    later: seq<Handoff>)
    requires KeepsRowsOf(t1, t2) && Taking(t, t1, ids, fetches, m, jobs)
    requires fetches(m).Application?
    requires if IsNew(t, fetches, m) then
               && t2.jobs.Keys == t1.jobs.Keys + {ids(m).job} && IsJobOf(t2, ids(m), fetches(m))
               && later == jobs + [Handoff(ids(m).job, ids(m).allocation)]
             else t2.jobs == t1.jobs && later == jobs
    ensures Taking(t, t2, ids, fetches, m + 1, later)
  {
    NewOnesGrow(t, fetches, m);
    TakenJobsStay(t1, t2, ids, fetches, m, NewOnes(t, fetches, m), NewOnes(t, fetches, m + 1));
    NoOtherJobs(t, t1, t2, ids, m, NewOnes(t, fetches, m), NewOnes(t, fetches, m + 1));
  }

  lemma TakenJobsStay(
    t1: Tables, t2: Tables, ids: nat -> Ids, fetches: nat -> Fetch, m: nat, news: set<nat>, later: set<nat>)
    requires KeepsRowsOf(t1, t2) && HaveJobs(t1, ids, fetches, news)
    requires news <= later <= news + {m} && (m in later ==> IsJobOf(t2, ids(m), fetches(m)))
    ensures HaveJobs(t2, ids, fetches, later)
  {
    forall i | i in later ensures IsJobOf(t2, ids(i), fetches(i)) {
      if i in news {
        JobsStay(t1, t2, ids(i), fetches(i));
      }
    }
  }

  lemma NoOtherJobs(t: Tables, t1: Tables, t2: Tables, ids: nat -> Ids, m: nat, news: set<nat>, later: set<nat>)
    requires OnlyThese(t, t1, ids, news)
    requires news <= later && t2.jobs.Keys <= t1.jobs.Keys + if m in later then {ids(m).job} else {}
    ensures OnlyThese(t, t2, ids, later)
  {
    forall j | j in t2.jobs ensures Accounted(t, ids, later, j) {
      if j in t1.jobs {
        assert Accounted(t, ids, news, j);
        assert j !in t.jobs ==> exists i :: i in later && ids(i).job == j;
      } else {
        assert m in later && ids(m).job == j;
      }
    }
  }

  lemma NewOnesGrow(t: Tables, fetches: nat -> Fetch, m: nat)
    ensures NewOnes(t, fetches, m + 1) == NewOnes(t, fetches, m) + if IsNew(t, fetches, m) then {m} else {}
  {
  }

  /** What a round on sound tables adds. */
  lemma RoundGoesOn(
    t: Tables, t1: Tables, t2: Tables, concurrency: int, ids: nat -> Ids, fetches: nat -> Fetch, m: nat,
    jobs: seq<Handoff>, round: Round, consumed: bool)
    requires IsSound(t) && AllFresh(t, ids) && concurrency >= 1
    requires CycleFacts(t, t1, concurrency, ids, fetches, m, jobs)
    requires RoundFacts(t1, t2, concurrency, ids(m), fetches(m), round, consumed) && (round.Taken? || round.Duplicate?)
    ensures Taking(t, t2, ids, fetches, m + 1, if round.Taken? then jobs + [round.handoff] else jobs)
    ensures forall i: nat :: i < m + 1 ==> Known(t2, fetches(i).id)
    ensures forall i: nat :: i >= m + 1 ==> IsFresh(t2, ids(i))
  {
    assert IsFresh(t1, ids(m));
    assert RoundAs(t1, t2, concurrency, ids(m), fetches(m), round, consumed);
    NewIsUnknown(t, t1, ids, fetches, m, jobs);
    AllMetAreKnown(t1, t2, ids(m), fetches, m);
    TakingGoesOn(t, t1, t2, ids, fetches, m, jobs, if round.Taken? then jobs + [round.handoff] else jobs);
    forall i: nat | i >= m + 1 ensures IsFresh(t2, ids(i)) {
      assert IsFresh(t1, ids(i)) && Distinct(ids(m), ids(i));
    }
  }

  /** One more application. */
  lemma OneMoreApplication(
    t: Tables, t1: Tables, t2: Tables, concurrency: int, ids: nat -> Ids, fetches: nat -> Fetch, m: nat,
    jobs: seq<Handoff>, round: Round, consumed: bool)
    requires CycleSoFar(t, t1, concurrency, ids, fetches, m, jobs)
    requires RoundDone(t1, t2, concurrency, ids(m), fetches(m), round, consumed) && (round.Taken? || round.Duplicate?)
    ensures consumed
    ensures CycleSoFar(t, t2, concurrency, ids, fetches, m + 1, if round.Taken? then jobs + [round.handoff] else jobs)
  {
    var later := if round.Taken? then jobs + [round.handoff] else jobs;
    assert CycleFacts(t, t1, concurrency, ids, fetches, m, jobs)
           && RoundFacts(t1, t2, concurrency, ids(m), fetches(m), round, consumed) by {
      assert Told(0);
    }
    MoreHandoffs(t, t1, t2, concurrency, ids, fetches, m, jobs, round, consumed);
    if IsSound(t) && AllFresh(t, ids) && concurrency >= 1 {
      RoundGoesOn(t, t1, t2, concurrency, ids, fetches, m, jobs, round, consumed);
    }
    assert CycleFacts(t, t2, concurrency, ids, fetches, m + 1, later);
  }

  lemma MoreHandoffs(
    t: Tables, t1: Tables, t2: Tables, concurrency: int, ids: nat -> Ids, fetches: nat -> Fetch, m: nat,
    jobs: seq<Handoff>, round: Round, consumed: bool)
    requires CycleFacts(t, t1, concurrency, ids, fetches, m, jobs)
    requires RoundFacts(t1, t2, concurrency, ids(m), fetches(m), round, consumed) && (round.Taken? || round.Duplicate?)
    ensures var later := if round.Taken? then jobs + [round.handoff] else jobs;
            && (forall i :: 0 <= i < |later| ==> HandedOff(t2, later[i]))
            && (forall i, k :: 0 <= i < k < |later| ==>
                  later[i].jobId != later[k].jobId && later[i].allocationId != later[k].allocationId)
  {
    HandoffsStay(t1, t2, jobs);
  }

  /** One round each way, so far. */
  predicate Counts(s: Summary, m: nat, capacity: nat) {
    && s.consumed == m && s.created == |s.jobs| && s.created + s.duplicates == m && s.effectiveCapacity == capacity
  }

  /** As many jobs are handed off as there are new applications. */
  lemma {:induction false} NewOnesAreHandedOff(t: Tables, ids: nat -> Ids, fetches: nat -> Fetch, m: nat)
    ensures |HandoffsOf(t, ids, fetches, m)| == |NewOnes(t, fetches, m)|
  {
    if m > 0 {
      NewOnesAreHandedOff(t, ids, fetches, m - 1);
      NewOnesGrow(t, fetches, m - 1);
      assert m - 1 !in NewOnes(t, fetches, m - 1);
    } else {
      assert NewOnes(t, fetches, 0) == {};
    }
  }

  /** What one round means for its cycle. */
  datatype CycleStep = GoesOn(sofar: Summary) | Ends(r: Result<Summary, Error>)

  /** What a cycle comes to: counters within bounds, distinct jobs with their IPs, no reservation left behind; and
      from sound tables with fresh identifiers exactly what the fetches say. */
  ghost predicate CycleEnd(
    t: Tables, t': Tables, concurrency: int, capacity: nat, ids: nat -> Ids, fetches: nat -> Fetch,
    r: Result<Summary, Error>)
  {
    && Holds(t, t', HeldReservations(t))
    && KeepsRowsOf(t, t')
    && (r.Success? ==>
          && var s := r.value;
          && s.effectiveCapacity == capacity
          && s.created + s.duplicates <= s.consumed <= s.created + s.duplicates + 1
          && s.consumed <= capacity
          && |s.jobs| == s.created
          && (forall i :: 0 <= i < |s.jobs| ==> HandedOff(t', s.jobs[i]))
          && (forall i, k :: 0 <= i < k < |s.jobs| ==>
                s.jobs[i].jobId != s.jobs[k].jobId && s.jobs[i].allocationId != s.jobs[k].allocationId))
    && (IsSound(t) && AllFresh(t, ids) && concurrency >= 1 ==>
          CycleAs(t, t', concurrency, capacity, ids, fetches, r))
  }

  ghost predicate CycleDone(
    t: Tables, t': Tables, concurrency: int, capacity: nat, ids: nat -> Ids, fetches: nat -> Fetch,
    r: Result<Summary, Error>)
  {
    forall x {:trigger Told(x)} :: Told(x) ==> CycleEnd(t, t', concurrency, capacity, ids, fetches, r)
  }

  /** The capacity is used up. */
  lemma CapacityUsedUp(
    t: Tables, t': Tables, concurrency: int, capacity: nat, ids: nat -> Ids, fetches: nat -> Fetch, s: Summary)
    requires CycleSoFar(t, t', concurrency, ids, fetches, capacity, s.jobs) && Counts(s, capacity, capacity)
    ensures CycleDone(t, t', concurrency, capacity, ids, fetches, Success(s))
  {
    assert CycleEnd(t, t', concurrency, capacity, ids, fetches, Success(s)) by {
      assert Told(0);
      if IsSound(t) && AllFresh(t, ids) && concurrency >= 1 {
        assert EndsAfter(t, t', concurrency, capacity, ids, fetches, capacity, Success(s));
      }
    }
  }

  /** What a last round leaves as it is. */
  lemma LastRoundTakesNothing(
    t: Tables, t1: Tables, t2: Tables, concurrency: int, ids: nat -> Ids, fetches: nat -> Fetch, m: nat,
    jobs: seq<Handoff>, round: Round, consumed: bool)
    requires IsSound(t) && AllFresh(t, ids) && concurrency >= 1
    requires CycleFacts(t, t1, concurrency, ids, fetches, m, jobs)
    requires RoundFacts(t1, t2, concurrency, ids(m), fetches(m), round, consumed) && !round.Taken? && !round.Duplicate?
    ensures Taking(t, t2, ids, fetches, m, jobs)
    ensures RoundAs(t1, t2, concurrency, ids(m), fetches(m), round, consumed)
  {
    assert IsFresh(t1, ids(m));
    assert t2.jobs == t1.jobs;
    forall i | i in NewOnes(t, fetches, m) ensures IsJobOf(t2, ids(i), fetches(i)) {
      assert IsJobOf(t1, ids(i), fetches(i));
    }
  }

  /** The cycle ends with this round: nothing more to take, or something thrown. */
  lemma CycleEnds(
    t: Tables, t1: Tables, t2: Tables, concurrency: int, capacity: nat, ids: nat -> Ids, fetches: nat -> Fetch, m: nat,
    s: Summary, round: Round, consumed: bool)
    requires m < capacity && Counts(s, m, capacity) && CycleSoFar(t, t1, concurrency, ids, fetches, m, s.jobs)
    requires RoundDone(t1, t2, concurrency, ids(m), fetches(m), round, consumed)
    requires round.NoSlot? || round.NoApplication? || round.NoContent?
    ensures CycleDone(t, t2, concurrency, capacity, ids, fetches,
                      Success(s.(consumed := if consumed then s.consumed + 1 else s.consumed)))
  {
    var r := Success(s.(consumed := if consumed then s.consumed + 1 else s.consumed));
    assert CycleEnd(t, t2, concurrency, capacity, ids, fetches, r) by {
      assert Told(0);
      HandoffsStay(t1, t2, s.jobs);
      if IsSound(t) && AllFresh(t, ids) && concurrency >= 1 {
        LastRoundTakesNothing(t, t1, t2, concurrency, ids, fetches, m, s.jobs, round, consumed);
        assert EndsAfter(t, t2, concurrency, capacity, ids, fetches, m, r);
      }
    }
  }

  lemma CycleThrows(
    t: Tables, t1: Tables, t2: Tables, concurrency: int, capacity: nat, ids: nat -> Ids, fetches: nat -> Fetch, m: nat,
    jobs: seq<Handoff>, error: Error, consumed: bool)
    requires m < capacity && CycleSoFar(t, t1, concurrency, ids, fetches, m, jobs)
    requires RoundDone(t1, t2, concurrency, ids(m), fetches(m), Thrown(error), consumed)
    ensures CycleDone(t, t2, concurrency, capacity, ids, fetches, Failure(error))
  {
    assert CycleEnd(t, t2, concurrency, capacity, ids, fetches, Failure(error)) by {
      assert Told(0);
      if IsSound(t) && AllFresh(t, ids) && concurrency >= 1 {
        LastRoundTakesNothing(t, t1, t2, concurrency, ids, fetches, m, jobs, Thrown(error), consumed);
        assert EndsAfter(t, t2, concurrency, capacity, ids, fetches, m, Failure(error));
      }
    }
  }

  lemma CycleEndOf(
    t: Tables, t': Tables, concurrency: int, capacity: nat, ids: nat -> Ids, fetches: nat -> Fetch,
    r: Result<Summary, Error>)
    requires CycleDone(t, t', concurrency, capacity, ids, fetches, r)
    ensures CycleEnd(t, t', concurrency, capacity, ids, fetches, r)
  {
    assert Told(0);
  }
}

/** One intake cycle: reserve a proxy, fetch an application, create its job and bind the proxy
    (src/portal/portal-intake-service.js). */
module PortalIntakeServices {
  import opened Wrappers
  import opened JobStates
  import opened ProxyStates
  import opened Schema
  import opened ProxyRows
  import opened JobTransactions
  import opened AllocationTransactions
  import opened ReservationTransactions
  import opened IntakeReservationStores
  import opened Transactions
  import opened Ownership
  import opened SystemModel
  import opened SystemInvariant
  import opened SystemSteps
  import opened Runtimes
  import opened Capacity
  import opened IntakeRounds

  class PortalIntakeService {
    const runtime: Runtime
    const reservations: IntakeReservationStore
    const configuredConcurrency: int
    const jobsPerCycle: int

    ghost predicate Valid()
      reads this, runtime, runtime.database
    {
      && runtime.Valid() && reservations.database == runtime.database
      && runtime.system.phase == Serving
    }

    constructor (runtime: Runtime, configuredConcurrency: int, jobsPerCycle: int)
      ensures this.runtime == runtime && reservations.database == runtime.database
      ensures this.configuredConcurrency == configuredConcurrency && this.jobsPerCycle == jobsPerCycle
    {
      this.runtime := runtime;
      this.configuredConcurrency := configuredConcurrency;
      this.jobsPerCycle := jobsPerCycle;
      this.reservations := new IntakeReservationStore(runtime.database);
    }

    /** The machine's side of each transaction below. */
    ghost method NoteStep(t: Tables, step: IntakeStep, op: Op, committed: IntakePc, failed: IntakePc)
      requires runtime.jobStore.database == runtime.database && runtime.allocator.database == runtime.database
      requires runtime.ledger.database == runtime.database && runtime.recoveries.database == runtime.database
      requires IsRun(runtime.origin, runtime.log, runtime.system) && runtime.system.tables == t
      requires reservations.database == runtime.database && runtime.system.phase == Serving
      requires IntakeStepOf(runtime.system, step) == IntakeEffect(Some(op), committed, failed)
      requires runtime.database.Contents() == Apply(t, op)
      modifies runtime`log, runtime`system
      ensures Valid()
      ensures runtime.system.intake == if Commits(t, op) then committed else failed
    {
      runtime.Step(Intake(step));
    }

    method Reserve(r: ReservationId) returns (result: Result<Option<ReservationId>, Error>)
      requires Valid() && runtime.system.intake == NoIntake && configuredConcurrency >= 0
      modifies runtime, runtime.database
      ensures Valid()
      ensures runtime.system.intake == if result == Success(Some(r)) then HoldingSlot(r) else NoIntake
      ensures SlotReserved(old(runtime.database.Contents()), runtime.database.Contents(), configuredConcurrency, r, result)
    {
      ghost var t := runtime.database.Contents();
      result := reservations.ReserveOne(configuredConcurrency, r);
      ghost var tx := ReservationTransactions.Reserve(t, configuredConcurrency, r);
      NoteStep(t, ReserveStep(configuredConcurrency, r), ReserveOp(configuredConcurrency, r),
               if tx.Commit? && tx.value.Some? then HoldingSlot(r) else NoIntake, NoIntake);
      Reserving(t, configuredConcurrency, r);
    }

    /** A reservation that is still held can be given back. */
    method GiveBack(r: ReservationId) returns (result: Result<bool, Error>)
      requires Valid()
      requires runtime.system.intake == HoldingSlot(r)
               || (runtime.system.intake.CreatedJobPc? && runtime.system.intake.r == r)
      modifies runtime, runtime.database
      ensures Valid() && runtime.system.intake == NoIntake
      ensures SlotReturned(old(runtime.database.Contents()), runtime.database.Contents(), r, result)
    {
      ghost var t := runtime.database.Contents();
      result := reservations.ReleaseReservation(r);
      NoteStep(t, GiveBackStep, GiveBackOp(r), NoIntake, NoIntake);
      Returning(t, r);
    }

    method Create(r: ReservationId, application: ApplicationId, user: Option<UserId>, jobId: JobId)
      returns (result: Result<CreatedJob, Error>)
      requires Valid() && runtime.system.intake == HoldingSlot(r)
      modifies runtime, runtime.database
      ensures Valid()
      ensures runtime.system.intake ==
              if result.Success? && result.value.created then CreatedJobPc(r, jobId) else HoldingSlot(r)
      ensures JobCreated(old(runtime.database.Contents()), runtime.database.Contents(), application, user, jobId, result)
    {
      ghost var t := runtime.database.Contents();
      result := runtime.jobStore.CreateOrGet(application, user, jobId);
      ghost var tx := CreateOrGetJob(t, application, user, jobId);
      NoteStep(t, CreateStep(application, user, jobId), CreateJobOp(application, user, jobId),
               if tx.Commit? && tx.value.created then CreatedJobPc(r, jobId) else HoldingSlot(r), HoldingSlot(r));
      Creating(t, application, user, jobId);
    }

    method Bind(r: ReservationId, j: JobId, a: AllocationId) returns (result: Result<AllocationId, Error>)
      requires Valid() && runtime.system.intake == CreatedJobPc(r, j)
      modifies runtime, runtime.database
      ensures Valid()
      ensures runtime.system.intake == if result.Success? then BoundJobPc(j) else CreatedJobPc(r, j)
      ensures JobBound(old(runtime.database.Contents()), runtime.database.Contents(), r, j, a, result)
    {
      ghost var t := runtime.database.Contents();
      result := reservations.BindToJob(r, j, a);
      NoteStep(t, BindStep(a), BindOp(r, j, a), BoundJobPc(j), CreatedJobPc(r, j));
      Binding(t, r, j, a);
    }

    /** PENDING to CLAIMED, or CLAIMED to WAITING_FOR_IP. */
    method Forward(j: JobId, to: JobState, now: Time) returns (result: Result<Job, Error>)
      requires Valid()
      requires || (runtime.system.intake == BoundJobPc(j) && to == Claimed)
               || (runtime.system.intake == ClaimedJobPc(j) && to == WaitingForIp)
      modifies runtime, runtime.database
      ensures Valid()
      ensures runtime.system.intake == if result.Success? && to == Claimed then ClaimedJobPc(j) else NoIntake
      ensures result.Success? <==>
                j in old(runtime.database.jobs) && CanTransition(old(runtime.database.jobs)[j].state, to)
      ensures result.Success? ==> j in runtime.database.jobs && runtime.database.jobs[j].state == to
      ensures var tx := TransitionJob(old(runtime.database.Contents()), j, to, NO_PATCH, None, now);
              runtime.database.Contents() == tx.After(old(runtime.database.Contents())) && result == tx.Outcome()
    {
      ghost var t := runtime.database.Contents();
      result := runtime.jobStore.Transition(j, to, NO_PATCH, None, now);
      NoteStep(t, if to == Claimed then ClaimStep(now) else WaitStep(now), TransitionOp(j, to, NO_PATCH, None, now),
               if to == Claimed then ClaimedJobPc(j) else NoIntake, NoIntake);
    }

    /** The new job, bound to the proxy, becomes CLAIMED and then WAITING_FOR_IP. */
    method Announce(j: JobId, a: AllocationId, now: Time) returns (round: Round)
      requires Valid() && runtime.system.intake == BoundJobPc(j)
      requires LiveFor(runtime.database.Contents(), a, j) && runtime.database.allocations[a].status == AllocReserved
      modifies runtime, runtime.database
      ensures Valid() && runtime.system.intake == NoIntake
      ensures round.Taken? || round.Thrown?
      ensures round.Taken? ==> round.handoff == Handoff(j, a) && HandedOff(runtime.database.Contents(), round.handoff)
      ensures old(j in runtime.database.jobs && runtime.database.jobs[j].state == Pending) ==>
                && round == Taken(Handoff(j, a))
                && JobAnnounced(old(runtime.database.Contents()), runtime.database.Contents(), j)
    {
      ghost var t := runtime.database.Contents();
      var claimed := Forward(j, Claimed, now);
      if claimed.Failure? {
        return Thrown(claimed.error);
      }
      var waiting := Forward(j, WaitingForIp, now);
      match waiting {
        case Success(_) => round := Taken(Handoff(j, a));
        case Failure(error) => round := Thrown(error);
      }
      if t.jobs[j].state == Pending {
        Announcing(t, j, now);
      }
    }

    /** A fetched application: a known one gives its slot back, a new one takes it. */
    method TakeApplication(ids: Ids, application: ApplicationId, user: Option<UserId>, now: Time)
      returns (round: Round)
      requires Valid() && runtime.system.intake == HoldingSlot(ids.reservation)
      requires ids.reservation in HeldReservations(runtime.database.Contents())
      modifies runtime, runtime.database
      ensures Valid() && runtime.system.intake == NoIntake
      ensures FetchDone(old(runtime.database.Contents()), runtime.database.Contents(), ids,
                        Application(application, user), round, true)
    {
      ghost var t := runtime.database.Contents();
      var created := Create(ids.reservation, application, user, ids.job);
      ghost var t1 := runtime.database.Contents();
      if created.Failure? || !created.value.created {
        var released := GiveBack(ids.reservation);
        round := if created.Failure? then Thrown(created.error)
        else if released.Success? then Duplicate
        else Thrown(released.error);
        NoNewJob(t, runtime.database.Contents(), ids, application, user, round, created, released);
        return;
      }
      var bound := Bind(ids.reservation, ids.job, ids.allocation);
      ghost var t2 := runtime.database.Contents();
      if bound.Failure? {
        var released := GiveBack(ids.reservation);
        NotBound(t, t1, runtime.database.Contents(), ids, application, user, bound.error, created, bound, released);
        return Thrown(bound.error);
      }
      round := Announce(ids.job, ids.allocation, now);
      TakenAndAnnounced(t, t1, t2, runtime.database.Contents(), ids, application, user, created, bound);
    }

    /** What becomes of a fetch, with the slot in hand. */
    method SettleFetch(ids: Ids, fetch: Fetch, now: Time) returns (round: Round, consumed: bool)
      requires Valid() && runtime.system.intake == HoldingSlot(ids.reservation)
      requires ids.reservation in HeldReservations(runtime.database.Contents())
      modifies runtime, runtime.database
      ensures Valid() && runtime.system.intake == NoIntake
      ensures FetchDone(old(runtime.database.Contents()), runtime.database.Contents(), ids, fetch, round, consumed)
    {
      ghost var t := runtime.database.Contents();
      consumed := fetch.MappingFails? || fetch.EmptyResponse? || fetch.Application?;
      if fetch.Application? {
        round := TakeApplication(ids, fetch.id, fetch.user, now);
        return;
      }
      var released := GiveBack(ids.reservation);
      match fetch {
        case FetchFails(error) => round := Thrown(error);
        case NothingPending => round := if released.Success? then NoApplication else Thrown(released.error);
        case MappingFails(error) => round := Thrown(error);
        case EmptyResponse => round := if released.Success? then NoContent else Thrown(released.error);
      }
      NothingFetched(t, runtime.database.Contents(), ids, fetch, round, consumed, released);
    }

    /** One round of the cycle. Whatever happens, the slot it reserved is bound or given back. On sound tables and
        with fresh identifiers, an application that is not known becomes a job. */
    method RunRound(ids: Ids, fetch: Fetch, now: Time) returns (round: Round, consumed: bool)
      requires Valid() && runtime.system.intake == NoIntake && configuredConcurrency >= 0
      modifies runtime, runtime.database
      ensures Valid() && runtime.system.intake == NoIntake
      ensures RoundDone(old(runtime.database.Contents()), runtime.database.Contents(), configuredConcurrency, ids, fetch,
                        round, consumed)
    {
      ghost var t := runtime.database.Contents();
      var reserved := Reserve(ids.reservation);
      ghost var t1 := runtime.database.Contents();
      if reserved.Failure? || reserved.value.None? {
        round, consumed := if reserved.Failure? then Thrown(reserved.error) else NoSlot, false;
        NothingReserved(t, t1, configuredConcurrency, ids, fetch, round, reserved);
        return;
      }
      round, consumed := SettleFetch(ids, fetch, now);
      ReservedThenFetched(t, t1, runtime.database.Contents(), configuredConcurrency, ids, fetch, round, consumed);
    }

    /** In a process that began with empty tables the tables are sound. */
    lemma BootIsSound()
      requires Valid() && runtime.StartsAtBoot()
      ensures IsSound(runtime.database.Contents())
    {
      var s := runtime.system;
      RunIsRun(runtime.origin, runtime.log, s);
      RunsAreOk(runtime.origin.maxRetries, runtime.origin.uploadSteps, runtime.log);
      ReachedIsSound(s);
    }

    /** runCycle: rounds until the capacity is used up, no slot or no application is left, or something
        is thrown. No exit leaves a reservation behind. In a process that began with empty tables, and with fresh
        identifiers, every new application that is fetched becomes a job, and what is counted and handed off is
        exactly that. */
    method RunCycle(safeToConsume: bool, ids: nat -> Ids, fetches: nat -> Fetch, now: Time)
      returns (r: Result<Summary, Error>)
      requires Valid() && runtime.system.intake == NoIntake
      modifies runtime, runtime.database
      ensures Valid() && runtime.system.intake == NoIntake
      ensures Holds(old(runtime.database.Contents()), runtime.database.Contents(),
                    old(HeldReservations(runtime.database.Contents())))
      ensures KeepsRowsOf(old(runtime.database.Contents()), runtime.database.Contents())
      ensures r.Success? ==>
                && var s := r.value;
                && s.created + s.duplicates <= s.consumed <= s.created + s.duplicates + 1
                && s.consumed <= s.effectiveCapacity
                && |s.jobs| == s.created
                && (forall i :: 0 <= i < |s.jobs| ==> HandedOff(runtime.database.Contents(), s.jobs[i]))
                && (forall i, k :: 0 <= i < k < |s.jobs| ==>
                      s.jobs[i].jobId != s.jobs[k].jobId && s.jobs[i].allocationId != s.jobs[k].allocationId)
                && (safeToConsume ==>
                      IsCapacity(s.effectiveCapacity, old(runtime.database.Contents())))
      ensures !safeToConsume ==>
                && r == Success(Summary(0, 0, 0, 0, []))
                && runtime.database.Contents() == old(runtime.database.Contents())
      ensures safeToConsume && (configuredConcurrency < 1 || jobsPerCycle < 1) ==>
                r == Failure(InvalidArgument) && runtime.database.Contents() == old(runtime.database.Contents())
      ensures safeToConsume && configuredConcurrency >= 1 && jobsPerCycle >= 1
              && runtime.StartsAtBoot() && AllFresh(old(runtime.database.Contents()), ids) ==>
                exists capacity: nat ::
                  && IsCapacity(capacity, old(runtime.database.Contents()))
                  && CycleAs(old(runtime.database.Contents()), runtime.database.Contents(), configuredConcurrency,
                             capacity, ids, fetches, r)
    {
      if !safeToConsume {
        return Success(Summary(0, 0, 0, 0, []));
      }
      ghost var t := runtime.database.Contents();
      var live := LiveAllocations(runtime.database.Contents());
      var available := set p | p in runtime.database.proxies && Selectable(runtime.database.proxies[p]);
      var capacity := CalculateEffectiveCapacity(configuredConcurrency, jobsPerCycle, |available|, |live|);
      if capacity.Failure? {
        return Failure(capacity.error);
      }
      assert IsCapacity(capacity.value, t);
      if runtime.StartsAtBoot() {
        BootIsSound();
      }
      r := RunRounds(capacity.value, ids, fetches, now);
      CycleEndOf(t, runtime.database.Contents(), configuredConcurrency, capacity.value, ids, fetches, r);
    }

    /** The largest number of jobs that fits the headroom, the limit of a cycle and the selectable proxies. */
    ghost predicate IsCapacity(capacity: nat, t: Tables) {
      forall n: nat ::
        (n <= capacity <==>
         Fits(n, configuredConcurrency, jobsPerCycle, SelectableCount(t), LiveCount(t)))
    }

    function SelectableCount(t: Tables): nat {
      |set p | p in t.proxies && Selectable(t.proxies[p])|
    }

    function LiveCount(t: Tables): nat {
      |LiveAllocations(t)|
    }

    /** The body of the loop, in a cycle that began with the tables t: another round, and what it adds to the counts. */
    method RunNext(
      capacity: nat, ids: nat -> Ids, fetches: nat -> Fetch, now: Time, index: nat, sofar: Summary, ghost t: Tables)
      returns (step: CycleStep)
      requires Valid() && runtime.system.intake == NoIntake && configuredConcurrency >= 0
      requires index < capacity && Counts(sofar, index, capacity)
      requires CycleSoFar(t, runtime.database.Contents(), configuredConcurrency, ids, fetches, index, sofar.jobs)
      modifies runtime, runtime.database
      ensures Valid() && runtime.system.intake == NoIntake
      ensures step.GoesOn? ==>
                && Counts(step.sofar, index + 1, capacity)
                && CycleSoFar(t, runtime.database.Contents(), configuredConcurrency, ids, fetches, index + 1,
                              step.sofar.jobs)
      ensures step.Ends? ==>
                CycleDone(t, runtime.database.Contents(), configuredConcurrency, capacity, ids, fetches, step.r)
    {
      ghost var t1 := runtime.database.Contents();
      var round, took := RunRound(ids(index), fetches(index), now);
      var counted := sofar.(consumed := if took then sofar.consumed + 1 else sofar.consumed);
      match round {
        case Thrown(error) =>
          step := Ends(Failure(error));
          CycleThrows(t, t1, runtime.database.Contents(), configuredConcurrency, capacity, ids, fetches, index, sofar.jobs,
                      error, took);
        case Duplicate =>
          step := GoesOn(counted.(duplicates := sofar.duplicates + 1));
          OneMoreApplication(t, t1, runtime.database.Contents(), configuredConcurrency, ids, fetches, index, sofar.jobs,
                             round, took);
        case Taken(handoff) =>
          step := GoesOn(counted.(created := sofar.created + 1, jobs := sofar.jobs + [handoff]));
          OneMoreApplication(t, t1, runtime.database.Contents(), configuredConcurrency, ids, fetches, index, sofar.jobs,
                             round, took);
        case _ =>
          step := Ends(Success(counted));
          CycleEnds(t, t1, runtime.database.Contents(), configuredConcurrency, capacity, ids, fetches, index, sofar,
                    round, took);
      }
    }

    /** The loop of the cycle. */
    method RunRounds(capacity: nat, ids: nat -> Ids, fetches: nat -> Fetch, now: Time)
      returns (r: Result<Summary, Error>)
      requires Valid() && runtime.system.intake == NoIntake && configuredConcurrency >= 0
      modifies runtime, runtime.database
      ensures Valid() && runtime.system.intake == NoIntake
      ensures CycleDone(old(runtime.database.Contents()), runtime.database.Contents(), configuredConcurrency, capacity,
                        ids, fetches, r)
    {
      ghost var t := runtime.database.Contents();
      var sofar := Summary(0, 0, 0, capacity, []);
      NothingTakenYet(t, configuredConcurrency, ids, fetches);
      for index := 0 to capacity
        invariant Valid() && runtime.system.intake == NoIntake
        invariant Counts(sofar, index, capacity)
        invariant CycleSoFar(t, runtime.database.Contents(), configuredConcurrency, ids, fetches, index, sofar.jobs)
      {
        var step := RunNext(capacity, ids, fetches, now, index, sofar, t);
        if step.Ends? {
          return step.r;
        }
        sofar := step.sofar;
      }
      CapacityUsedUp(t, runtime.database.Contents(), configuredConcurrency, capacity, ids, fetches, sofar);
      r := Success(sofar);
    }
  }
}
