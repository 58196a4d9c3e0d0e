/** What restart recovery makes of the tables (src/recovery/recovery-service.js), and why doing it
    again in the same boot changes nothing. */
module RecoveryPasses {
  import opened Wrappers
  import opened JobStates
  import opened ProxyStates
  import opened Schema
  import opened ProxyRows
  import opened JobTransactions
  import opened AllocationTransactions
  import opened LedgerTransactions
  import opened RecoveryTransactions
  import opened RetryPolicy
  import opened SystemModel
  import opened SystemInvariant
  import opened FinalResultServices

  datatype Env = Env(maxRetries: nat, uploadSteps: set<StepId>, boot: BootId)

  /** The job stopped at a step whose uploads may not be repeated. */
  predicate AtUpload(e: Env, job: Job) {
    job.currentStep.Some? && job.currentStep.value in e.uploadSteps
  }

  function Observed(t: Tables, e: Env, j: JobId, observation: Observation): Tables {
    RecordRestart(t, j, e.boot, observation).After(t)
  }

  ghost function RecoverResult(t: Tables, e: Env, j: JobId, now: Time): Tables
    requires j in t.jobs && j in t.results
  {
    var job := t.jobs[j];
    match t.results[j].status
    case InFlight =>
      Observed(MarkInterrupted(t, j).After(t), e, j, ObservationOf(job, FinalResultUncertain, None))
    case Uncertain => Observed(t, e, j, ObservationOf(job, FinalResultUncertain, None))
    case DeliveryPending => Observed(t, e, j, ObservationOf(job, FinalResultPending, None))
    case Delivered =>
      var t1 := Finalized(t, j, now);
      if j in t1.jobs then Observed(t1, e, j, ObservationOf(t1.jobs[j], FinalResultDelivered, None)) else t1
  }

  /** incrementRetry and the transition to RETRY_PENDING. */
  function Rescheduled(t: Tables, j: JobId, now: Time): Tables
    requires j in t.jobs
  {
    var t1 := IncrementRetry(t, j, Some(t.jobs[j].version)).After(t);
    TransitionJob(t1, j, RetryPending, Patch(t.jobs[j].currentStep, None), Some(t.jobs[j].version + 1), now).After(t1)
  }

  /** A job whose execution was cut off, with its IP preserved. */
  function RecoverInterrupted(t: Tables, e: Env, j: JobId, now: Time): Tables
    requires j in t.jobs
  {
    var job := t.jobs[j];
    if job.retryCount >= e.maxRetries then
      Observed(t, e, j, ObservationOf(job, RetryExhausted, None))
    else
      Observed(Rescheduled(t, j, now), e, j,
               ObservationOf(job.(state := RetryPending), RetryScheduled, RetryAt(now, job.retryCount + 1)))
  }

  ghost function RecoverExecution(t: Tables, e: Env, j: JobId, now: Time): Tables
    requires j in t.jobs
  {
    var job := t.jobs[j];
    if job.state == WaitingForManualChallenge then
      Observed(t, e, j, ObservationOf(job, WaitingManual, None))
    else if !AtUpload(e, job) && job.state !in {RetryPending, Running, WaitingForOtp} then
      Observed(t, e, j, ObservationOf(job, NoRecovery, None))
    else if LiveOf(t, j).None? then
      Observed(t, e, j, ObservationOf(job, BlockedSessionLoss, None))
    else
      var t1 := ReserveForRetry(t, j).After(t);
      if AtUpload(e, job) then
        Observed(t1, e, j, ObservationOf(job, BlockedUnsafeReplay, None))
      else if job.state == RetryPending then
        Observed(t1, e, j, ObservationOf(job, RetryScheduled, RetryAt(now, job.retryCount)))
      else
        RecoverInterrupted(t1, e, j, now)
  }

  /** recoverJob. */
  ghost function Recovered(t: Tables, e: Env, j: JobId, now: Time): Tables {
    if j !in t.jobs || IsTerminal(t.jobs[j].state) then t
    else if j in t.results then RecoverResult(t, e, j, now)
    else RecoverExecution(t, e, j, now)
  }

  // -------------------------------------------------------------------------------------------
  // One job
  // -------------------------------------------------------------------------------------------

  /** Equal but for the number of times an allocation was held for a retry. */
  predicate SameAllocation(x: Allocation, y: Allocation) {
    y == x.(failureCount := y.failureCount)
  }

  /** The allocation tables agree in everything but failure counts. */
  predicate SameAllocations(t: Tables, t': Tables) {
    && t'.allocations.Keys == t.allocations.Keys
    && forall a :: a in t.allocations ==> SameAllocation(t.allocations[a], t'.allocations[a])
  }

  /** Nothing a second recovery may change has changed: job rows with their versions and retry counts,
      claims, ledger, allocations, proxies, and how often each job was restarted. */
  predicate SameRecovery(t: Tables, t': Tables) {
    && t'.jobs == t.jobs && t'.claims == t.claims && t'.results == t.results
    && t'.proxies == t.proxies && t'.reservations == t.reservations
    && SameAllocations(t, t')
    && t'.recoveries.Keys == t.recoveries.Keys
    && (forall j :: j in t.recoveries ==>
          && t'.recoveries[j].restartCount == t.recoveries[j].restartCount
          && t'.recoveries[j].status == t.recoveries[j].status
          && t'.recoveries[j].bootId == t.recoveries[j].bootId)
  }

  /** What one recovery leaves, so that another one finds nothing to do. */
  ghost predicate Settled(t: Tables, e: Env, j: JobId) {
    j in t.jobs && !IsTerminal(t.jobs[j].state) ==>
      && j in t.recoveries && t.recoveries[j].bootId == e.boot
      && if j in t.results then
           || (t.results[j].status == DeliveryPending && t.recoveries[j].status == FinalResultPending)
           || (t.results[j].status == Uncertain && t.recoveries[j].status == FinalResultUncertain)
         else
           && t.recoveries[j].status == ExpectedStatus(t, e, j)
           && (t.jobs[j].state in {Running, WaitingForOtp} && !AtUpload(e, t.jobs[j]) ==>
                 LiveOf(t, j).None? || t.jobs[j].retryCount >= e.maxRetries)
           && (t.recoveries[j].status in {BlockedUnsafeReplay, RetryScheduled, RetryExhausted} ==>
                 IsHeld(t, LiveOf(t, j)))
  }

  /** A live allocation that is already held for a retry, with a proxy that shows it. */
  predicate IsHeld(t: Tables, live: Option<AllocationId>) {
    && live.Some? && live.value in t.allocations
    && HeldForRetry(t.allocations[live.value]).status == t.allocations[live.value].status
    && WithStatus(t.proxies, t.allocations[live.value].proxyId, {Reserved, Active, RetryReserved}, RetryReserved)
       == t.proxies
  }

  /** The recovery status of an unfinished job without a result. */
  ghost function ExpectedStatus(t: Tables, e: Env, j: JobId): RecoveryStatus
    requires j in t.jobs
  {
    var job := t.jobs[j];
    if job.state == WaitingForManualChallenge then WaitingManual
    else if !AtUpload(e, job) && job.state !in {RetryPending, Running, WaitingForOtp} then NoRecovery
    else if LiveOf(t, j).None? then BlockedSessionLoss
    else if AtUpload(e, job) then BlockedUnsafeReplay
    else if job.state == RetryPending then RetryScheduled
    else RetryExhausted
  }

  /** Holding an allocation for a retry leaves it live and settles it. */
  lemma HoldingSettles(t: Tables, j: JobId)
    requires LiveOf(t, j).Some?
    ensures var t1 := ReserveForRetry(t, j).After(t); LiveOf(t1, j) == LiveOf(t, j) && IsHeld(t1, LiveOf(t, j))
  {
    var t1 := ReserveForRetry(t, j).After(t);
    assert forall a, k :: LiveFor(t1, a, k) <==> LiveFor(t, a, k);
    assert IsFirstLive(t1, LiveOf(t, j).value, j);
    assert IsFirstLive(t, LiveOf(t1, j).value, j);
  }

  /** The job is preserved on its IP by recovery. */
  ghost predicate IsPreserved(t: Tables, e: Env, j: JobId) {
    && j in t.jobs
    && t.jobs[j].state != WaitingForManualChallenge
    && (AtUpload(e, t.jobs[j]) || t.jobs[j].state in {RetryPending, Running, WaitingForOtp})
    && LiveOf(t, j).Some?
  }

  /** Only the observation is written for a job that is not preserved. */
  lemma QuietObserves(t: Tables, e: Env, j: JobId, now: Time)
    requires j in t.jobs && !IsTerminal(t.jobs[j].state) && j !in t.results && !IsPreserved(t, e, j)
    ensures Recovered(t, e, j, now) ==
            Observed(t, e, j, ObservationOf(t.jobs[j], ExpectedStatus(t, e, j), None))
  {
  }

  lemma QuietSettles(t: Tables, e: Env, j: JobId, now: Time)
    requires j in t.jobs && !IsTerminal(t.jobs[j].state) && j !in t.results && !IsPreserved(t, e, j)
    ensures Settled(Recovered(t, e, j, now), e, j)
  {
    QuietObserves(t, e, j, now);
    ObservedSettles(t, e, j, ObservationOf(t.jobs[j], ExpectedStatus(t, e, j), None));
  }

  /** Writing the expected status settles a job that has nothing left to do. */
  lemma ObservedSettles(t: Tables, e: Env, j: JobId, observation: Observation)
    requires j in t.jobs && j !in t.results
    requires observation.status == ExpectedStatus(t, e, j)
    requires t.jobs[j].state in {Running, WaitingForOtp} && !AtUpload(e, t.jobs[j]) ==>
               LiveOf(t, j).None? || t.jobs[j].retryCount >= e.maxRetries
    requires observation.status in {BlockedUnsafeReplay, RetryScheduled, RetryExhausted} ==> IsHeld(t, LiveOf(t, j))
    ensures Settled(Observed(t, e, j, observation), e, j)
  {
    var t' := Observed(t, e, j, observation);
    SameLiveOf(t, t', j);
    assert ExpectedStatus(t', e, j) == ExpectedStatus(t, e, j);
  }

  lemma InterruptedSettles(t: Tables, e: Env, j: JobId, now: Time)
    requires j in t.jobs && t.jobs[j].state in {Running, WaitingForOtp} && j !in t.results
    requires !AtUpload(e, t.jobs[j]) && IsHeld(t, LiveOf(t, j))
    ensures Settled(RecoverInterrupted(t, e, j, now), e, j)
  {
    var job := t.jobs[j];
    if job.retryCount >= e.maxRetries {
      ObservedSettles(t, e, j, ObservationOf(job, RetryExhausted, None));
    } else {
      var t1 := Rescheduled(t, j, now);
      SameLiveOf(t, t1, j);
      assert t1 == t.(jobs := t1.jobs) && t1.jobs[j].state == RetryPending;
      ObservedSettles(t1, e, j, ObservationOf(job.(state := RetryPending), RetryScheduled,
                                              RetryAt(now, job.retryCount + 1)));
    }
  }

  lemma ExecutionSettles(t: Tables, e: Env, j: JobId, now: Time)
    requires j in t.jobs && !IsTerminal(t.jobs[j].state) && j !in t.results
    ensures Settled(Recovered(t, e, j, now), e, j)
  {
    if !IsPreserved(t, e, j) {
      QuietSettles(t, e, j, now);
    } else {
      var t1 := ReserveForRetry(t, j).After(t);
      HoldingSettles(t, j);
      if AtUpload(e, t.jobs[j]) {
        ObservedSettles(t1, e, j, ObservationOf(t.jobs[j], BlockedUnsafeReplay, None));
      } else if t.jobs[j].state == RetryPending {
        ObservedSettles(t1, e, j, ObservationOf(t.jobs[j], RetryScheduled, RetryAt(now, t.jobs[j].retryCount)));
      } else {
        InterruptedSettles(t1, e, j, now);
      }
    }
  }

  lemma ResultSettles(t: Tables, e: Env, j: JobId, now: Time)
    requires j in t.jobs && !IsTerminal(t.jobs[j].state) && j in t.results
    requires t.results[j].terminalState == TerminalStateOf(t.results[j].outcome)
    requires t.results[j].status == Delivered ==> CanTransition(t.jobs[j].state, t.results[j].terminalState)
    ensures Settled(Recovered(t, e, j, now), e, j)
  {
    if t.results[j].status == Delivered {
      assert IsTerminal(t.results[j].terminalState);
      assert IsTerminal(Recovered(t, e, j, now).jobs[j].state);
    }
  }

  /** Observing a job again with the same status changes nothing that counts. */
  lemma ObservingAgain(t: Tables, t1: Tables, e: Env, j: JobId, observation: Observation)
    requires SameRecovery(t, t1) && t1.recoveries == t.recoveries && j in t.jobs
    requires j in t.recoveries && t.recoveries[j].bootId == e.boot && t.recoveries[j].status == observation.status
    ensures SameRecovery(t, Observed(t1, e, j, observation))
  {
  }

  lemma HoldingAgain(t: Tables, j: JobId)
    requires IsHeld(t, LiveOf(t, j))
    ensures var t1 := ReserveForRetry(t, j).After(t);
            t1 == t.(allocations := t1.allocations) && SameAllocations(t, t1)
  {
  }

  lemma PreservedStays(t: Tables, e: Env, j: JobId, now: Time)
    requires Settled(t, e, j) && IsPreserved(t, e, j)
    requires !IsTerminal(t.jobs[j].state) && j !in t.results
    ensures SameRecovery(t, Recovered(t, e, j, now))
  {
    var job := t.jobs[j];
    var t1 := ReserveForRetry(t, j).After(t);
    HoldingAgain(t, j);
    if AtUpload(e, job) {
      ObservingAgain(t, t1, e, j, ObservationOf(job, BlockedUnsafeReplay, None));
    } else if job.state == RetryPending {
      ObservingAgain(t, t1, e, j, ObservationOf(job, RetryScheduled, RetryAt(now, job.retryCount)));
    } else {
      ObservingAgain(t, t1, e, j, ObservationOf(job, RetryExhausted, None));
    }
  }

  lemma ResultStays(t: Tables, e: Env, j: JobId, now: Time)
    requires Settled(t, e, j) && j in t.jobs && !IsTerminal(t.jobs[j].state) && j in t.results
    ensures SameRecovery(t, Recovered(t, e, j, now))
  {
    if t.results[j].status == Uncertain {
      ObservingAgain(t, t, e, j, ObservationOf(t.jobs[j], FinalResultUncertain, None));
    } else {
      ObservingAgain(t, t, e, j, ObservationOf(t.jobs[j], FinalResultPending, None));
    }
  }

  /** Recovering a settled job changes nothing that counts. */
  lemma SettledStays(t: Tables, e: Env, j: JobId, now: Time)
    requires Settled(t, e, j)
    ensures SameRecovery(t, Recovered(t, e, j, now))
  {
    if j in t.jobs && !IsTerminal(t.jobs[j].state) {
      if j in t.results {
        ResultStays(t, e, j, now);
      } else if IsPreserved(t, e, j) {
        PreservedStays(t, e, j, now);
      } else {
        QuietObserves(t, e, j, now);
        ObservingAgain(t, t, e, j, ObservationOf(t.jobs[j], ExpectedStatus(t, e, j), None));
      }
    }
  }

  // -------------------------------------------------------------------------------------------
  // One job leaves the others alone
  // -------------------------------------------------------------------------------------------

  /** A live allocation of j is on this proxy. */
  ghost predicate UsesProxy(t: Tables, p: ProxyId, j: JobId) {
    exists a :: LiveFor(t, a, j) && LiveOn(t, a, p)
  }

  /** Only rows of j change: its job, claim, result and recovery rows, its allocations, and the proxies
      of its live allocations. */
  ghost predicate TouchesOnly(t: Tables, t': Tables, j: JobId) {
    && (forall k :: k != j ==> At(t'.jobs, k) == At(t.jobs, k))
    && (forall k :: k != j ==> At(t'.results, k) == At(t.results, k))
    && (forall k :: k != j ==> At(t'.recoveries, k) == At(t.recoveries, k))
    && t'.allocations.Keys == t.allocations.Keys
    && (forall a :: a in t.allocations ==>
          && t'.allocations[a].jobId == t.allocations[a].jobId
          && t'.allocations[a].proxyId == t.allocations[a].proxyId
          && (t.allocations[a].jobId != j ==> t'.allocations[a] == t.allocations[a]))
    && (forall a :: LiveFor(t', a, j) ==> LiveFor(t, a, j))
    && t'.proxies.Keys == t.proxies.Keys
    && (forall p :: p in t.proxies && !UsesProxy(t, p, j) ==> t'.proxies[p] == t.proxies[p])
  }

  lemma UsedProxiesWereUsed(t: Tables, t': Tables, p: ProxyId, j: JobId)
    requires TouchesOnly(t, t', j) && UsesProxy(t', p, j)
    ensures UsesProxy(t, p, j)
  {
    var a :| LiveFor(t', a, j) && LiveOn(t', a, p);
    assert LiveFor(t, a, j) && LiveOn(t, a, p);
  }

  lemma TouchesOnlyIsTransitive(t: Tables, t1: Tables, t2: Tables, j: JobId)
    requires TouchesOnly(t, t1, j) && TouchesOnly(t1, t2, j)
    ensures TouchesOnly(t, t2, j)
  {
    forall p | UsesProxy(t1, p, j) ensures UsesProxy(t, p, j) {
      UsedProxiesWereUsed(t, t1, p, j);
    }
  }

  /** Transactions on the job, claim, ledger and recovery rows of j. */
  lemma RowStepTouchesOnly(t: Tables, t': Tables, j: JobId)
    requires t' == t.(jobs := t'.jobs, claims := t'.claims, results := t'.results, recoveries := t'.recoveries)
    requires forall k :: k != j ==> At(t'.jobs, k) == At(t.jobs, k)
    requires forall k :: k != j ==> At(t'.results, k) == At(t.results, k)
    requires forall k :: k != j ==> At(t'.recoveries, k) == At(t.recoveries, k)
    ensures TouchesOnly(t, t', j)
  {
    assert forall a, k :: LiveFor(t', a, k) <==> LiveFor(t, a, k);
  }

  /** The row of one live allocation of j, and its proxy, change. */
  lemma RowAndProxyTouchOnly(t: Tables, t': Tables, j: JobId, a: AllocationId)
    requires LiveFor(t, a, j)
    requires t' == t.(allocations := t'.allocations, proxies := t'.proxies)
    requires a in t'.allocations && t'.allocations == t.allocations[a := t'.allocations[a]]
    requires t'.allocations[a].jobId == j && t'.allocations[a].proxyId == t.allocations[a].proxyId
    requires t'.proxies.Keys == t.proxies.Keys
    requires forall p :: p in t.proxies && p != t.allocations[a].proxyId ==> t'.proxies[p] == t.proxies[p]
    ensures TouchesOnly(t, t', j)
  {
    assert LiveOn(t, a, t.allocations[a].proxyId);
  }

  lemma HoldTouchesOnly(t: Tables, j: JobId)
    ensures TouchesOnly(t, ReserveForRetry(t, j).After(t), j)
  {
    if LiveOf(t, j).Some? {
      RowAndProxyTouchOnly(t, ReserveForRetry(t, j).After(t), j, LiveOf(t, j).value);
    }
  }

  lemma ReleaseTouchesOnly(t: Tables, j: JobId, reason: ReleaseReason, now: Time)
    ensures TouchesOnly(t, Release(t, j, reason, now).After(t), j)
  {
    var t' := Release(t, j, reason, now).After(t);
    if t' != t {
      RowAndProxyTouchOnly(t, t', j, LiveOf(t, j).value);
    }
  }

  lemma ObservedTouchesOnly(t: Tables, e: Env, j: JobId, observation: Observation)
    ensures TouchesOnly(t, Observed(t, e, j, observation), j)
  {
    RowStepTouchesOnly(t, Observed(t, e, j, observation), j);
  }

  lemma FinalizedTouchesOnly(t: Tables, j: JobId, now: Time)
    requires j in t.jobs && j in t.results
    ensures TouchesOnly(t, Finalized(t, j, now), j)
  {
    var t1 := Terminalized(t, j, now).After(t);
    RowStepTouchesOnly(t, t1, j);
    ReleaseTouchesOnly(t1, j, ReleaseReasonFor(t.results[j].terminalState), now);
    TouchesOnlyIsTransitive(t, t1, Release(t1, j, ReleaseReasonFor(t.results[j].terminalState), now).After(t1), j);
  }

  lemma ResultTouchesOnly(t: Tables, e: Env, j: JobId, now: Time)
    requires j in t.jobs && j in t.results
    ensures TouchesOnly(t, RecoverResult(t, e, j, now), j)
  {
    match t.results[j].status
    case InFlight =>
      var t1 := MarkInterrupted(t, j).After(t);
      RowStepTouchesOnly(t, t1, j);
      ObservedTouchesOnly(t1, e, j, ObservationOf(t.jobs[j], FinalResultUncertain, None));
      TouchesOnlyIsTransitive(t, t1, RecoverResult(t, e, j, now), j);
    case Uncertain => ObservedTouchesOnly(t, e, j, ObservationOf(t.jobs[j], FinalResultUncertain, None));
    case DeliveryPending => ObservedTouchesOnly(t, e, j, ObservationOf(t.jobs[j], FinalResultPending, None));
    case Delivered =>
      var t1 := Finalized(t, j, now);
      FinalizedTouchesOnly(t, j, now);
      if j in t1.jobs {
        ObservedTouchesOnly(t1, e, j, ObservationOf(t1.jobs[j], FinalResultDelivered, None));
        TouchesOnlyIsTransitive(t, t1, RecoverResult(t, e, j, now), j);
      }
  }

  lemma RescheduledTouchesOnly(t: Tables, j: JobId, now: Time)
    requires j in t.jobs
    ensures TouchesOnly(t, Rescheduled(t, j, now), j)
  {
    RowStepTouchesOnly(t, Rescheduled(t, j, now), j);
  }

  lemma InterruptedTouchesOnly(t: Tables, e: Env, j: JobId, now: Time)
    requires j in t.jobs
    ensures TouchesOnly(t, RecoverInterrupted(t, e, j, now), j)
  {
    var job := t.jobs[j];
    if job.retryCount >= e.maxRetries {
      ObservedTouchesOnly(t, e, j, ObservationOf(job, RetryExhausted, None));
    } else {
      var t1 := Rescheduled(t, j, now);
      RescheduledTouchesOnly(t, j, now);
      ObservedTouchesOnly(t1, e, j, ObservationOf(job.(state := RetryPending), RetryScheduled,
                                                  RetryAt(now, job.retryCount + 1)));
      TouchesOnlyIsTransitive(t, t1, RecoverInterrupted(t, e, j, now), j);
    }
  }

  lemma ExecutionTouchesOnly(t: Tables, e: Env, j: JobId, now: Time)
    requires j in t.jobs && !IsTerminal(t.jobs[j].state) && j !in t.results
    ensures TouchesOnly(t, RecoverExecution(t, e, j, now), j)
  {
    var job := t.jobs[j];
    if IsPreserved(t, e, j) {
      var t1 := ReserveForRetry(t, j).After(t);
      HoldTouchesOnly(t, j);
      if AtUpload(e, job) {
        ObservedTouchesOnly(t1, e, j, ObservationOf(job, BlockedUnsafeReplay, None));
      } else if job.state == RetryPending {
        ObservedTouchesOnly(t1, e, j, ObservationOf(job, RetryScheduled, RetryAt(now, job.retryCount)));
      } else {
        InterruptedTouchesOnly(t1, e, j, now);
      }
      TouchesOnlyIsTransitive(t, t1, RecoverExecution(t, e, j, now), j);
    } else {
      QuietObserves(t, e, j, now);
      ObservedTouchesOnly(t, e, j, ObservationOf(job, ExpectedStatus(t, e, j), None));
    }
  }

  /** Recovering one job never touches another job's rows. */
  lemma RecoveryTouchesOnly(t: Tables, e: Env, j: JobId, now: Time)
    ensures TouchesOnly(t, Recovered(t, e, j, now), j)
  {
    if j !in t.jobs || IsTerminal(t.jobs[j].state) {
      RowStepTouchesOnly(t, t, j);
    } else if j in t.results {
      ResultTouchesOnly(t, e, j, now);
    } else {
      ExecutionTouchesOnly(t, e, j, now);
    }
  }

  // -------------------------------------------------------------------------------------------
  // What recovery does to a job, case by case
  // -------------------------------------------------------------------------------------------

  /** Everything that recovery may touch for a job: its rows, and the IP it still has with the proxy behind it. */
  datatype Rows = Rows(
    job: Option<Job>, result: Option<FinalResult>, recovery: Option<Recovery>, ip: Option<Allocation>,
    proxy: Option<Proxy>)

  ghost function RowsOf(t: Tables, j: JobId): Rows {
    var live := LiveOf(t, j);
    Rows(At(t.jobs, j), At(t.results, j), At(t.recoveries, j),
         if live.Some? then Some(t.allocations[live.value]) else None,
         if live.Some? && t.allocations[live.value].proxyId in t.proxies then
           Some(t.proxies[t.allocations[live.value].proxyId])
         else None)
  }

  /** The restart is noted with this status, for the state and step the job is now in; a boot counts once. */
  predicate IsNoted(v: Rows, v': Rows, boot: BootId, status: RecoveryStatus, nextRetryAt: Option<Time>) {
    && v'.recovery.Some? && v'.job.Some?
    && v'.recovery.value.status == status
    && v'.recovery.value.sessionLost == (status != NoRecovery)
    && v'.recovery.value.lastState == v'.job.value.state
    && v'.recovery.value.lastStep == v'.job.value.currentStep
    && v'.recovery.value.nextRetryAt == nextRetryAt
    && v'.recovery.value.bootId == boot
    && v'.recovery.value.restartCount ==
       (if v.recovery.None? then 1
        else if v.recovery.value.bootId == boot then v.recovery.value.restartCount
        else v.recovery.value.restartCount + 1)
  }

  /** That note is all that is written. */
  predicate IsOnlyNoted(v: Rows, v': Rows, boot: BootId, status: RecoveryStatus) {
    v' == v.(recovery := v'.recovery) && IsNoted(v, v', boot, status, None)
  }

  /** The job keeps its IP, now held for a retry together with its proxy; job, result and endpoint stay. */
  predicate IpIsHeld(v: Rows, v': Rows) {
    && v.ip.Some? && v'.ip.Some?
    && v'.ip.value.jobId == v.ip.value.jobId && v'.ip.value.proxyId == v.ip.value.proxyId
    && v'.ip.value.endpoint == v.ip.value.endpoint
    && (v.ip.value.status in {AllocReserved, AllocActive, AllocRetryReserved} ==>
          v'.ip.value.status == AllocRetryReserved && v'.ip.value.failureCount == v.ip.value.failureCount + 1)
    && (v.proxy.Some? && v.proxy.value.status in {Reserved, Active, RetryReserved} ==>
          v'.proxy == Some(v.proxy.value.(status := RetryReserved)))
    && v'.result == v.result
  }

  /** The job is waiting for its next retry, which this restart cost it. */
  predicate IsRescheduled(before: Job, after: Job) {
    after == before.(state := RetryPending, retryCount := before.retryCount + 1, version := before.version + 2)
  }

  /** When a retry is due. */
  function DueAt(now: Time, retryNumber: nat): Option<Time> {
    Some(now + if retryNumber <= 1 then 1000 else if retryNumber == 2 then 5000 else 15000)
  }

  /** A recorded result is never sent by recovery: an interrupted send is uncertain from now on, and a delivered
      result is made final. */
  predicate ResultRecovers(v: Rows, v': Rows, boot: BootId)
    requires v.job.Some? && v.result.Some?
  {
    var row := v.result.value;
    && (row.status == DeliveryPending ==> IsOnlyNoted(v, v', boot, FinalResultPending))
    && (row.status == Uncertain ==> IsOnlyNoted(v, v', boot, FinalResultUncertain))
    && (row.status == InFlight ==>
          && v' == v.(result := Some(row.(status := Uncertain, certainty := Some(Ambiguous))), recovery := v'.recovery)
          && IsNoted(v, v', boot, FinalResultUncertain, None))
    && (row.status == Delivered ==>
          && v'.result == v.result && v'.ip.None?
          && IsNoted(v, v', boot, FinalResultDelivered, None)
          && v'.job.value.state == row.terminalState)
  }

  /** A job without a result. One that waits for a human, and one that never ran, is only noted. One without its IP
      is blocked. Any other keeps its IP; and if it stopped at an upload, it is blocked as it stands, whatever its
      state and its budget; if it waits for a retry, it goes on waiting; if it was cut off, this costs a retry, as
      long as there is one. */
  predicate ExecutionRecovers(v: Rows, v': Rows, maxRetries: nat, uploadSteps: set<StepId>, boot: BootId, now: Time)
    requires v.job.Some?
  {
    var job := v.job.value;
    var stopped := job.currentStep.Some? && job.currentStep.value in uploadSteps;
    if job.state == WaitingForManualChallenge then IsOnlyNoted(v, v', boot, WaitingManual)
    else
      && (!stopped && job.state in {Pending, Claimed, WaitingForIp} ==> IsOnlyNoted(v, v', boot, NoRecovery))
      && (v.ip.None? && (stopped || job.state in {RetryPending, Running, WaitingForOtp}) ==>
            IsOnlyNoted(v, v', boot, BlockedSessionLoss))
      && (v.ip.Some? && stopped ==>
            v'.job == v.job && IpIsHeld(v, v') && IsNoted(v, v', boot, BlockedUnsafeReplay, None))
      && (v.ip.Some? && !stopped && job.state == RetryPending ==>
            && v'.job == v.job && IpIsHeld(v, v')
            && IsNoted(v, v', boot, RetryScheduled, DueAt(now, job.retryCount)))
      && (v.ip.Some? && !stopped && job.state in {Running, WaitingForOtp} && job.retryCount >= maxRetries ==>
            v'.job == v.job && IpIsHeld(v, v') && IsNoted(v, v', boot, RetryExhausted, None))
      && (v.ip.Some? && !stopped && job.state in {Running, WaitingForOtp} && job.retryCount < maxRetries ==>
            && v'.job.Some? && IsRescheduled(job, v'.job.value) && IpIsHeld(v, v')
            && IsNoted(v, v', boot, RetryScheduled, DueAt(now, job.retryCount + 1)))
  }

  predicate RowsRecover(v: Rows, v': Rows, maxRetries: nat, uploadSteps: set<StepId>, boot: BootId, now: Time) {
    if v.job.None? || v.job.value.state in {Completed, FailedFinal, Cancelled} then v' == v
    else if v.result.Some? then ResultRecovers(v, v', boot)
    else ExecutionRecovers(v, v', maxRetries, uploadSteps, boot, now)
  }

  /** Nothing stands in the way of recovering the job: a delivered result can be made final. */
  ghost predicate CanRecover(t: Tables, j: JobId) {
    j in t.jobs && !IsTerminal(t.jobs[j].state) && j in t.results && t.results[j].status == Delivered ==>
      CanFinish(t, j, t.results[j].terminalState)
  }

  lemma ObservedRows(t: Tables, t1: Tables, e: Env, j: JobId, o: Observation)
    requires j in t1.jobs && At(t1.recoveries, j) == At(t.recoveries, j)
    ensures RowsOf(Observed(t1, e, j, o), j) ==
            RowsOf(t1, j).(recovery := RowsOf(Observed(t1, e, j, o), j).recovery)
    ensures o.lastState == t1.jobs[j].state && o.lastStep == t1.jobs[j].currentStep
            && o.sessionLost == (o.status != NoRecovery) ==>
              IsNoted(RowsOf(t, j), RowsOf(Observed(t1, e, j, o), j), e.boot, o.status, o.nextRetryAt)
  {
    SameLiveOf(t1, Observed(t1, e, j, o), j);
  }

  lemma HeldRows(t: Tables, j: JobId)
    requires LiveOf(t, j).Some?
    ensures var t1 := ReserveForRetry(t, j).After(t);
            && IpIsHeld(RowsOf(t, j), RowsOf(t1, j))
            && t1.jobs == t.jobs && t1.results == t.results && t1.recoveries == t.recoveries
  {
    HoldingSettles(t, j);
  }

  lemma DeliveredRowsRecover(t: Tables, e: Env, j: JobId, now: Time)
    requires j in t.jobs && !IsTerminal(t.jobs[j].state) && HasStatus(t, j, Delivered)
    requires CanRecover(t, j) && UniqueLiveAllocations(t)
    ensures ResultRecovers(RowsOf(t, j), RowsOf(Recovered(t, e, j, now), j), e.boot)
  {
    var t1 := Finalized(t, j, now);
    FinalizesWhenItCanFinish(t, j, now);
    FinalizingFinishes(t, j, now);
    ObservedRows(t, t1, e, j, ObservationOf(t1.jobs[j], FinalResultDelivered, None));
  }

  lemma ResultRowsRecover(t: Tables, e: Env, j: JobId, now: Time)
    requires j in t.jobs && !IsTerminal(t.jobs[j].state) && j in t.results
    requires CanRecover(t, j) && UniqueLiveAllocations(t)
    ensures ResultRecovers(RowsOf(t, j), RowsOf(Recovered(t, e, j, now), j), e.boot)
  {
    var job := t.jobs[j];
    match t.results[j].status
    case InFlight =>
      var t1 := MarkInterrupted(t, j).After(t);
      SameLiveOf(t, t1, j);
      ObservedRows(t, t1, e, j, ObservationOf(job, FinalResultUncertain, None));
    case Uncertain => ObservedRows(t, t, e, j, ObservationOf(job, FinalResultUncertain, None));
    case DeliveryPending => ObservedRows(t, t, e, j, ObservationOf(job, FinalResultPending, None));
    case Delivered => DeliveredRowsRecover(t, e, j, now);
  }

  lemma RescheduledRow(t: Tables, j: JobId, now: Time)
    requires j in t.jobs && t.jobs[j].state in {Running, WaitingForOtp}
    ensures Rescheduled(t, j, now) ==
            t.(jobs := t.jobs[j := Moved(Incremented(t.jobs[j]), RetryPending, Patch(t.jobs[j].currentStep, None), now)])
  {
    var t1 := IncrementRetry(t, j, Some(t.jobs[j].version)).After(t);
    assert t1.jobs[j] == Incremented(t.jobs[j]);
  }

  /** A cut-off job that is held on its IP waits for its retry then. */
  lemma RescheduledRows(t: Tables, t1: Tables, j: JobId, now: Time)
    requires j in t.jobs && t.jobs[j].state in {Running, WaitingForOtp} && t1.jobs == t.jobs
    requires IpIsHeld(RowsOf(t, j), RowsOf(t1, j))
    ensures var t2 := Rescheduled(t1, j, now);
            && t2.recoveries == t1.recoveries && t2.results == t1.results
            && j in t2.jobs && IsRescheduled(t.jobs[j], t2.jobs[j])
            && IpIsHeld(RowsOf(t, j), RowsOf(t2, j))
  {
    RescheduledRow(t1, j, now);
    SameLiveOf(t1, Rescheduled(t1, j, now), j);
  }

  lemma InterruptedRowsRecover(t: Tables, e: Env, j: JobId, now: Time)
    requires j in t.jobs && t.jobs[j].state in {Running, WaitingForOtp} && j !in t.results
    requires !AtUpload(e, t.jobs[j]) && LiveOf(t, j).Some?
    ensures var t', v, v' := Recovered(t, e, j, now), RowsOf(t, j), RowsOf(Recovered(t, e, j, now), j);
            && v'.job.Some? && IpIsHeld(v, v')
            && if t.jobs[j].retryCount >= e.maxRetries then
                 v'.job == v.job && IsNoted(v, v', e.boot, RetryExhausted, None)
               else
                 && IsRescheduled(t.jobs[j], v'.job.value)
                 && IsNoted(v, v', e.boot, RetryScheduled, DueAt(now, t.jobs[j].retryCount + 1))
  {
    var job, t1 := t.jobs[j], ReserveForRetry(t, j).After(t);
    HeldRows(t, j);
    if job.retryCount >= e.maxRetries {
      ObservedRows(t, t1, e, j, ObservationOf(job, RetryExhausted, None));
    } else {
      RescheduledRows(t, t1, j, now);
      ObservedRows(t, Rescheduled(t1, j, now), e, j,
                   ObservationOf(job.(state := RetryPending), RetryScheduled, RetryAt(now, job.retryCount + 1)));
    }
  }

  lemma PreservedRowsRecover(t: Tables, e: Env, j: JobId, now: Time)
    requires j in t.jobs && !IsTerminal(t.jobs[j].state) && j !in t.results && IsPreserved(t, e, j)
    requires AtUpload(e, t.jobs[j]) || t.jobs[j].state == RetryPending
    ensures ExecutionRecovers(RowsOf(t, j), RowsOf(Recovered(t, e, j, now), j), e.maxRetries, e.uploadSteps, e.boot, now)
  {
    var job, t1 := t.jobs[j], ReserveForRetry(t, j).After(t);
    HeldRows(t, j);
    if AtUpload(e, job) {
      ObservedRows(t, t1, e, j, ObservationOf(job, BlockedUnsafeReplay, None));
    } else {
      ObservedRows(t, t1, e, j, ObservationOf(job, RetryScheduled, RetryAt(now, job.retryCount)));
    }
  }

  lemma CutOffRecovers(
    v: Rows, v': Rows, maxRetries: nat, uploadSteps: set<StepId>, boot: BootId, now: Time)
    requires v.job.Some? && v.job.value.state in {Running, WaitingForOtp} && v.ip.Some?
    requires v.job.value.currentStep.None? || v.job.value.currentStep.value !in uploadSteps
    requires v'.job.Some? && IpIsHeld(v, v')
    requires if v.job.value.retryCount >= maxRetries then
               v'.job == v.job && IsNoted(v, v', boot, RetryExhausted, None)
             else
               && IsRescheduled(v.job.value, v'.job.value)
               && IsNoted(v, v', boot, RetryScheduled, DueAt(now, v.job.value.retryCount + 1))
    ensures ExecutionRecovers(v, v', maxRetries, uploadSteps, boot, now)
  {
  }

  lemma QuietRowsRecover(t: Tables, e: Env, j: JobId, now: Time)
    requires j in t.jobs && !IsTerminal(t.jobs[j].state) && j !in t.results && !IsPreserved(t, e, j)
    ensures ExecutionRecovers(RowsOf(t, j), RowsOf(Recovered(t, e, j, now), j), e.maxRetries, e.uploadSteps, e.boot, now)
  {
    QuietObserves(t, e, j, now);
    ObservedRows(t, t, e, j, ObservationOf(t.jobs[j], ExpectedStatus(t, e, j), None));
  }

  lemma ExecutionRowsRecover(t: Tables, e: Env, j: JobId, now: Time)
    requires j in t.jobs && !IsTerminal(t.jobs[j].state) && j !in t.results
    ensures ExecutionRecovers(RowsOf(t, j), RowsOf(Recovered(t, e, j, now), j), e.maxRetries, e.uploadSteps, e.boot, now)
  {
    if !IsPreserved(t, e, j) {
      QuietRowsRecover(t, e, j, now);
    } else if AtUpload(e, t.jobs[j]) || t.jobs[j].state == RetryPending {
      PreservedRowsRecover(t, e, j, now);
    } else {
      InterruptedRowsRecover(t, e, j, now);
      CutOffRecovers(RowsOf(t, j), RowsOf(Recovered(t, e, j, now), j), e.maxRetries, e.uploadSteps, e.boot, now);
    }
  }

  /** Recovering a job does what the cases say. */
  lemma RecoveryFollowsTheCases(t: Tables, e: Env, j: JobId, now: Time)
    requires CanRecover(t, j) && UniqueLiveAllocations(t)
    ensures RowsRecover(RowsOf(t, j), RowsOf(Recovered(t, e, j, now), j), e.maxRetries, e.uploadSteps, e.boot, now)
  {
    if j in t.jobs && !IsTerminal(t.jobs[j].state) {
      if j in t.results {
        ResultRowsRecover(t, e, j, now);
      } else {
        ExecutionRowsRecover(t, e, j, now);
      }
    }
  }

  // -------------------------------------------------------------------------------------------
  // All jobs
  // -------------------------------------------------------------------------------------------

  ghost function RecoveredAll(t: Tables, e: Env, ids: seq<JobId>, now: Time): Tables {
    if ids == [] then t else Recovered(RecoveredAll(t, e, ids[..|ids| - 1], now), e, ids[|ids| - 1], now)
  }

  /** A delivered result can be terminalized; this holds in every reachable state. */
  predicate Finishable(t: Tables, j: JobId) {
    j in t.results ==>
      && t.results[j].terminalState == TerminalStateOf(t.results[j].outcome)
      && (j in t.jobs && !IsTerminal(t.jobs[j].state) && t.results[j].status == Delivered ==>
            CanTransition(t.jobs[j].state, t.results[j].terminalState))
  }

  lemma RecoverySettles(t: Tables, e: Env, j: JobId, now: Time)
    requires Finishable(t, j)
    ensures Settled(Recovered(t, e, j, now), e, j)
  {
    if j in t.jobs && !IsTerminal(t.jobs[j].state) {
      if j in t.results {
        ResultSettles(t, e, j, now);
      } else {
        ExecutionSettles(t, e, j, now);
      }
    }
  }

  lemma OthersKeepUniqueLive(t: Tables, t': Tables, j: JobId)
    requires UniqueLiveAllocations(t) && TouchesOnly(t, t', j)
    ensures UniqueLiveAllocations(t')
  {
    forall a, k | LiveFor(t', a, k) ensures LiveFor(t, a, k) {
      assert k == j ==> LiveFor(t, a, j);
    }
    forall a, p | LiveOn(t', a, p) ensures LiveOn(t, a, p) {
      assert LiveFor(t', a, t'.allocations[a].jobId);
    }
  }

  lemma OthersKeepLive(t: Tables, t': Tables, j: JobId, k: JobId)
    requires TouchesOnly(t, t', j) && k != j
    ensures LiveOf(t', k) == LiveOf(t, k)
  {
    assert forall a :: LiveFor(t', a, k) <==> LiveFor(t, a, k);
    if LiveOf(t, k).Some? { assert IsFirstLive(t', LiveOf(t, k).value, k); }
    if LiveOf(t', k).Some? { assert IsFirstLive(t, LiveOf(t', k).value, k); }
  }

  lemma ProxiesAreNotShared(t: Tables, a: AllocationId, j: JobId, k: JobId)
    requires UniqueLiveAllocations(t) && LiveFor(t, a, k) && k != j
    ensures !UsesProxy(t, t.allocations[a].proxyId, j)
  {
    assert LiveOn(t, a, t.allocations[a].proxyId);
  }

  lemma OthersKeepHeld(t: Tables, t': Tables, j: JobId, k: JobId)
    requires UniqueLiveAllocations(t) && TouchesOnly(t, t', j) && k != j
    requires IsHeld(t, LiveOf(t, k))
    ensures IsHeld(t', LiveOf(t', k))
  {
    OthersKeepLive(t, t', j, k);
    ProxiesAreNotShared(t, LiveOf(t, k).value, j, k);
  }

  lemma OthersKeepSettled(t: Tables, t': Tables, e: Env, j: JobId, k: JobId)
    requires UniqueLiveAllocations(t) && TouchesOnly(t, t', j) && k != j
    requires Settled(t, e, k)
    ensures Settled(t', e, k)
  {
    assert At(t'.jobs, k) == At(t.jobs, k) && At(t'.results, k) == At(t.results, k);
    assert At(t'.recoveries, k) == At(t.recoveries, k);
    OthersKeepLive(t, t', j, k);
    if IsHeld(t, LiveOf(t, k)) {
      OthersKeepHeld(t, t', j, k);
    }
  }

  /** After a pass every job it visited is settled, and jobs it did not visit are as they were. */
  lemma {:induction false} PassSettles(t: Tables, e: Env, ids: seq<JobId>, now: Time)
    requires UniqueLiveAllocations(t) && forall j :: Finishable(t, j)
    ensures var t' := RecoveredAll(t, e, ids, now);
            && UniqueLiveAllocations(t')
            && (forall j :: j in ids ==> Settled(t', e, j))
            && (forall j :: j !in ids ==>
                  At(t'.jobs, j) == At(t.jobs, j) && At(t'.results, j) == At(t.results, j)
                  && At(t'.recoveries, j) == At(t.recoveries, j))
  {
    if ids != [] {
      var init, last := ids[..|ids| - 1], ids[|ids| - 1];
      var t1 := RecoveredAll(t, e, init, now);
      var t2 := Recovered(t1, e, last, now);
      PassSettles(t, e, init, now);
      RecoveryTouchesOnly(t1, e, last, now);
      OthersKeepUniqueLive(t1, t2, last);
      if last in init {
        SettledStaysSettled(t1, e, last, now);
      } else {
        assert Finishable(t, last);
        RecoverySettles(t1, e, last, now);
      }
      forall j | j in ids ensures Settled(t2, e, j) {
        if j != last {
          OthersKeepSettled(t1, t2, e, last, j);
        }
      }
    }
  }

  lemma OthersKeepRows(t: Tables, t': Tables, j: JobId, k: JobId)
    requires UniqueLiveAllocations(t) && TouchesOnly(t, t', j) && k != j
    ensures RowsOf(t', k) == RowsOf(t, k)
  {
    OthersKeepLive(t, t', j, k);
    assert At(t'.jobs, k) == At(t.jobs, k) && At(t'.results, k) == At(t.results, k);
    assert At(t'.recoveries, k) == At(t.recoveries, k);
    if LiveOf(t, k).Some? {
      ProxiesAreNotShared(t, LiveOf(t, k).value, j, k);
    }
  }

  lemma SameRowsCanRecover(t: Tables, t': Tables, j: JobId)
    requires RowsOf(t', j) == RowsOf(t, j)
    ensures CanRecover(t', j) <==> CanRecover(t, j)
  {
  }

  /** Every job is recovered as the cases say, and the others are left as they were. It stands under a quantifier
      so that only proofs that ask for it have to look at it. */
  ghost predicate AllRecover(
    t: Tables, t': Tables, maxRetries: nat, uploadSteps: set<StepId>, boot: BootId, now: Time)
  {
    forall x {:trigger Asked(x)} :: Asked(x) ==>
      forall j :: RowsRecover(RowsOf(t, j), RowsOf(t', j), maxRetries, uploadSteps, boot, now)
  }

  /** A pass over distinct jobs recovers each of them from the rows it had before the pass. */
  lemma {:induction false} PassFollowsTheCases(t: Tables, e: Env, ids: seq<JobId>, now: Time)
    requires UniqueLiveAllocations(t) && forall j :: CanRecover(t, j)
    requires forall i, k :: 0 <= i < k < |ids| ==> ids[i] != ids[k]
    ensures var t' := RecoveredAll(t, e, ids, now);
            && UniqueLiveAllocations(t')
            && (forall j :: j !in ids ==> RowsOf(t', j) == RowsOf(t, j))
            && (forall j :: j in ids ==>
                  RowsRecover(RowsOf(t, j), RowsOf(t', j), e.maxRetries, e.uploadSteps, e.boot, now))
  {
    if ids != [] {
      var init, last := ids[..|ids| - 1], ids[|ids| - 1];
      var t1 := RecoveredAll(t, e, init, now);
      var t2 := Recovered(t1, e, last, now);
      PassFollowsTheCases(t, e, init, now);
      RecoveryTouchesOnly(t1, e, last, now);
      OthersKeepUniqueLive(t1, t2, last);
      SameRowsCanRecover(t, t1, last);
      RecoveryFollowsTheCases(t1, e, last, now);
      forall j | j != last ensures RowsOf(t2, j) == RowsOf(t1, j) {
        OthersKeepRows(t1, t2, last, j);
      }
    }
  }

  /** Nothing stands in the way of recovering any job; under a quantifier for the same reason. */
  ghost predicate AllCanRecover(t: Tables) {
    forall x {:trigger Asked(x)} :: Asked(x) ==> UniqueLiveAllocations(t) && forall j :: CanRecover(t, j)
  }

  lemma SameRecoverySameLive(t: Tables, t': Tables, j: JobId)
    requires SameRecovery(t, t')
    ensures LiveOf(t', j) == LiveOf(t, j)
  {
    assert forall a :: LiveFor(t', a, j) <==> LiveFor(t, a, j);
    if LiveOf(t, j).Some? { assert IsFirstLive(t', LiveOf(t, j).value, j); }
    if LiveOf(t', j).Some? { assert IsFirstLive(t, LiveOf(t', j).value, j); }
  }

  lemma SameRecoveryKeepsSettled(t: Tables, t': Tables, e: Env, j: JobId)
    requires SameRecovery(t, t') && Settled(t, e, j)
    ensures Settled(t', e, j)
  {
    SameRecoverySameLive(t, t', j);
    if LiveOf(t, j).Some? {
      assert SameAllocation(t.allocations[LiveOf(t, j).value], t'.allocations[LiveOf(t, j).value]);
    }
  }

  lemma SettledStaysSettled(t: Tables, e: Env, j: JobId, now: Time)
    requires Settled(t, e, j)
    ensures Settled(Recovered(t, e, j, now), e, j)
  {
    SettledStays(t, e, j, now);
    SameRecoveryKeepsSettled(t, Recovered(t, e, j, now), e, j);
  }

  lemma SameRecoveryIsTransitive(t: Tables, t1: Tables, t2: Tables)
    requires SameRecovery(t, t1) && SameRecovery(t1, t2)
    ensures SameRecovery(t, t2)
  {
  }

  /** Further passes over settled jobs, in any order and any number of times, change nothing. */
  lemma {:induction false} SettledPassStays(t: Tables, e: Env, ids: seq<JobId>, now: Time)
    requires forall j :: j in ids ==> Settled(t, e, j)
    ensures SameRecovery(t, RecoveredAll(t, e, ids, now))
  {
    if ids != [] {
      var init, last := ids[..|ids| - 1], ids[|ids| - 1];
      var t1 := RecoveredAll(t, e, init, now);
      SettledPassStays(t, e, init, now);
      SameRecoveryKeepsSettled(t, t1, e, last);
      SettledStays(t1, e, last, now);
      SameRecoveryIsTransitive(t, t1, Recovered(t1, e, last, now));
    }
  }

  /** The jobs that recoverAll visits. */
  ghost predicate AreIncomplete(t: Tables, ids: seq<JobId>) {
    forall j :: j in ids <==> j in t.jobs && !IsTerminal(t.jobs[j].state)
  }

  /** once is what recoverAll makes of t. The equation stands under a quantifier so that only proofs that
      ask for it have to look at it. */
  ghost predicate IsPass(t: Tables, e: Env, ids: seq<JobId>, now: Time, once: Tables) {
    forall x {:trigger Asked(x)} :: Asked(x) ==> AreIncomplete(t, ids) && once == RecoveredAll(t, e, ids, now)
  }

  lemma PassIsPass(t: Tables, e: Env, ids: seq<JobId>, now: Time, once: Tables)
    ensures IsPass(t, e, ids, now, once) <==> AreIncomplete(t, ids) && once == RecoveredAll(t, e, ids, now)
  {
    assert Asked(0);
  }

  /** recoverAll, told case by case: unfinished jobs are recovered, and the others have nothing to recover. */
  lemma PassIsDone(t: Tables, e: Env, ids: seq<JobId>, now: Time, once: Tables)
    requires AreIncomplete(t, ids) && forall i, k :: 0 <= i < k < |ids| ==> ids[i] != ids[k]
    requires once == RecoveredAll(t, e, ids, now)
    ensures IsPass(t, e, ids, now, once)
    ensures AllCanRecover(t) ==> AllRecover(t, once, e.maxRetries, e.uploadSteps, e.boot, now)
  {
    if AllCanRecover(t) {
      assert Asked(0);
      PassFollowsTheCases(t, e, ids, now);
    }
  }

  /** A second recoverAll in the same boot changes no job state, retry count or version, no delivery
      status, no allocation identity or status, no proxy and no restart count. */
  lemma RecoveryIsIdempotent(
    t: Tables, e: Env, first: seq<JobId>, now: Time, once: Tables, second: seq<JobId>, later: Time, twice: Tables)
    requires UniqueLiveAllocations(t) && forall j :: Finishable(t, j)
    requires IsPass(t, e, first, now, once) && IsPass(once, e, second, later, twice)
    ensures SameRecovery(once, twice)
  {
    PassIsPass(t, e, first, now, once);
    PassIsPass(once, e, second, later, twice);
    PassSettles(t, e, first, now);
    forall j | j in second ensures Settled(once, e, j) {
      assert j !in first ==> At(once.jobs, j) == At(t.jobs, j);
    }
    SettledPassStays(once, e, second, later);
  }
}

/** The service itself, transaction by transaction. */
module RecoveryServices {
  import opened Wrappers
  import opened JobStates
  import opened ProxyStates
  import opened Schema
  import opened JobTransactions
  import opened AllocationTransactions
  import opened LedgerTransactions
  import opened RecoveryTransactions
  import opened RetryPolicy
  import opened Transactions
  import opened SystemModel
  import opened SystemInvariant
  import opened SystemSteps
  import opened Runtimes
  import opened FinalResultServices
  import opened RecoveryPasses

  class RecoveryService {
    const runtime: Runtime
    const results: FinalResultService
    const e: Env

    ghost predicate Valid()
      reads this, runtime, runtime.database, results
    {
      && results.runtime == runtime && results.Valid()
      && runtime.system.phase == Recovering
      && runtime.system.maxRetries == e.maxRetries
      && runtime.system.uploadSteps == e.uploadSteps
      && runtime.system.boot == e.boot
    }

    constructor (runtime: Runtime, results: FinalResultService, e: Env)
      ensures this.runtime == runtime && this.results == results && this.e == e
    {
      this.runtime := runtime;
      this.results := results;
      this.e := e;
    }

    ghost method NoteObserved(t: Tables, j: JobId, observation: Observation, now: Time)
      requires results.runtime == runtime && results.Behind(t)
      requires PcOf(runtime.system, j) == Observing(observation) && runtime.system.boot == e.boot
      requires runtime.database.Contents() == RecordRestart(t, j, e.boot, observation).After(t)
      modifies runtime`log, runtime`system
      ensures runtime.Valid() && Follows(old(runtime.log), runtime.log, j)
      ensures SameProcess(old(runtime.system), runtime.system, j)
      ensures SendsOf(runtime.system, j) == old(SendsOf(runtime.system, j))
      ensures PcOf(runtime.system, j).Idle?
    {
      runtime.Advance(j, Tick(now), Try(RecordOp(j, e.boot, observation), Idle, Idle));
    }

    /** record: the observation of this boot. */
    method Observe(j: JobId, observation: Observation, now: Time)
      requires Valid() && PcOf(runtime.system, j) == Observing(observation)
      modifies runtime, runtime.database
      ensures Valid() && Follows(old(runtime.log), runtime.log, j)
      ensures SameProcess(old(runtime.system), runtime.system, j)
      ensures SendsOf(runtime.system, j) == old(SendsOf(runtime.system, j))
      ensures PcOf(runtime.system, j).Idle?
      ensures runtime.database.Contents() == Observed(old(runtime.database.Contents()), e, j, observation)
    {
      ghost var t := runtime.database.Contents();
      var recorded := runtime.recoveries.Record(j, e.boot, observation);
      NoteObserved(t, j, observation, now);
    }

    /** A job for which nothing but the observation is written. */
    method ObserveOnly(j: JobId, observation: Observation, now: Time)
      requires Valid() && PcOf(runtime.system, j).Idle?
      requires RecoverStep(runtime.system, j, now) == GoTo(Observing(observation))
      modifies runtime, runtime.database
      ensures Valid() && Follows(old(runtime.log), runtime.log, j)
      ensures SameProcess(old(runtime.system), runtime.system, j)
      ensures SendsOf(runtime.system, j) == old(SendsOf(runtime.system, j))
      ensures PcOf(runtime.system, j).Idle?
      ensures runtime.database.Contents() == Observed(old(runtime.database.Contents()), e, j, observation)
    {
      ghost var log := runtime.log;
      runtime.NoteRecovery(j, now, GoTo(Observing(observation)));
      ghost var middle := runtime.log;
      Observe(j, observation, now);
      FollowsIsTransitive(log, middle, runtime.log, j);
    }

    /** recoverFinalResult for an interrupted send. */
    method RecoverInFlight(j: JobId, now: Time)
      requires Valid() && PcOf(runtime.system, j).Idle?
      requires j in runtime.database.jobs && !IsTerminal(runtime.database.jobs[j].state)
      requires HasStatus(runtime.database.Contents(), j, InFlight)
      modifies runtime, runtime.database
      ensures Valid() && Follows(old(runtime.log), runtime.log, j)
      ensures SameProcess(old(runtime.system), runtime.system, j)
      ensures SendsOf(runtime.system, j) == old(SendsOf(runtime.system, j))
      ensures PcOf(runtime.system, j).Idle?
      ensures runtime.database.Contents() == Recovered(old(runtime.database.Contents()), e, j, now)
    {
      ghost var log := runtime.log;
      var observation := ObservationOf(runtime.database.jobs[j], FinalResultUncertain, None);
      var marked := runtime.ledger.MarkInterruptedInFlightUncertain(j);
      runtime.NoteRecovery(j, now, Try(MarkInterruptedOp(j), Observing(observation), Idle));
      ghost var middle := runtime.log;
      Observe(j, observation, now);
      FollowsIsTransitive(log, middle, runtime.log, j);
    }

    /** recoverFinalResult for a delivered result: terminalize, release, observe. */
    method RecoverDelivered(j: JobId, now: Time) returns (r: Result<Job, Error>)
      requires Valid() && PcOf(runtime.system, j).Idle?
      requires j in runtime.database.jobs && !IsTerminal(runtime.database.jobs[j].state)
      requires HasStatus(runtime.database.Contents(), j, Delivered)
      modifies runtime, runtime.database
      ensures Valid() && Follows(old(runtime.log), runtime.log, j)
      ensures SameProcess(old(runtime.system), runtime.system, j)
      ensures SendsOf(runtime.system, j) == old(SendsOf(runtime.system, j))
      ensures PcOf(runtime.system, j).Idle?
      ensures r.Success? ==> runtime.database.Contents() == Recovered(old(runtime.database.Contents()), e, j, now)
      ensures r.Success? <==> CanRecover(old(runtime.database.Contents()), j)
    {
      ghost var log, t := runtime.log, runtime.database.Contents();
      FinalizesWhenItCanFinish(t, j, now);
      runtime.NoteRecovery(j, now, GoTo(Terminalizing(true)));
      ghost var started := runtime.log;
      r := results.FinalizeDeliveredRecord(j, now, true);
      FollowsIsTransitive(log, started, runtime.log, j);
      if r.Success? {
        ghost var finalized := runtime.log;
        Observe(j, ObservationOf(r.value, FinalResultDelivered, None), now);
        FollowsIsTransitive(log, finalized, runtime.log, j);
      }
    }

    /** recoverFinalResult. */
    method RecoverFinalResult(j: JobId, now: Time) returns (r: Result<(), Error>)
      requires Valid() && PcOf(runtime.system, j).Idle?
      requires j in runtime.database.jobs && !IsTerminal(runtime.database.jobs[j].state)
      requires j in runtime.database.results
      modifies runtime, runtime.database
      ensures Valid() && Follows(old(runtime.log), runtime.log, j)
      ensures SameProcess(old(runtime.system), runtime.system, j)
      ensures SendsOf(runtime.system, j) == old(SendsOf(runtime.system, j))
      ensures PcOf(runtime.system, j).Idle?
      ensures r.Success? ==> runtime.database.Contents() == Recovered(old(runtime.database.Contents()), e, j, now)
      ensures r.Success? <==> CanRecover(old(runtime.database.Contents()), j)
    {
      var job := runtime.database.jobs[j];
      r := Success(());
      match runtime.database.results[j].status {
        case InFlight => RecoverInFlight(j, now);
        case Uncertain => ObserveOnly(j, ObservationOf(job, FinalResultUncertain, None), now);
        case DeliveryPending => ObserveOnly(j, ObservationOf(job, FinalResultPending, None), now);
        case Delivered =>
          var finalized := RecoverDelivered(j, now);
          r := if finalized.Success? then Success(()) else Failure(finalized.error);
      }
    }

    /** preserveSameIpForRetry: the first step of recovering a job that may go on. */
    method PreserveSameIp(j: JobId, ghost next: Pc, now: Time)
      requires Valid() && PcOf(runtime.system, j).Idle?
      requires LiveOf(runtime.database.Contents(), j).Some?
      requires RecoverStep(runtime.system, j, now) == Try(RetryOp(j), next, Idle)
      modifies runtime, runtime.database
      ensures Valid() && Follows(old(runtime.log), runtime.log, j)
      ensures SameProcess(old(runtime.system), runtime.system, j)
      ensures SendsOf(runtime.system, j) == old(SendsOf(runtime.system, j))
      ensures PcOf(runtime.system, j) == next
      ensures runtime.database.Contents() ==
              ReserveForRetry(old(runtime.database.Contents()), j).After(old(runtime.database.Contents()))
    {
      var held := runtime.allocator.MarkRetryReserved(j);
      runtime.NoteRecovery(j, now, Try(RetryOp(j), next, Idle));
    }

    ghost method NoteIncrement(t: Tables, j: JobId, version: nat, now: Time)
      requires results.runtime == runtime && results.Behind(t)
      requires PcOf(runtime.system, j) == RecoveryHeld(version)
      requires runtime.database.Contents() == IncrementRetry(t, j, Some(version)).After(t)
      modifies runtime`log, runtime`system
      ensures runtime.Valid() && Follows(old(runtime.log), runtime.log, j)
      ensures SameProcess(old(runtime.system), runtime.system, j)
      ensures SendsOf(runtime.system, j) == old(SendsOf(runtime.system, j))
      ensures PcOf(runtime.system, j) ==
              if IncrementRetry(t, j, Some(version)).Commit? then RecoveryCounted(version + 1) else Idle
    {
      runtime.Advance(j, Tick(now), Try(IncrementOp(j, Some(version)), RecoveryCounted(version + 1), Idle));
    }

    ghost method NoteSchedule(t: Tables, j: JobId, version: nat, now: Time)
      requires results.runtime == runtime && results.Behind(t)
      requires PcOf(runtime.system, j) == RecoveryCounted(version) && j in t.jobs
      requires var tx := TransitionJob(t, j, RetryPending, Patch(t.jobs[j].currentStep, None), Some(version), now);
               tx.Commit? && runtime.database.Contents() == tx.tables
      modifies runtime`log, runtime`system
      ensures runtime.Valid() && Follows(old(runtime.log), runtime.log, j)
      ensures SameProcess(old(runtime.system), runtime.system, j)
      ensures SendsOf(runtime.system, j) == old(SendsOf(runtime.system, j))
      ensures PcOf(runtime.system, j) ==
              Observing(ObservationOf(t.jobs[j].(state := RetryPending), RetryScheduled, RetryAt(now, t.jobs[j].retryCount)))
    {
      runtime.Advance(j, Tick(now), ScheduleStep(t, j, version, now));
    }

    /** The interrupted attempt is counted. */
    method CountInterruption(j: JobId, version: nat, now: Time)
      requires Valid() && PcOf(runtime.system, j) == RecoveryHeld(version)
      requires j in runtime.database.jobs && runtime.database.jobs[j].version == version
      requires !IsTerminal(runtime.database.jobs[j].state)
      modifies runtime, runtime.database
      ensures Valid() && Follows(old(runtime.log), runtime.log, j)
      ensures SameProcess(old(runtime.system), runtime.system, j)
      ensures SendsOf(runtime.system, j) == old(SendsOf(runtime.system, j))
      ensures PcOf(runtime.system, j) == RecoveryCounted(version + 1)
      ensures var t := old(runtime.database.Contents());
              runtime.database.Contents() == t.(jobs := t.jobs[j := Incremented(t.jobs[j])])
    {
      ghost var t := runtime.database.Contents();
      var counted := runtime.jobStore.Increment(j, Some(version));
      NoteIncrement(t, j, version, now);
    }

    /** The counted job waits for its retry. */
    method AwaitRetry(j: JobId, version: nat, now: Time)
      requires Valid() && PcOf(runtime.system, j) == RecoveryCounted(version)
      requires j in runtime.database.jobs && runtime.database.jobs[j].version == version
      requires runtime.database.jobs[j].state in {Running, WaitingForOtp}
      modifies runtime, runtime.database
      ensures Valid() && Follows(old(runtime.log), runtime.log, j)
      ensures SameProcess(old(runtime.system), runtime.system, j)
      ensures SendsOf(runtime.system, j) == old(SendsOf(runtime.system, j))
      ensures var t := old(runtime.database.Contents());
              && runtime.database.Contents() ==
                 t.(jobs := t.jobs[j := Moved(t.jobs[j], RetryPending, Patch(t.jobs[j].currentStep, None), now)])
              && PcOf(runtime.system, j) ==
                 Observing(ObservationOf(t.jobs[j].(state := RetryPending), RetryScheduled, RetryAt(now, t.jobs[j].retryCount)))
    {
      ghost var t := runtime.database.Contents();
      var waiting := runtime.jobStore.Transition(
        j, RetryPending, Patch(runtime.database.jobs[j].currentStep, None), Some(version), now);
      NoteSchedule(t, j, version, now);
    }

    /** incrementRetry, then the transition to RETRY_PENDING. */
    method Reschedule(j: JobId, now: Time)
      requires Valid() && j in runtime.database.jobs
      requires PcOf(runtime.system, j) == RecoveryHeld(runtime.database.jobs[j].version)
      requires runtime.database.jobs[j].state in {Running, WaitingForOtp}
      modifies runtime, runtime.database
      ensures Valid() && Follows(old(runtime.log), runtime.log, j)
      ensures SameProcess(old(runtime.system), runtime.system, j)
      ensures SendsOf(runtime.system, j) == old(SendsOf(runtime.system, j))
      ensures runtime.database.Contents() == Rescheduled(old(runtime.database.Contents()), j, now)
      ensures PcOf(runtime.system, j) ==
              Observing(ObservationOf(old(runtime.database.jobs)[j].(state := RetryPending), RetryScheduled,
                                      RetryAt(now, old(runtime.database.jobs)[j].retryCount + 1)))
    {
      ghost var log, t := runtime.log, runtime.database.Contents();
      var version := runtime.database.jobs[j].version;
      CountInterruption(j, version, now);
      ghost var middle := runtime.log;
      AwaitRetry(j, version + 1, now);
      FollowsIsTransitive(log, middle, runtime.log, j);
      RescheduledRow(t, j, now);
    }

    /** recoverInterruptedExecution, once the IP is preserved. */
    method FinishInterrupted(j: JobId, now: Time)
      requires Valid() && j in runtime.database.jobs
      requires PcOf(runtime.system, j) == AfterInterruption(runtime.system, runtime.database.jobs[j])
      requires runtime.database.jobs[j].state in {Running, WaitingForOtp}
      modifies runtime, runtime.database
      ensures Valid() && Follows(old(runtime.log), runtime.log, j)
      ensures SameProcess(old(runtime.system), runtime.system, j)
      ensures SendsOf(runtime.system, j) == old(SendsOf(runtime.system, j))
      ensures PcOf(runtime.system, j).Idle?
      ensures runtime.database.Contents() == RecoverInterrupted(old(runtime.database.Contents()), e, j, now)
    {
      ghost var log := runtime.log;
      var job := runtime.database.jobs[j];
      if job.retryCount >= e.maxRetries {
        Observe(j, ObservationOf(job, RetryExhausted, None), now);
      } else {
        Reschedule(j, now);
        ghost var scheduled := runtime.log;
        Observe(j, ObservationOf(job.(state := RetryPending), RetryScheduled, RetryAt(now, job.retryCount + 1)), now);
        FollowsIsTransitive(log, scheduled, runtime.log, j);
      }
    }

    /** recoverInterruptedExecution, on a job that still has its IP. */
    method RecoverInterruptedExecution(j: JobId, now: Time)
      requires Valid() && PcOf(runtime.system, j).Idle?
      requires j in runtime.database.jobs && runtime.database.jobs[j].state in {Running, WaitingForOtp}
      requires j !in runtime.database.results && !AtUpload(e, runtime.database.jobs[j])
      requires LiveOf(runtime.database.Contents(), j).Some?
      modifies runtime, runtime.database
      ensures Valid() && Follows(old(runtime.log), runtime.log, j)
      ensures SameProcess(old(runtime.system), runtime.system, j)
      ensures SendsOf(runtime.system, j) == old(SendsOf(runtime.system, j))
      ensures PcOf(runtime.system, j).Idle?
      ensures runtime.database.Contents() == Recovered(old(runtime.database.Contents()), e, j, now)
    {
      ghost var log := runtime.log;
      PreserveSameIp(j, AfterInterruption(runtime.system, runtime.database.jobs[j]), now);
      ghost var held := runtime.log;
      FinishInterrupted(j, now);
      FollowsIsTransitive(log, held, runtime.log, j);
    }

    /** The job keeps its IP, and only the observation is written besides. */
    method PreserveAndObserve(j: JobId, observation: Observation, now: Time)
      requires Valid() && PcOf(runtime.system, j).Idle?
      requires LiveOf(runtime.database.Contents(), j).Some?
      requires RecoverStep(runtime.system, j, now) == Try(RetryOp(j), Observing(observation), Idle)
      modifies runtime, runtime.database
      ensures Valid() && Follows(old(runtime.log), runtime.log, j)
      ensures SameProcess(old(runtime.system), runtime.system, j)
      ensures SendsOf(runtime.system, j) == old(SendsOf(runtime.system, j))
      ensures PcOf(runtime.system, j).Idle?
      ensures var t := old(runtime.database.Contents());
              runtime.database.Contents() == Observed(ReserveForRetry(t, j).After(t), e, j, observation)
    {
      ghost var log := runtime.log;
      PreserveSameIp(j, Observing(observation), now);
      ghost var held := runtime.log;
      Observe(j, observation, now);
      FollowsIsTransitive(log, held, runtime.log, j);
    }

    /** The cases without a recorded result. */
    method RecoverWithoutResult(j: JobId, now: Time)
      requires Valid() && PcOf(runtime.system, j).Idle?
      requires j in runtime.database.jobs && !IsTerminal(runtime.database.jobs[j].state)
      requires j !in runtime.database.results
      modifies runtime, runtime.database
      ensures Valid() && Follows(old(runtime.log), runtime.log, j)
      ensures SameProcess(old(runtime.system), runtime.system, j)
      ensures SendsOf(runtime.system, j) == old(SendsOf(runtime.system, j))
      ensures PcOf(runtime.system, j).Idle?
      ensures runtime.database.Contents() == Recovered(old(runtime.database.Contents()), e, j, now)
    {
      var job := runtime.database.jobs[j];
      if job.state == WaitingForManualChallenge {
        ObserveOnly(j, ObservationOf(job, WaitingManual, None), now);
        return;
      }
      var atUpload := job.currentStep.Some? && job.currentStep.value in e.uploadSteps;
      if !atUpload && job.state in {Pending, Claimed, WaitingForIp} {
        ObserveOnly(j, ObservationOf(job, NoRecovery, None), now);
        return;
      }
      var live := runtime.database.LiveAllocation(j);
      if live.None? {
        ObserveOnly(j, ObservationOf(job, BlockedSessionLoss, None), now);
      } else if atUpload {
        PreserveAndObserve(j, ObservationOf(job, BlockedUnsafeReplay, None), now);
      } else if job.state == RetryPending {
        PreserveAndObserve(j, ObservationOf(job, RetryScheduled, RetryAt(now, job.retryCount)), now);
      } else {
        RecoverInterruptedExecution(j, now);
      }
    }

    /** In a process that began with empty tables nothing stands in the way of recovery. */
    lemma BootCanRecover(j: JobId)
      requires Valid() && runtime.StartsAtBoot()
      ensures CanRecover(runtime.database.Contents(), j)
      ensures UniqueLiveAllocations(runtime.database.Contents())
    {
      RunIsRun(Initial(runtime.origin.maxRetries, runtime.origin.uploadSteps), runtime.log, runtime.system);
      RunsAreOk(runtime.origin.maxRetries, runtime.origin.uploadSteps, runtime.log);
      if j in runtime.database.results {
        results.BootCanFinish(j);
      }
    }

    lemma BootCanRecoverAll()
      requires Valid() && runtime.StartsAtBoot()
      ensures AllCanRecover(runtime.database.Contents())
    {
      BootCanRecover(0);
      forall j ensures CanRecover(runtime.database.Contents(), j) {
        BootCanRecover(j);
      }
    }

    /** recoverJob. */
    method RecoverJob(j: JobId, now: Time) returns (r: Result<(), Error>)
      requires Valid() && PcOf(runtime.system, j).Idle?
      modifies runtime, runtime.database
      ensures Valid() && Follows(old(runtime.log), runtime.log, j)
      ensures SameProcess(old(runtime.system), runtime.system, j)
      ensures SendsOf(runtime.system, j) == old(SendsOf(runtime.system, j))
      ensures PcOf(runtime.system, j).Idle?
      ensures r.Success? ==> runtime.database.Contents() == Recovered(old(runtime.database.Contents()), e, j, now)
      ensures r.Success? <==> CanRecover(old(runtime.database.Contents()), j)
      ensures r.Success? && UniqueLiveAllocations(old(runtime.database.Contents())) ==>
                RowsRecover(RowsOf(old(runtime.database.Contents()), j), RowsOf(runtime.database.Contents(), j),
                            e.maxRetries, e.uploadSteps, e.boot, now)
      ensures runtime.StartsAtBoot() ==> r.Success? && UniqueLiveAllocations(old(runtime.database.Contents()))
    {
      ghost var t := runtime.database.Contents();
      if runtime.StartsAtBoot() {
        BootCanRecover(j);
      }
      r := Success(());
      if j in runtime.database.jobs && !IsTerminal(runtime.database.jobs[j].state) {
        if j in runtime.database.results {
          r := RecoverFinalResult(j, now);
        } else {
          RecoverWithoutResult(j, now);
        }
      }
      if r.Success? && UniqueLiveAllocations(t) {
        RecoveryFollowsTheCases(t, e, j, now);
      }
    }

    /** One after the other; the first job that cannot be recovered ends it. */
    method RecoverEach(ids: seq<JobId>, now: Time) returns (r: Result<(), Error>)
      requires Valid() && forall j :: PcOf(runtime.system, j).Idle?
      modifies runtime, runtime.database
      ensures Valid() && forall j :: PcOf(runtime.system, j).Idle?
      ensures r.Success? ==>
                runtime.database.Contents() == RecoveredAll(old(runtime.database.Contents()), e, ids, now)
      ensures runtime.StartsAtBoot() ==> r.Success?
    {
      ghost var t := runtime.database.Contents();
      var i := 0;
      while i < |ids|
        invariant 0 <= i <= |ids|
        invariant Valid() && forall j :: PcOf(runtime.system, j).Idle?
        invariant runtime.database.Contents() == RecoveredAll(t, e, ids[..i], now)
      {
        ghost var before := runtime.system;
        assert ids[..i + 1][..i] == ids[..i];
        r := RecoverJob(ids[i], now);
        OthersStay(before, runtime.system, ids[i]);
        if r.Failure? {
          return r;
        }
        i := i + 1;
      }
      assert ids[..|ids|] == ids;
      r := Success(());
    }

    /** recoverAll: every incomplete job once, on a process that does nothing else yet. It throws at the
        first job that cannot be recovered; in a process that began with empty tables there is none, and every job
        is recovered as the cases say. */
    method RecoverAll(now: Time) returns (r: Result<(), Error>, ids: seq<JobId>)
      requires Valid() && forall j :: PcOf(runtime.system, j).Idle?
      modifies runtime, runtime.database
      ensures Valid() && forall j :: PcOf(runtime.system, j).Idle?
      ensures AreIncomplete(old(runtime.database.Contents()), ids)
      ensures r.Success? ==> IsPass(old(runtime.database.Contents()), e, ids, now, runtime.database.Contents())
      ensures runtime.StartsAtBoot() ==>
                && r.Success?
                && AllRecover(old(runtime.database.Contents()), runtime.database.Contents(), e.maxRetries, e.uploadSteps,
                              e.boot, now)
    {
      ids := runtime.jobStore.ListIncomplete();
      ghost var t := runtime.database.Contents();
      if runtime.StartsAtBoot() {
        BootCanRecoverAll();
      }
      r := RecoverEach(ids, now);
      if r.Success? {
        PassIsDone(t, e, ids, now, runtime.database.Contents());
      }
    }
  }

  /** In every reachable state the premises of idempotence hold, so a second recoverAll of the same boot
      is without effect. */
  lemma ReachableRecoveryIsIdempotent(
    maxRetries: nat, uploadSteps: set<StepId>, actions: seq<Action>, s: System, boot: BootId,
    first: seq<JobId>, now: Time, once: Tables, second: seq<JobId>, later: Time, twice: Tables)
    requires IsRun(Initial(maxRetries, uploadSteps), actions, s)
    requires IsPass(s.tables, Env(maxRetries, uploadSteps, boot), first, now, once)
    requires IsPass(once, Env(maxRetries, uploadSteps, boot), second, later, twice)
    ensures SameRecovery(once, twice)
  {
    RunIsRun(Initial(maxRetries, uploadSteps), actions, s);
    RunsAreOk(maxRetries, uploadSteps, actions);
    forall j ensures Finishable(s.tables, j) {
      ReadyJob(s, j);
    }
    RecoveryIsIdempotent(s.tables, Env(maxRetries, uploadSteps, boot), first, now, once, second, later, twice);
  }
}
