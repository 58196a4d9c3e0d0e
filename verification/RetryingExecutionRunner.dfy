/** Bounded retries around execution attempts (src/runtime/retrying-execution-runner.js). */
module RetryingExecutionRunners {
  import opened Wrappers
  import opened JobStates
  import opened ProxyStates
  import opened Schema
  import opened JobTransactions
  import opened AllocationTransactions
  import opened RetryPolicy
  import opened Transactions
  import opened SystemModel
  import opened SystemInvariant
  import opened SystemSteps
  import opened Runtimes
  import opened ExecutionWorkers

  /** A failure that ends the execution for good. */
  datatype TerminalFailure = TerminalFailure(decision: Decision, code: Code, retryCount: nat)

  /** What one attempt comes to: the workflow is done, another attempt is due, or something is thrown. */
  datatype Tried = Done | TryAgain | GaveUp(terminal: Option<TerminalFailure>)

  /** Where control goes: a completed workflow and a terminal failure are finalized. */
  function ControlAfter(r: Tried): Pc {
    match r
    case Done => Finalizing(SuccessOutcome)
    case TryAgain => Starting
    case GaveUp(terminal) => if terminal.Some? then Finalizing(FailureOutcome) else Idle
  }

  /** What an error comes to, on a RUNNING job that still has its IP: a challenge, a shutdown and an abort are
      thrown on and leave the job as it is; an error that does not call itself retryable, or meets an empty
      budget, is a terminal failure; any other one is worth another attempt, if the wait is not cut short. */
  function VerdictOn(error: ExecutionError, retryCount: nat, maxRetries: nat, sleepAborted: bool): Tried {
    if IsChallenge(error) || IsInterruption(error) then GaveUp(None)
    else if !error.retryable then
      GaveUp(Some(TerminalFailure(NonRetryable, CodeOr(error.code, NonRetryableError), retryCount)))
    else if retryCount >= maxRetries then
      GaveUp(Some(TerminalFailure(Exhausted, CodeOr(error.code, RetryExhaustedError), retryCount)))
    else if sleepAborted then GaveUp(None)
    else TryAgain
  }

  /** What an attempt comes to that was let in. */
  function VerdictAfter(attempt: Attempt, retryCount: nat, maxRetries: nat, sleepAborted: bool): Tried {
    if attempt.Succeeds? then Done else VerdictOn(attempt.error, retryCount, maxRetries, sleepAborted)
  }

  /** A failure that costs a retry of the budget. */
  predicate CostsRetry(error: ExecutionError, retryCount: nat, maxRetries: nat) {
    IsFailure(error) && error.retryable && retryCount < maxRetries
  }

  /** The job row after a failure that costs a retry: one retry counted, and waiting for it with the code of
      the error, if the IP could be kept. */
  predicate IsCounted(before: Job, after: Job, code: Code, waits: bool) {
    && after.retryCount == before.retryCount + 1
    && after.state == (if waits then RetryPending else before.state)
    && after.failureCode == (if waits then Some(code) else before.failureCode)
    && after.version == before.version + (if waits then 2 else 1)
    && after == before.(retryCount := after.retryCount, state := after.state, failureCode := after.failureCode,
                        version := after.version)
  }

  /** An attempt failed with an error that calls itself retryable and is neither a manual challenge nor a
      shutdown. */
  predicate RetryableAttempt(attempt: Attempt) {
    !attempt.Succeeds? && IsRetryableError(attempt.error)
  }

  /** Another attempt costs exactly one retry of the budget; success and terminal failures cost none. */
  predicate RetryCountMoves(before: nat, after: nat, maxRetries: nat, r: Tried) {
    match r
    case Done => after == before
    case TryAgain => after == before + 1 && after <= maxRetries
    case GaveUp(terminal) =>
      if terminal.Some? then
        after == before && terminal.value.retryCount == after
        && (terminal.value.decision == Exhausted ==> after >= maxRetries)
      else
        before <= after <= before + 1
  }

  /** The machine answers a failure of j with a counted retry under this code. */
  ghost predicate CountsRetry(s: System, j: JobId, error: ExecutionError, code: Code) {
    && j in s.tables.jobs
    && FailureStep(s, j, error) ==
       Try(IncrementOp(j, Some(s.tables.jobs[j].version)), Counted(s.tables.jobs[j].version + 1, code), Idle)
  }

  lemma FailingTick(s: System, j: JobId, error: ExecutionError, now: Time)
    requires PcOf(s, j) == Failing(error)
    ensures StepOf(s, j, Tick(now)) == FailureStep(s, j, error)
  {
  }

  /** What handling a failure comes to: a terminal failure exactly when the policy says so, another
      attempt exactly when the policy grants a retry, the job is RUNNING with its IP and nobody interrupts
      the wait; everything else is thrown on and leaves the job to recovery. */
  ghost predicate HandledAs(
    t: Tables, j: JobId, error: ExecutionError, maxRetries: nat, sleepAborted: bool, r: Tried)
  {
    if j !in t.jobs then
      r == GaveUp(None)
    else
      var verdict := VerdictOn(error, t.jobs[j].retryCount, maxRetries, sleepAborted);
      r == if verdict == TryAgain && (t.jobs[j].state != Running || LiveOf(t, j).None?) then GaveUp(None) else verdict
  }

  /** An error after which another attempt is possible. */
  predicate IsRetryableError(error: ExecutionError) {
    && error.retryable
    && error.code != Some(ManualChallengeRequired)
    && !IsShutdownCode(error.code) && !error.abortName
  }

  /** A failure changes nothing, unless it costs a retry of a RUNNING job. */
  ghost predicate FailureLeaves(t: Tables, t': Tables, j: JobId, error: ExecutionError, maxRetries: nat) {
    if j in t.jobs && t.jobs[j].state == Running && CostsRetry(error, t.jobs[j].retryCount, maxRetries) then
      && j in t'.jobs
      && t'.jobs == t.jobs[j := t'.jobs[j]]
      && IsCounted(t.jobs[j], t'.jobs[j], CodeOr(error.code, RetryableError), LiveOf(t, j).Some?)
      && IpIsKept(t, t', j)
    else
      t' == t
  }

  /** The IP that a job has is held for its retry; other allocations stay as they are. */
  ghost predicate IpIsKept(t: Tables, t': Tables, j: JobId) {
    match LiveOf(t, j)
    case None => t'.allocations == t.allocations
    case Some(a) =>
      && a in t.allocations && a in t'.allocations && t'.allocations == t.allocations[a := t'.allocations[a]]
      && LiveOf(t', j).Some?
      && t'.allocations[a].proxyId == t.allocations[a].proxyId && t'.allocations[a].endpoint == t.allocations[a].endpoint
      && (t.allocations[a].status in {AllocReserved, AllocActive, AllocRetryReserved} ==>
            t'.allocations[a].status == AllocRetryReserved)
  }

  lemma HoldingKeepsIp(t: Tables, t1: Tables, t': Tables, j: JobId)
    requires t1.allocations == t.allocations
    requires t'.allocations ==
             if LiveOf(t1, j).Some? then
               t1.allocations[LiveOf(t1, j).value := HeldForRetry(t1.allocations[LiveOf(t1, j).value])]
             else t1.allocations
    ensures IpIsKept(t, t', j)
  {
    SameLiveOf(t, t1, j);
    if LiveOf(t, j).Some? {
      assert LiveFor(t', LiveOf(t, j).value, j);
    }
  }

  /** Whether the first attempt is let in; later ones always are. */
  ghost predicate IsReady(t: Tables, contexts: set<JobId>, resuming: bool, j: JobId) {
    if resuming then Resumable(t, contexts, j) else Runnable(t, j)
  }

  /** What one attempt and the handling of its failure come to, on a job that exists. An attempt that is not let
      in changes nothing and is a terminal failure, because its error calls itself nothing. An attempt that is
      let in ends as its error says; and after a challenge, a shutdown or an abort the job is as the attempt left
      it, waiting for a human or RUNNING, with its IP and its retry count. */
  ghost predicate TriesAs(
    t: Tables, t': Tables, ready: bool, attempt: Attempt, sleepAborted: bool, maxRetries: nat, j: JobId, r: Tried)
  {
    && j in t.jobs && j in t'.jobs
    && (!ready ==>
          t' == t && r == GaveUp(Some(TerminalFailure(NonRetryable, NonRetryableError, t.jobs[j].retryCount))))
    && (ready ==>
          && r == VerdictAfter(attempt, t.jobs[j].retryCount, maxRetries, sleepAborted)
          && LiveOf(t', j).Some?
          && (r == TryAgain ==> Runnable(t', j))
          && t'.jobs[j].retryCount == t.jobs[j].retryCount +
             (if !attempt.Succeeds? && CostsRetry(attempt.error, t.jobs[j].retryCount, maxRetries) then 1 else 0)
          && (!attempt.Succeeds? && !IsFailure(attempt.error) ==>
                t'.jobs[j].state == if BecomesChallenge(attempt) then WaitingForManualChallenge else Running))
  }

  /** The same under a quantifier, so that only proofs that ask for it have to look at it. */
  ghost predicate TriedAs(
    t: Tables, t': Tables, ready: bool, attempt: Attempt, sleepAborted: bool, maxRetries: nat, j: JobId, r: Tried)
  {
    forall x {:trigger Asked(x)} :: Asked(x) ==> TriesAs(t, t', ready, attempt, sleepAborted, maxRetries, j, r)
  }

  /** The attempts before number n failed with retryable errors, and nothing cut their waits short. */
  predicate AllRetried(attempts: nat -> Attempt, sleepAborted: nat -> bool, n: nat) {
    forall i :: 0 <= i < n ==> RetryableAttempt(attempts(i)) && !sleepAborted(i)
  }

  /** Before attempt number n: every earlier one was let in, failed with a retryable error, cost one retry, and
      was waited for; the next one is let in as well. */
  ghost predicate ReachesAttempt(
    t: Tables, t': Tables, ready: bool, attempts: nat -> Attempt, sleepAborted: nat -> bool, maxRetries: nat, j: JobId,
    n: nat)
  {
    forall x {:trigger Asked(x)} :: Asked(x) ==>
      && j in t.jobs && j in t'.jobs
      && t'.jobs[j].retryCount == t.jobs[j].retryCount + n
      && (n == 0 ==> t' == t)
      && (n > 0 ==> ready && Runnable(t', j) && t.jobs[j].retryCount + n <= maxRetries)
      && AllRetried(attempts, sleepAborted, n)
  }

  /** What all attempts come to, when the one with this number is the last: what that one comes to, after as many
      retries. */
  ghost predicate EndsAs(
    t: Tables, t': Tables, ready: bool, attempts: nat -> Attempt, sleepAborted: nat -> bool, maxRetries: nat, j: JobId,
    r: Tried, retries: nat)
  {
    && j in t.jobs && j in t'.jobs
    && AllRetried(attempts, sleepAborted, retries)
    && (retries > 0 ==> t.jobs[j].retryCount + retries <= maxRetries)
    && (!ready ==>
          && retries == 0 && t' == t
          && r == GaveUp(Some(TerminalFailure(NonRetryable, NonRetryableError, t.jobs[j].retryCount))))
    && (ready ==>
          var last := attempts(retries);
          && r == VerdictAfter(last, t.jobs[j].retryCount + retries, maxRetries, sleepAborted(retries))
          && LiveOf(t', j).Some?
          && t'.jobs[j].retryCount == t.jobs[j].retryCount + retries +
             (if !last.Succeeds? && CostsRetry(last.error, t.jobs[j].retryCount + retries, maxRetries) then 1 else 0)
          && (!last.Succeeds? && !IsFailure(last.error) ==>
                t'.jobs[j].state == if BecomesChallenge(last) then WaitingForManualChallenge else Running))
  }

  /** The same under a quantifier, so that only proofs that ask for it have to look at it. */
  ghost predicate EndedAs(
    t: Tables, t': Tables, ready: bool, attempts: nat -> Attempt, sleepAborted: nat -> bool, maxRetries: nat, j: JobId,
    r: Tried, retries: nat)
  {
    forall x {:trigger Asked(x)} :: Asked(x) ==>
      EndsAs(t, t', ready, attempts, sleepAborted, maxRetries, j, r, retries)
  }

  lemma FirstAttemptIsReached(
    t: Tables, ready: bool, attempts: nat -> Attempt, sleepAborted: nat -> bool, maxRetries: nat, j: JobId)
    requires j in t.jobs
    ensures ReachesAttempt(t, t, ready, attempts, sleepAborted, maxRetries, j, 0)
  {
  }

  /** The attempt with number n is let in like the first one, or because the job waits for its retry. */
  lemma NextAttempt(
    t: Tables, t1: Tables, t': Tables, ready: bool, attempts: nat -> Attempt, sleepAborted: nat -> bool,
    maxRetries: nat, j: JobId, n: nat, r: Tried)
    requires ReachesAttempt(t, t1, ready, attempts, sleepAborted, maxRetries, j, n)
    requires TriedAs(t1, t', if n == 0 then ready else Runnable(t1, j), attempts(n), sleepAborted(n), maxRetries, j, r)
    ensures r == TryAgain ==>
              && n < maxRetries
              && ReachesAttempt(t, t', ready, attempts, sleepAborted, maxRetries, j, n + 1)
    ensures r != TryAgain ==> EndedAs(t, t', ready, attempts, sleepAborted, maxRetries, j, r, n)
  {
    assert Asked(0);
  }

  lemma EndedFacts(
    t: Tables, t': Tables, ready: bool, attempts: nat -> Attempt, sleepAborted: nat -> bool, maxRetries: nat, j: JobId,
    r: Tried, retries: nat)
    requires EndedAs(t, t', ready, attempts, sleepAborted, maxRetries, j, r, retries)
    ensures j in t.jobs && j in t'.jobs
    ensures r == Done ==> attempts(retries).Succeeds?
    ensures AllRetried(attempts, sleepAborted, retries)
    ensures retries > 0 ==> t.jobs[j].retryCount + retries <= maxRetries
    ensures RetryCountMoves(t.jobs[j].retryCount + retries, t'.jobs[j].retryCount, maxRetries, r)
  {
    assert Asked(0);
  }

  /** First the attempt, then the failure. */
  lemma AttemptThenFailure(
    t: Tables, t1: Tables, t': Tables, ready: bool, attempt: Attempt, sleepAborted: bool, maxRetries: nat, j: JobId,
    attempted: Result<(), ExecutionError>, pc: Pc, r: Tried)
    requires j in t.jobs && j in t1.jobs && AttemptDone(ready, attempt, attempted, pc, t1, j) && attempted.Failure?
    requires t1.jobs[j].retryCount == t.jobs[j].retryCount && (!ready ==> t1 == t)
    requires LiveOf(t1, j).Some? <==> LiveOf(t, j).Some?
    requires ready ==> LiveOf(t, j).Some?
    requires HandledAs(t1, j, attempted.error, maxRetries, sleepAborted, r)
    requires FailureLeaves(t1, t', j, attempted.error, maxRetries)
    ensures TriedAs(t, t', ready, attempt, sleepAborted, maxRetries, j, r)
  {
  }

  lemma AttemptThenDone(
    t: Tables, t1: Tables, attempt: Attempt, sleepAborted: bool, maxRetries: nat, j: JobId, ready: bool,
    attempted: Result<(), ExecutionError>, pc: Pc)
    requires j in t.jobs && j in t1.jobs && AttemptDone(ready, attempt, attempted, pc, t1, j) && attempted.Success?
    requires t1.jobs[j].retryCount == t.jobs[j].retryCount
    requires LiveOf(t1, j).Some? <==> LiveOf(t, j).Some?
    requires ready ==> LiveOf(t, j).Some?
    ensures TriedAs(t, t1, ready, attempt, sleepAborted, maxRetries, j, Done)
  {
  }

  class RetryingExecutionRunner {
    const worker: ExecutionWorker
    const maxRetries: nat

    ghost predicate Valid()
      reads this, worker, worker.runtime, worker.runtime.database
    {
      worker.Valid() && worker.runtime.system.maxRetries == maxRetries
    }

    constructor (worker: ExecutionWorker, maxRetries: nat)
      ensures this.worker == worker && this.maxRetries == maxRetries
    {
      this.worker := worker;
      this.maxRetries := maxRetries;
    }

    // The machine's side of each statement below.

    ghost method NoteDecision(j: JobId, error: ExecutionError, now: Time)
      requires worker.runtime.Valid() && worker.runtime.system.maxRetries == maxRetries
      requires PcOf(worker.runtime.system, j) == Failing(error) && j in worker.runtime.system.tables.jobs
      requires var job := worker.runtime.system.tables.jobs[j];
               ClassifyRetry(error, job.retryCount, maxRetries).decision == Retry ==> job.state != Running
      modifies worker.runtime`log, worker.runtime`system
      ensures worker.runtime.Valid() && Follows(old(worker.runtime.log), worker.runtime.log, j)
      ensures SameProcess(old(worker.runtime.system), worker.runtime.system, j)
      ensures SendsOf(worker.runtime.system, j) == old(SendsOf(worker.runtime.system, j))
      ensures worker.runtime.system.contexts == old(worker.runtime.system.contexts)
      ensures PcOf(worker.runtime.system, j) ==
              if ClassifyRetry(error, worker.runtime.system.tables.jobs[j].retryCount, maxRetries).decision
                 in {NonRetryable, Exhausted}
              then Finalizing(FailureOutcome) else Idle
    {
      var c := ClassifyRetry(error, worker.runtime.system.tables.jobs[j].retryCount, maxRetries);
      var next := if c.decision == NonRetryable || c.decision == Exhausted then Finalizing(FailureOutcome) else Idle;
      worker.runtime.Advance(j, Tick(now), GoTo(next));
    }

    ghost method NoteCount(t: Tables, j: JobId, error: ExecutionError, code: Code, now: Time)
      requires worker.Behind(t)
      requires PcOf(worker.runtime.system, j) == Failing(error)
      requires j in t.jobs && t.jobs[j].state == Running
      requires CountsRetry(worker.runtime.system, j, error, code)
      requires worker.runtime.database.Contents() == IncrementRetry(t, j, Some(t.jobs[j].version)).After(t)
      modifies worker.runtime`log, worker.runtime`system
      ensures worker.runtime.Valid() && Follows(old(worker.runtime.log), worker.runtime.log, j)
      ensures SameProcess(old(worker.runtime.system), worker.runtime.system, j)
      ensures SendsOf(worker.runtime.system, j) == old(SendsOf(worker.runtime.system, j))
      ensures worker.runtime.system.contexts == old(worker.runtime.system.contexts)
      ensures PcOf(worker.runtime.system, j) == Counted(t.jobs[j].version + 1, code)
    {
      FailingTick(worker.runtime.system, j, error, now);
      worker.runtime.Advance(j, Tick(now), Try(IncrementOp(j, Some(t.jobs[j].version)),
                                               Counted(t.jobs[j].version + 1, code), Idle));
    }

    ghost method NoteHold(t: Tables, j: JobId, version: nat, code: Code, now: Time)
      requires worker.Behind(t) && PcOf(worker.runtime.system, j) == Counted(version, code)
      requires worker.runtime.database.Contents() == ReserveForRetry(t, j).After(t)
      modifies worker.runtime`log, worker.runtime`system
      ensures worker.runtime.Valid() && Follows(old(worker.runtime.log), worker.runtime.log, j)
      ensures SameProcess(old(worker.runtime.system), worker.runtime.system, j)
      ensures SendsOf(worker.runtime.system, j) == old(SendsOf(worker.runtime.system, j))
      ensures worker.runtime.system.contexts == old(worker.runtime.system.contexts)
      ensures PcOf(worker.runtime.system, j) == if LiveOf(t, j).Some? then HeldBack(version, code) else Idle
    {
      worker.runtime.Advance(j, Tick(now), Try(RetryOp(j), HeldBack(version, code), Idle));
    }

    ghost method NoteRetryPending(t: Tables, j: JobId, version: nat, code: Code, now: Time)
      requires worker.Behind(t) && PcOf(worker.runtime.system, j) == HeldBack(version, code)
      requires j in t.jobs && t.jobs[j].version == version && t.jobs[j].state == Running
      requires worker.runtime.database.Contents() ==
               TransitionJob(t, j, RetryPending, Patch(None, Some(code)), Some(version), now).After(t)
      modifies worker.runtime`log, worker.runtime`system
      ensures worker.runtime.Valid() && Follows(old(worker.runtime.log), worker.runtime.log, j)
      ensures SameProcess(old(worker.runtime.system), worker.runtime.system, j)
      ensures SendsOf(worker.runtime.system, j) == old(SendsOf(worker.runtime.system, j))
      ensures worker.runtime.system.contexts == old(worker.runtime.system.contexts)
      ensures PcOf(worker.runtime.system, j).Backoff?
    {
      worker.runtime.Advance(j, Tick(now),
        Try(TransitionOp(j, RetryPending, Patch(None, Some(code)), Some(version), now), Backoff, Idle));
    }

    ghost method NoteSleep(j: JobId, aborted: bool)
      requires worker.runtime.Valid() && PcOf(worker.runtime.system, j).Backoff?
      modifies worker.runtime`log, worker.runtime`system
      ensures worker.runtime.Valid() && Follows(old(worker.runtime.log), worker.runtime.log, j)
      ensures SameProcess(old(worker.runtime.system), worker.runtime.system, j)
      ensures SendsOf(worker.runtime.system, j) == old(SendsOf(worker.runtime.system, j))
      ensures worker.runtime.system.contexts == old(worker.runtime.system.contexts)
      ensures PcOf(worker.runtime.system, j) == if aborted then Idle else Starting
    {
      worker.runtime.Advance(j, if aborted then SleepAborted else SleepEnded, GoTo(if aborted then Idle else Starting));
    }

    // Handling failures.

    /** The budget is consumed, durably, before anything else. */
    method ConsumeBudget(j: JobId, error: ExecutionError, code: Code, now: Time) returns (version: nat)
      requires Valid() && PcOf(worker.runtime.system, j) == Failing(error)
      requires j in worker.runtime.database.jobs && worker.runtime.database.jobs[j].state == Running
      requires CountsRetry(worker.runtime.system, j, error, code)
      modifies worker.runtime, worker.runtime.database
      ensures worker.runtime.Valid() && Follows(old(worker.runtime.log), worker.runtime.log, j)
      ensures SameProcess(old(worker.runtime.system), worker.runtime.system, j)
      ensures SendsOf(worker.runtime.system, j) == old(SendsOf(worker.runtime.system, j))
      ensures worker.runtime.database.results == old(worker.runtime.database.results)
      ensures worker.runtime.system.contexts == old(worker.runtime.system.contexts)
      ensures PcOf(worker.runtime.system, j) == Counted(version, code)
      ensures version == old(worker.runtime.database.jobs)[j].version + 1
      ensures worker.runtime.database.jobs ==
              old(worker.runtime.database.jobs)[j := Incremented(old(worker.runtime.database.jobs)[j])]
      ensures worker.runtime.database.allocations == old(worker.runtime.database.allocations)
    {
      ghost var t := worker.runtime.database.Contents();
      ghost var job := worker.runtime.database.jobs[j];
      version := worker.runtime.database.jobs[j].version;
      var counted := worker.runtime.jobStore.Increment(j, Some(version));
      assert worker.runtime.database.jobs == t.jobs[j := Incremented(job)];
      NoteCount(t, j, error, code, now);
      version := version + 1;
    }

    /** The same IP is kept for the retry. */
    method KeepIp(j: JobId, version: nat, code: Code, now: Time) returns (ok: bool)
      requires worker.runtime.Valid() && PcOf(worker.runtime.system, j) == Counted(version, code)
      modifies worker.runtime, worker.runtime.database
      ensures worker.runtime.Valid() && Follows(old(worker.runtime.log), worker.runtime.log, j)
      ensures SameProcess(old(worker.runtime.system), worker.runtime.system, j)
      ensures SendsOf(worker.runtime.system, j) == old(SendsOf(worker.runtime.system, j))
      ensures worker.runtime.database.results == old(worker.runtime.database.results)
      ensures worker.runtime.system.contexts == old(worker.runtime.system.contexts)
      ensures ok <==> old(LiveOf(worker.runtime.database.Contents(), j)).Some?
      ensures PcOf(worker.runtime.system, j) == if ok then HeldBack(version, code) else Idle
      ensures worker.runtime.database.jobs == old(worker.runtime.database.jobs)
      ensures worker.runtime.database.allocations ==
              if ok then
                var a := old(LiveOf(worker.runtime.database.Contents(), j)).value;
                old(worker.runtime.database.allocations)[a := HeldForRetry(old(worker.runtime.database.allocations)[a])]
              else old(worker.runtime.database.allocations)
    {
      ghost var t := worker.runtime.database.Contents();
      var held := worker.runtime.allocator.MarkRetryReserved(j);
      NoteHold(t, j, version, code, now);
      ok := held.Success?;
    }

    /** The job waits for its retry. */
    method AwaitRetry(j: JobId, version: nat, code: Code, sleepAborted: bool, now: Time)
      requires worker.runtime.Valid() && PcOf(worker.runtime.system, j) == HeldBack(version, code)
      requires j in worker.runtime.database.jobs
      requires worker.runtime.database.jobs[j].version == version && worker.runtime.database.jobs[j].state == Running
      modifies worker.runtime, worker.runtime.database
      ensures worker.runtime.Valid() && Follows(old(worker.runtime.log), worker.runtime.log, j)
      ensures SameProcess(old(worker.runtime.system), worker.runtime.system, j)
      ensures SendsOf(worker.runtime.system, j) == old(SendsOf(worker.runtime.system, j))
      ensures worker.runtime.database.results == old(worker.runtime.database.results)
      ensures worker.runtime.system.contexts == old(worker.runtime.system.contexts)
      ensures PcOf(worker.runtime.system, j) == if sleepAborted then Idle else Starting
      ensures worker.runtime.database.jobs ==
              old(worker.runtime.database.jobs)[j :=
                Moved(old(worker.runtime.database.jobs)[j], RetryPending, Patch(None, Some(code)), now)]
      ensures worker.runtime.database.allocations == old(worker.runtime.database.allocations)
    {
      ghost var t, log := worker.runtime.database.Contents(), worker.runtime.log;
      var pending := worker.runtime.jobStore.Transition(j, RetryPending, Patch(None, Some(code)), Some(version), now);
      NoteRetryPending(t, j, version, code, now);
      ghost var middle := worker.runtime.log;
      NoteSleep(j, sleepAborted);
      FollowsIsTransitive(log, middle, worker.runtime.log, j);
    }

    /** After the count: keep the IP, then wait. */
    method HoldAndWait(j: JobId, version: nat, code: Code, sleepAborted: bool, now: Time) returns (r: Tried)
      requires worker.runtime.Valid() && PcOf(worker.runtime.system, j) == Counted(version, code)
      requires j in worker.runtime.database.jobs
      requires worker.runtime.database.jobs[j].version == version && worker.runtime.database.jobs[j].state == Running
      modifies worker.runtime, worker.runtime.database
      ensures worker.runtime.Valid() && Follows(old(worker.runtime.log), worker.runtime.log, j)
      ensures SameProcess(old(worker.runtime.system), worker.runtime.system, j)
      ensures SendsOf(worker.runtime.system, j) == old(SendsOf(worker.runtime.system, j))
      ensures worker.runtime.database.results == old(worker.runtime.database.results)
      ensures worker.runtime.system.contexts == old(worker.runtime.system.contexts)
      ensures r == if old(LiveOf(worker.runtime.database.Contents(), j)).Some? && !sleepAborted then TryAgain else GaveUp(None)
      ensures PcOf(worker.runtime.system, j) == ControlAfter(r)
      ensures j in worker.runtime.database.jobs
      ensures worker.runtime.database.jobs[j].retryCount == old(worker.runtime.database.jobs)[j].retryCount
      ensures worker.runtime.database.jobs ==
              if old(LiveOf(worker.runtime.database.Contents(), j)).Some? then
                old(worker.runtime.database.jobs)[j :=
                  Moved(old(worker.runtime.database.jobs)[j], RetryPending, Patch(None, Some(code)), now)]
              else old(worker.runtime.database.jobs)
      ensures worker.runtime.database.allocations ==
              if old(LiveOf(worker.runtime.database.Contents(), j)).Some? then
                var a := old(LiveOf(worker.runtime.database.Contents(), j)).value;
                old(worker.runtime.database.allocations)[a := HeldForRetry(old(worker.runtime.database.allocations)[a])]
              else old(worker.runtime.database.allocations)
      ensures r.TryAgain? ==> worker.runtime.database.jobs[j].state == RetryPending
    {
      ghost var log := worker.runtime.log;
      var kept := KeepIp(j, version, code, now);
      if !kept {
        return GaveUp(None);
      }
      ghost var held := worker.runtime.log;
      AwaitRetry(j, version, code, sleepAborted, now);
      FollowsIsTransitive(log, held, worker.runtime.log, j);
      r := if sleepAborted then GaveUp(None) else TryAgain;
    }

    /** A retryable failure: count, keep the IP, wait. */
    method ScheduleRetry(j: JobId, error: ExecutionError, code: Code, sleepAborted: bool, now: Time) returns (r: Tried)
      requires Valid() && PcOf(worker.runtime.system, j) == Failing(error)
      requires j in worker.runtime.database.jobs && worker.runtime.database.jobs[j].state == Running
      requires CountsRetry(worker.runtime.system, j, error, code)
      modifies worker.runtime, worker.runtime.database
      ensures worker.runtime.Valid() && Follows(old(worker.runtime.log), worker.runtime.log, j)
      ensures SameProcess(old(worker.runtime.system), worker.runtime.system, j)
      ensures SendsOf(worker.runtime.system, j) == old(SendsOf(worker.runtime.system, j))
      ensures worker.runtime.database.results == old(worker.runtime.database.results)
      ensures worker.runtime.system.contexts == old(worker.runtime.system.contexts)
      ensures r == if old(LiveOf(worker.runtime.database.Contents(), j)).Some? && !sleepAborted then TryAgain else GaveUp(None)
      ensures PcOf(worker.runtime.system, j) == ControlAfter(r)
      ensures j in worker.runtime.database.jobs
      ensures worker.runtime.database.jobs[j].retryCount == old(worker.runtime.database.jobs)[j].retryCount + 1
      ensures IsCounted(old(worker.runtime.database.jobs)[j], worker.runtime.database.jobs[j], code,
                        old(LiveOf(worker.runtime.database.Contents(), j)).Some?)
      ensures worker.runtime.database.jobs ==
              old(worker.runtime.database.jobs)[j := worker.runtime.database.jobs[j]]
      ensures IpIsKept(old(worker.runtime.database.Contents()), worker.runtime.database.Contents(), j)
      ensures r.TryAgain? ==> worker.runtime.database.jobs[j].state == RetryPending
    {
      ghost var log, t := worker.runtime.log, worker.runtime.database.Contents();
      var version := ConsumeBudget(j, error, code, now);
      ghost var counted := worker.runtime.log;
      SameFirstLive(t, worker.runtime.database.Contents(), j);
      ghost var t1 := worker.runtime.database.Contents();
      r := HoldAndWait(j, version, code, sleepAborted, now);
      FollowsIsTransitive(log, counted, worker.runtime.log, j);
      HoldingKeepsIp(t, t1, worker.runtime.database.Contents(), j);
    }

    /** handleFailure. */
    method HandleFailure(j: JobId, error: ExecutionError, sleepAborted: bool, now: Time) returns (r: Tried)
      requires Valid()
      requires if j in worker.runtime.database.jobs then PcOf(worker.runtime.system, j) == Failing(error)
               else PcOf(worker.runtime.system, j).Idle?
      modifies worker.runtime, worker.runtime.database
      ensures worker.runtime.Valid() && Follows(old(worker.runtime.log), worker.runtime.log, j)
      ensures SameProcess(old(worker.runtime.system), worker.runtime.system, j)
      ensures SendsOf(worker.runtime.system, j) == old(SendsOf(worker.runtime.system, j))
      ensures worker.runtime.database.results == old(worker.runtime.database.results)
      ensures worker.runtime.system.contexts == old(worker.runtime.system.contexts)
      ensures PcOf(worker.runtime.system, j) == ControlAfter(r)
      ensures HandledAs(old(worker.runtime.database.Contents()), j, error, maxRetries, sleepAborted, r)
      ensures r == TryAgain ==> IsRetryableError(error) && !sleepAborted
      ensures FailureLeaves(old(worker.runtime.database.Contents()), worker.runtime.database.Contents(), j, error,
                            maxRetries)
      ensures j in worker.runtime.database.jobs <==> old(j in worker.runtime.database.jobs)
      ensures j in worker.runtime.database.jobs ==>
                && RetryCountMoves(old(worker.runtime.database.jobs)[j].retryCount,
                                   worker.runtime.database.jobs[j].retryCount, maxRetries, r)
                && (r == TryAgain ==> worker.runtime.database.jobs[j].state == RetryPending)
    {
      if j !in worker.runtime.database.jobs {
        return GaveUp(None);
      }
      var job := worker.runtime.database.jobs[j];
      var c := ClassifyRetry(error, job.retryCount, maxRetries);
      FailureStepCases(worker.runtime.system, j, error);
      if c.decision == Retry && job.state == Running {
        r := ScheduleRetry(j, error, c.code, sleepAborted, now);
      } else {
        NoteDecision(j, error, now);
        r := GaveUp(if c.decision == NonRetryable || c.decision == Exhausted then
                      Some(TerminalFailure(c.decision, c.code, job.retryCount))
                    else None);
      }
    }

    /** A job that is not inside an attempt is not in flight before or after its failure is handled. */
    ghost method KeepWorker(j: JobId, before: System)
      requires worker.runtime.Valid() && SameProcess(before, worker.runtime.system, j)
      requires worker.contexts == worker.runtime.system.contexts && j !in worker.inFlight
      requires forall k :: k in worker.inFlight ==> PcOf(before, k).Activating? || PcOf(before, k).Executing?
      ensures worker.Valid()
    {
      OthersStay(before, worker.runtime.system, j);
    }

    /** One attempt; the first one of a resumed challenge goes on in its context. */
    method RunAttempt(j: JobId, resuming: bool, attempt: Attempt, now: Time) returns (r: Result<(), ExecutionError>)
      requires Valid()
      requires PcOf(worker.runtime.system, j) == if resuming then Resuming else Starting
      requires resuming ==> !attempt.NoSession?
      modifies worker, worker.runtime, worker.runtime.database
      ensures Valid() && Follows(old(worker.runtime.log), worker.runtime.log, j)
      ensures SameProcess(old(worker.runtime.system), worker.runtime.system, j)
      ensures SendsOf(worker.runtime.system, j) == old(SendsOf(worker.runtime.system, j))
      ensures worker.runtime.database.results == old(worker.runtime.database.results)
      ensures r.Success? ==>
                && attempt.Succeeds? && j in worker.runtime.database.jobs
                && PcOf(worker.runtime.system, j) == Finalizing(SuccessOutcome)
      ensures r.Failure? ==>
                && (r.error == PLAIN_ERROR || (!attempt.Succeeds? && r.error == attempt.error))
                && if j in worker.runtime.database.jobs then PcOf(worker.runtime.system, j) == Failing(r.error)
                   else PcOf(worker.runtime.system, j).Idle?
      ensures j in worker.runtime.database.jobs <==> old(j in worker.runtime.database.jobs)
      ensures j in worker.runtime.database.jobs ==>
                worker.runtime.database.jobs[j].retryCount == old(worker.runtime.database.jobs)[j].retryCount
      ensures AttemptDone(old(IsReady(worker.runtime.database.Contents(), worker.contexts, resuming, j)), attempt, r,
                          PcOf(worker.runtime.system, j), worker.runtime.database.Contents(), j)
      ensures LiveOf(worker.runtime.database.Contents(), j).Some? <==>
              old(LiveOf(worker.runtime.database.Contents(), j)).Some?
      ensures !old(IsReady(worker.runtime.database.Contents(), worker.contexts, resuming, j)) ==>
                worker.runtime.database.Contents() == old(worker.runtime.database.Contents())
    {
      ghost var t := worker.runtime.database.Contents();
      if resuming {
        r := worker.ResumeManualChallenge(j, attempt, now);
      } else {
        r := worker.Execute(j, attempt, now);
      }
      if resuming {
        SameFirstLive(t, worker.runtime.database.Contents(), j);
      }
    }

    /** One attempt and, if it fails, the handling of its failure. */
    method TryOnce(j: JobId, resuming: bool, attempt: Attempt, sleepAborted: bool, now: Time) returns (r: Tried)
      requires Valid()
      requires PcOf(worker.runtime.system, j) == if resuming then Resuming else Starting
      requires resuming ==> !attempt.NoSession?
      modifies worker, worker.runtime, worker.runtime.database
      ensures Valid() && Follows(old(worker.runtime.log), worker.runtime.log, j)
      ensures SameProcess(old(worker.runtime.system), worker.runtime.system, j)
      ensures SendsOf(worker.runtime.system, j) == old(SendsOf(worker.runtime.system, j))
      ensures worker.runtime.database.results == old(worker.runtime.database.results)
      ensures PcOf(worker.runtime.system, j) == ControlAfter(r)
      ensures j in worker.runtime.database.jobs <==> old(j in worker.runtime.database.jobs)
      ensures j !in worker.runtime.database.jobs ==> r == GaveUp(None)
      ensures j in worker.runtime.database.jobs ==>
                TriedAs(old(worker.runtime.database.Contents()), worker.runtime.database.Contents(),
                        old(IsReady(worker.runtime.database.Contents(), worker.contexts, resuming, j)),
                        attempt, sleepAborted, maxRetries, j, r)
    {
      ghost var log, t := worker.runtime.log, worker.runtime.database.Contents();
      ghost var ready := IsReady(t, worker.contexts, resuming, j);
      var attempted := RunAttempt(j, resuming, attempt, now);
      ghost var t1, pc := worker.runtime.database.Contents(), PcOf(worker.runtime.system, j);
      if attempted.Success? {
        AttemptThenDone(t, t1, attempt, sleepAborted, maxRetries, j, ready, attempted, pc);
        return Done;
      }
      ghost var middle, system := worker.runtime.log, worker.runtime.system;
      r := HandleFailure(j, attempted.error, sleepAborted, now);
      FollowsIsTransitive(log, middle, worker.runtime.log, j);
      KeepWorker(j, system);
      if j in t.jobs {
        AttemptThenFailure(t, t1, worker.runtime.database.Contents(), ready, attempt, sleepAborted, maxRetries, j,
                           attempted, pc, r);
      }
    }

    /** Attempt number n of a run that began with the tables t. */
    method TryNext(
      j: JobId, resuming: bool, attempts: nat -> Attempt, sleepAborted: nat -> bool, now: Time, n: nat, ghost t: Tables,
      ghost ready: bool)
      returns (r: Tried)
      requires Valid()
      requires PcOf(worker.runtime.system, j) == if resuming && n == 0 then Resuming else Starting
      requires resuming ==> !attempts(0).NoSession?
      requires j in worker.runtime.database.jobs <==> j in t.jobs
      requires j in t.jobs ==>
                 ReachesAttempt(t, worker.runtime.database.Contents(), ready, attempts, sleepAborted, maxRetries, j, n)
      requires n == 0 ==> IsReady(worker.runtime.database.Contents(), worker.contexts, resuming, j) == ready
      modifies worker, worker.runtime, worker.runtime.database
      ensures Valid() && Follows(old(worker.runtime.log), worker.runtime.log, j)
      ensures SameProcess(old(worker.runtime.system), worker.runtime.system, j)
      ensures SendsOf(worker.runtime.system, j) == old(SendsOf(worker.runtime.system, j))
      ensures worker.runtime.database.results == old(worker.runtime.database.results)
      ensures PcOf(worker.runtime.system, j) == ControlAfter(r)
      ensures j in worker.runtime.database.jobs <==> j in t.jobs
      ensures j !in t.jobs ==> r == GaveUp(None)
      ensures j in t.jobs && r == TryAgain ==>
                && n < maxRetries
                && ReachesAttempt(t, worker.runtime.database.Contents(), ready, attempts, sleepAborted, maxRetries, j, n + 1)
      ensures j in t.jobs && r != TryAgain ==>
                EndedAs(t, worker.runtime.database.Contents(), ready, attempts, sleepAborted, maxRetries, j, r, n)
    {
      ghost var t1 := worker.runtime.database.Contents();
      r := TryOnce(j, resuming && n == 0, attempts(n), sleepAborted(n), now);
      if j in t.jobs {
        NextAttempt(t, t1, worker.runtime.database.Contents(), ready, attempts, sleepAborted, maxRetries, j, n, r);
      }
    }

    /** runAttempts: attempts until one succeeds, fails for good, or is interrupted. Every further attempt
        costs one retry, so there are at most maxRetries - retryCount of them. */
    method RunAttempts(j: JobId, resuming: bool, attempts: nat -> Attempt, sleepAborted: nat -> bool, now: Time)
      returns (r: Tried, retries: nat)
      requires Valid()
      requires PcOf(worker.runtime.system, j) == if resuming then Resuming else Starting
      requires resuming ==> !attempts(0).NoSession?
      modifies worker, worker.runtime, worker.runtime.database
      ensures Valid() && Follows(old(worker.runtime.log), worker.runtime.log, j)
      ensures SameProcess(old(worker.runtime.system), worker.runtime.system, j)
      ensures SendsOf(worker.runtime.system, j) == old(SendsOf(worker.runtime.system, j))
      ensures worker.runtime.database.results == old(worker.runtime.database.results)
      ensures r != TryAgain && PcOf(worker.runtime.system, j) == ControlAfter(r)
      ensures r == Done ==> attempts(retries).Succeeds?
      ensures AllRetried(attempts, sleepAborted, retries)
      ensures j in worker.runtime.database.jobs <==> old(j in worker.runtime.database.jobs)
      ensures j in worker.runtime.database.jobs ==>
                && (retries > 0 ==> old(worker.runtime.database.jobs)[j].retryCount + retries <= maxRetries)
                && RetryCountMoves(old(worker.runtime.database.jobs)[j].retryCount + retries,
                                   worker.runtime.database.jobs[j].retryCount, maxRetries, r)
      ensures j !in worker.runtime.database.jobs ==> r == GaveUp(None) && retries == 0
      ensures j in worker.runtime.database.jobs ==>
                EndedAs(old(worker.runtime.database.Contents()), worker.runtime.database.Contents(),
                        old(IsReady(worker.runtime.database.Contents(), worker.contexts, resuming, j)),
                        attempts, sleepAborted, maxRetries, j, r, retries)
    {
      ghost var log, system, t := worker.runtime.log, worker.runtime.system, worker.runtime.database.Contents();
      ghost var known, ready := j in t.jobs, IsReady(t, worker.contexts, resuming, j);
      retries := 0;
      if known {
        FirstAttemptIsReached(t, ready, attempts, sleepAborted, maxRetries, j);
      }
      while true
        invariant Valid() && Follows(log, worker.runtime.log, j) && SameProcess(system, worker.runtime.system, j)
        invariant SendsOf(worker.runtime.system, j) == SendsOf(system, j)
        invariant worker.runtime.database.results == t.results
        invariant PcOf(worker.runtime.system, j) == if resuming && retries == 0 then Resuming else Starting
        invariant j in worker.runtime.database.jobs <==> known
        invariant !known ==> retries == 0
        invariant known ==>
                    ReachesAttempt(t, worker.runtime.database.Contents(), ready, attempts, sleepAborted, maxRetries, j,
                                   retries)
        invariant retries == 0 ==> worker.runtime.database.Contents() == t && worker.contexts == old(worker.contexts)
        decreases maxRetries - retries
      {
        ghost var middle := worker.runtime.log;
        r := TryNext(j, resuming, attempts, sleepAborted, now, retries, t, ready);
        FollowsIsTransitive(log, middle, worker.runtime.log, j);
        if r != TryAgain {
          if known {
            EndedFacts(t, worker.runtime.database.Contents(), ready, attempts, sleepAborted, maxRetries, j, r, retries);
          }
          return;
        }
        retries := retries + 1;
      }
    }
  }
}
