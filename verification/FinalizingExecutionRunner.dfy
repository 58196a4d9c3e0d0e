/** Which executions reach the ledger (src/runtime/finalizing-execution-runner.js). */
module FinalizingExecutionRunners {
  import opened Wrappers
  import opened JobStates
  import opened Schema
  import opened RetryPolicy
  import opened CanonicalJson
  import opened LedgerTransactions
  import opened SystemModel
  import opened Runtimes
  import opened ExecutionWorkers
  import opened RetryingExecutionRunners
  import opened FinalResultServices

  /** The outcome an execution is finalized with; interruptions and challenges have none. */
  function OutcomeOf(tried: Tried): Option<FinalOutcome> {
    match tried
    case Done => Some(SuccessOutcome)
    case TryAgain => None
    case GaveUp(terminal) => if terminal.Some? then Some(FailureOutcome) else None
  }

  /** The error code that goes with it. */
  function FailureCodeOf(tried: Tried): Option<Code> {
    if tried.GaveUp? && tried.terminal.Some? then Some(tried.terminal.value.code) else None
  }

  /** What concluding an execution leaves in ledger, sends and job, delivered or not: the finalization of its
      outcome, and nothing for an execution without one. */
  ghost predicate ConcludeDone(
    t: Tables, t': Tables, sent: seq<Send>, sends: seq<Send>, j: JobId, tried: Tried,
    payload: FinalOutcome -> Option<Json>, configured: bool, replaySafe: bool, answer: Answer, success: bool)
  {
    match OutcomeOf(tried)
    case None => t' == t && sends == sent && !success
    case Some(outcome) =>
      FinalizeDone(t, t', sent, sends, j, outcome, FailureCodeOf(tried), payload(outcome), configured, replaySafe,
                   answer, success)
  }

  /** The execution ended with a delivered result of this outcome and payload, and the job is in the
      terminal state it names. */
  predicate IsConcluded(
    t: Tables, j: JobId, tried: Tried, payload: FinalOutcome -> Option<Json>, delivery: Delivery)
  {
    var outcome := OutcomeOf(tried);
    && outcome.Some?
    && j in t.results
    && t.results[j].status == Delivered
    && payload(outcome.value).Some?
    && t.results[j].digest == Sha256(Canonicalize(payload(outcome.value).value))
    && (|| (tried == Done && delivery.job.state == Completed)
        || (tried.GaveUp? && tried.terminal.Some? && delivery.job.state == FailedFinal))
  }

  /** An execution is concluded with a delivered result: it has an outcome, whose payload is recorded now or agrees
      with what was recorded, and the row was delivered before or is acknowledged now. */
  ghost predicate Concludes(
    t: Tables, j: JobId, tried: Tried, payload: FinalOutcome -> Option<Json>, configured: bool, replaySafe: bool,
    answer: Answer)
  {
    var outcome, code := OutcomeOf(tried), FailureCodeOf(tried);
    && outcome.Some?
    && IsCaptured(t, j, outcome.value, code, payload(outcome.value))
    && Delivers(CapturedRow(t, j, outcome.value, code, payload(outcome.value)), configured, replaySafe, LiveOf(t, j).Some?,
                answer)
  }

  /** The last attempt ended with a shutdown or an abort. */
  predicate EndsInterrupted(ready: bool, last: Attempt) {
    ready && !last.Succeeds? && IsInterruption(last.error)
  }

  /** The last attempt ended with a manual challenge. */
  predicate EndsChallenged(ready: bool, last: Attempt) {
    ready && !last.Succeeds? && IsChallenge(last.error)
  }

  /** An interrupted execution, and one that waits for a human, leaves ledger and sends as they were, its retry
      count where the retries before it left it, and the job as the last attempt left it, with its IP. */
  ghost predicate LeftAlone(
    t: Tables, t': Tables, sent: seq<Send>, sends: seq<Send>, j: JobId, retries: nat, state: JobState)
  {
    && j in t.jobs && j in t'.jobs
    && t'.results == t.results && sends == sent
    && t'.jobs[j].retryCount == t.jobs[j].retryCount + retries
    && t'.jobs[j].state == state
    && LiveOf(t', j).Some?
  }

  lemma InterruptionsLeaveAlone(
    t: Tables, ended: Tables, t': Tables, ready: bool, attempts: nat -> Attempt, sleepAborted: nat -> bool,
    maxRetries: nat, j: JobId, tried: Tried, retries: nat, sent: seq<Send>, sends: seq<Send>,
    payload: FinalOutcome -> Option<Json>, configured: bool, replaySafe: bool, answer: Answer, success: bool)
    requires EndedAs(t, ended, ready, attempts, sleepAborted, maxRetries, j, tried, retries)
    requires ended.results == t.results
    requires ConcludeDone(ended, t', sent, sends, j, tried, payload, configured, replaySafe, answer, success)
    ensures EndsInterrupted(ready, attempts(retries)) ==>
              tried == GaveUp(None) && !success && LeftAlone(t, t', sent, sends, j, retries, Running)
    ensures EndsChallenged(ready, attempts(retries)) ==>
              && tried == GaveUp(None) && !success
              && LeftAlone(t, t', sent, sends, j, retries,
                           if BecomesChallenge(attempts(retries)) then WaitingForManualChallenge else Running)
  {
    assert Asked(0);
  }

  class FinalizingExecutionRunner {
    const runner: RetryingExecutionRunner
    const results: FinalResultService

    ghost predicate Valid()
      reads this, runner, runner.worker, runner.worker.runtime, runner.worker.runtime.database, results
    {
      && runner.Valid()
      && results.runtime == runner.worker.runtime
      && results.Valid()
    }

    constructor (runner: RetryingExecutionRunner, results: FinalResultService)
      ensures this.runner == runner && this.results == results
    {
      this.runner := runner;
      this.results := results;
    }

    /** What is finalized, with what the Portal answers. */
    method Conclude(
      j: JobId, tried: Tried, payload: FinalOutcome -> Option<Json>, answer: Answer, now: Time)
      returns (r: Result<Delivery, Error>)
      requires results.Valid() && tried != TryAgain && PcOf(results.runtime.system, j) == ControlAfter(tried)
      modifies results.runtime, results.runtime.database
      ensures results.Valid() && Follows(old(results.runtime.log), results.runtime.log, j)
      ensures SameProcess(old(results.runtime.system), results.runtime.system, j)
      ensures results.runtime.system.contexts == old(results.runtime.system.contexts)
      ensures PcOf(results.runtime.system, j).Idle?
      ensures OutcomeOf(tried).None? ==> results.runtime.database.results == old(results.runtime.database.results)
      ensures r.Success? ==> IsConcluded(results.runtime.database.Contents(), j, tried, payload, r.value)
      ensures ConcludeDone(old(results.runtime.database.Contents()), results.runtime.database.Contents(),
                           old(SendsOf(results.runtime.system, j)), SendsOf(results.runtime.system, j), j, tried, payload,
                           results.configured, results.replaySafe, answer, r.Success?)
      ensures results.runtime.StartsAtBoot() ==>
                (r.Success? <==> Concludes(old(results.runtime.database.Contents()), j, tried, payload, results.configured,
                                           results.replaySafe, answer))
    {
      match tried {
        case Done => r := results.Finalize(j, SuccessOutcome, None, payload(SuccessOutcome), answer, now);
        case GaveUp(terminal) =>
          if terminal.Some? {
            r := results.Finalize(j, FailureOutcome, Some(terminal.value.code), payload(FailureOutcome), answer, now);
          } else {
            r := Failure(ExecutionInterrupted);
          }
      }
    }

    /** finalizeExecution: a completed workflow becomes a SUCCESS result, a terminal failure a FAILURE
        result, and nothing else touches the ledger. The ghost is the machine when the attempts have ended; from
        there on the ledger row, the sends and the job are those of the conclusion. After a shutdown, an abort or a
        challenge, whatever the retry policy calls it, nothing is recorded or sent. */
    method FinalizeExecution(
      j: JobId, resuming: bool, attempts: nat -> Attempt, sleepAborted: nat -> bool,
      payload: FinalOutcome -> Option<Json>, answer: Answer, now: Time)
      returns (tried: Tried, r: Result<Delivery, Error>, ghost ended: System, ghost retries: nat)
      requires Valid()
      requires PcOf(results.runtime.system, j) == if resuming then Resuming else Starting
      requires resuming ==> !attempts(0).NoSession?
      modifies runner.worker, results.runtime, results.runtime.database
      ensures Valid() && Follows(old(results.runtime.log), results.runtime.log, j)
      ensures SameProcess(old(results.runtime.system), results.runtime.system, j)
      ensures PcOf(results.runtime.system, j).Idle?
      ensures OutcomeOf(tried).None? ==> results.runtime.database.results == old(results.runtime.database.results)
      ensures r.Success? ==> IsConcluded(results.runtime.database.Contents(), j, tried, payload, r.value)
      ensures ended.tables.results == old(results.runtime.database.results)
      ensures SameProcess(old(results.runtime.system), ended, j) && PcOf(ended, j) == ControlAfter(tried)
      ensures ConcludeDone(ended.tables, results.runtime.database.Contents(), SendsOf(ended, j),
                           SendsOf(results.runtime.system, j), j, tried, payload, results.configured, results.replaySafe,
                           answer, r.Success?)
      ensures SendsOf(ended, j) == old(SendsOf(results.runtime.system, j))
      ensures old(j !in results.runtime.database.jobs) ==> tried == GaveUp(None)
      ensures old(j in results.runtime.database.jobs) ==>
                var ready, last := old(IsReady(results.runtime.database.Contents(), runner.worker.contexts, resuming, j)),
                                   attempts(retries);
                var before, after := old(results.runtime.database.Contents()), results.runtime.database.Contents();
                var sent, sends := old(SendsOf(results.runtime.system, j)), SendsOf(results.runtime.system, j);
                && EndedAs(before, ended.tables, ready, attempts, sleepAborted, runner.maxRetries, j, tried, retries)
                && (EndsInterrupted(ready, last) ==>
                      tried == GaveUp(None) && r.Failure? && LeftAlone(before, after, sent, sends, j, retries, Running))
                && (EndsChallenged(ready, last) ==>
                      && tried == GaveUp(None) && r.Failure?
                      && LeftAlone(before, after, sent, sends, j, retries,
                                   if BecomesChallenge(last) then WaitingForManualChallenge else Running))
      ensures results.runtime.StartsAtBoot() ==>
                (r.Success? <==>
                   Concludes(ended.tables, j, tried, payload, results.configured, results.replaySafe, answer))
    {
      ghost var log, t := results.runtime.log, results.runtime.database.Contents();
      ghost var ready := IsReady(t, runner.worker.contexts, resuming, j);
      ghost var sent := SendsOf(results.runtime.system, j);
      var counted;
      tried, counted := runner.RunAttempts(j, resuming, attempts, sleepAborted, now);
      retries := counted;
      ghost var middle := results.runtime.log;
      ended := results.runtime.system;
      r := Conclude(j, tried, payload, answer, now);
      FollowsIsTransitive(log, middle, results.runtime.log, j);
      runner.KeepWorker(j, ended);
      if j in t.jobs {
        InterruptionsLeaveAlone(t, ended.tables, results.runtime.database.Contents(), ready, attempts, sleepAborted,
                                runner.maxRetries, j, tried, retries, sent, SendsOf(results.runtime.system, j), payload,
                                results.configured, results.replaySafe, answer, r.Success?);
      }
    }
  }
}
