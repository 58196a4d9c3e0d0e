/** One execution attempt of a job on its already bound IP (src/runtime/execution-worker.js). */
module ExecutionWorkers {
  import opened Wrappers
  import opened JobStates
  import opened ProxyStates
  import opened Schema
  import opened JobTransactions
  import opened AllocationTransactions
  import opened RetryPolicy
  import opened Transactions
  import opened SystemModel
  import opened SystemInvariant
  import opened Runtimes

  /** What the session and the workflow do in one attempt. */
  datatype Attempt =
    | Succeeds
    | Fails(error: ExecutionError, step: Option<StepId>, aborted: bool)
    | NoSession(error: ExecutionError)

  /** Whether run may start a job, and whether resumeManualChallenge may go on with it. */
  ghost predicate Runnable(t: Tables, j: JobId) {
    j in t.jobs && t.jobs[j].state in {WaitingForIp, RetryPending} && LiveOf(t, j).Some?
  }

  ghost predicate Resumable(t: Tables, contexts: set<JobId>, j: JobId) {
    && j in t.jobs && t.jobs[j].state == WaitingForManualChallenge
    && j in contexts
    && LiveOf(t, j).Some?
  }

  /** Whether the failed attempt leaves the job waiting for a human. */
  predicate BecomesChallenge(attempt: Attempt) {
    attempt.Fails? && !attempt.aborted && attempt.error.code == Some(ManualChallengeRequired)
  }

  function AttemptError(attempt: Attempt): ExecutionError
    requires !attempt.Succeeds?
  {
    attempt.error
  }

  /** How an attempt ends: refused with a plain error, or executed with the attempt's own outcome, which
      leaves the job RUNNING unless it is a manual challenge. */
  ghost predicate AttemptDone(
    accepted: bool, attempt: Attempt, r: Result<(), ExecutionError>, pc: Pc, t: Tables, j: JobId)
  {
    if !accepted then
      && r == Failure(PLAIN_ERROR)
      && pc == if j in t.jobs then Failing(PLAIN_ERROR) else Idle
    else
      && j in t.jobs
      && t.jobs[j].state == (if BecomesChallenge(attempt) then WaitingForManualChallenge else Running)
      && (if attempt.Succeeds? then r == Success(()) && pc == Finalizing(SuccessOutcome)
          else r == Failure(attempt.error) && pc == Failing(attempt.error))
  }

  lemma ActivationKeepsLive(t: Tables, t': Tables, j: JobId, a: AllocationId, now: Time)
    requires LiveOf(t, j) == Some(a) && t'.allocations == t.allocations[a := Activated(t.allocations[a], now)]
    ensures LiveOf(t', j).Some?
  {
    assert LiveFor(t', a, j);
  }

  class ExecutionWorker {
    const runtime: Runtime
    var contexts: set<JobId>
    var inFlight: set<JobId>

    /** The contexts are those of the machine, and only jobs inside an attempt are in flight. */
    ghost predicate Valid()
      reads this, runtime, runtime.database
    {
      && runtime.Valid()
      && contexts == runtime.system.contexts
      && forall j :: j in inFlight ==> PcOf(runtime.system, j).Activating? || PcOf(runtime.system, j).Executing?
    }

    constructor (runtime: Runtime)
      requires runtime.Valid() && runtime.system.contexts == {}
      ensures Valid() && this.runtime == runtime
    {
      this.runtime := runtime;
      contexts, inFlight := {}, {};
    }

    // The machine's side of each statement below.

    ghost predicate Behind(t: Tables)
      reads runtime, runtime.database
    {
      && runtime.jobStore.database == runtime.database && runtime.allocator.database == runtime.database
      && runtime.ledger.database == runtime.database && runtime.recoveries.database == runtime.database
      && IsRun(runtime.origin, runtime.log, runtime.system)
      && runtime.system.tables == t
    }

    ghost method NoteRefusal(j: JobId, now: Time)
      requires runtime.Valid() && (PcOf(runtime.system, j).Starting? || PcOf(runtime.system, j).Resuming?)
      requires PcOf(runtime.system, j).Starting? ==> !Runnable(runtime.system.tables, j)
      requires PcOf(runtime.system, j).Resuming? ==> !Resumable(runtime.system.tables, runtime.system.contexts, j)
      modifies runtime`log, runtime`system
      ensures runtime.Valid() && Follows(old(runtime.log), runtime.log, j)
      ensures SameProcess(old(runtime.system), runtime.system, j)
      ensures SendsOf(runtime.system, j) == old(SendsOf(runtime.system, j))
      ensures runtime.system.contexts == old(runtime.system.contexts)
      ensures PcOf(runtime.system, j) == if j in runtime.system.tables.jobs then Failing(PLAIN_ERROR) else Idle
    {
      runtime.Advance(j, Tick(now), if j in runtime.system.tables.jobs then GoTo(Failing(PLAIN_ERROR)) else GoTo(Idle));
    }

    ghost method NoteActivation(t: Tables, j: JobId, now: Time)
      requires Behind(t) && PcOf(runtime.system, j).Starting? && Runnable(t, j)
      requires runtime.database.Contents() == Activate(t, j, now).After(t)
      modifies runtime`log, runtime`system
      ensures runtime.Valid() && Follows(old(runtime.log), runtime.log, j)
      ensures SameProcess(old(runtime.system), runtime.system, j)
      ensures SendsOf(runtime.system, j) == old(SendsOf(runtime.system, j))
      ensures runtime.system.contexts == old(runtime.system.contexts)
      ensures PcOf(runtime.system, j) == Activating(t.jobs[j].version)
    {
      runtime.Advance(j, Tick(now), Try(ActivateOp(j, now), Activating(t.jobs[j].version), Idle));
    }

    ghost method NoteEntry(t: Tables, j: JobId, version: nat, now: Time)
      requires Behind(t)
      requires || PcOf(runtime.system, j) == Activating(version)
               || (PcOf(runtime.system, j).Resuming? && Resumable(t, runtime.system.contexts, j)
                   && t.jobs[j].version == version)
      requires runtime.database.Contents() == TransitionJob(t, j, Running, NO_PATCH, Some(version), now).After(t)
      modifies runtime`log, runtime`system
      ensures runtime.Valid() && Follows(old(runtime.log), runtime.log, j)
      ensures SameProcess(old(runtime.system), runtime.system, j)
      ensures SendsOf(runtime.system, j) == old(SendsOf(runtime.system, j))
      ensures runtime.system.contexts == old(runtime.system.contexts)
      ensures PcOf(runtime.system, j) ==
              match TransitionJob(t, j, Running, NO_PATCH, Some(version), now)
              case Commit(_, _) => Executing
              case Rollback(error) => Failing(AsExecutionError(error))
    {
      runtime.Advance(j, Tick(now), EnterRunning(t, j, version, now));
    }

    ghost method NoteOutcome(j: JobId, attempt: Attempt, now: Time)
      requires runtime.Valid() && PcOf(runtime.system, j).Executing?
      requires !BecomesChallenge(attempt)
      modifies runtime`log, runtime`system
      ensures runtime.Valid() && Follows(old(runtime.log), runtime.log, j)
      ensures SameProcess(old(runtime.system), runtime.system, j)
      ensures SendsOf(runtime.system, j) == old(SendsOf(runtime.system, j))
      ensures runtime.system.contexts ==
              if attempt.NoSession? then old(runtime.system.contexts) else old(runtime.system.contexts) + {j}
      ensures PcOf(runtime.system, j) ==
              if attempt.Succeeds? then Finalizing(SuccessOutcome) else Failing(AttemptError(attempt))
    {
      match attempt
      case Succeeds => runtime.Advance(j, WorkflowCompleted, GoTo(Finalizing(SuccessOutcome)));
      case Fails(error, step, aborted) =>
        runtime.Advance(j, WorkflowFailed(error, step, aborted, now), GoTo(Failing(error)));
      case NoSession(error) => runtime.Advance(j, SessionFailed(error), GoTo(Failing(error)));
    }

    ghost method NoteChallenge(t: Tables, j: JobId, attempt: Attempt, now: Time)
      requires Behind(t) && PcOf(runtime.system, j).Executing?
      requires BecomesChallenge(attempt)
      requires j in t.jobs && t.jobs[j].state == Running
      requires runtime.database.Contents() ==
               TransitionJob(t, j, WaitingForManualChallenge, Patch(attempt.step, Some(ManualChallengeRequired)),
                             Some(t.jobs[j].version), now).After(t)
      modifies runtime`log, runtime`system
      ensures runtime.Valid() && Follows(old(runtime.log), runtime.log, j)
      ensures SameProcess(old(runtime.system), runtime.system, j)
      ensures SendsOf(runtime.system, j) == old(SendsOf(runtime.system, j))
      ensures runtime.system.contexts == old(runtime.system.contexts) + {j}
      ensures PcOf(runtime.system, j) == Failing(attempt.error)
    {
      runtime.Advance(j, WorkflowFailed(attempt.error, attempt.step, attempt.aborted, now),
                      WorkflowFailedStep(t, j, attempt.error, attempt.step, attempt.aborted, now));
    }

    // The attempts.

    /** The session is created and the workflow runs on the RUNNING job; only a manual challenge changes
        the job. */
    method ExecuteRunningContext(j: JobId, attempt: Attempt, now: Time) returns (r: Result<(), ExecutionError>)
      requires Valid() && PcOf(runtime.system, j).Executing?
      requires j in runtime.database.jobs && runtime.database.jobs[j].state == Running
      modifies this`contexts, runtime, runtime.database
      ensures runtime.Valid() && contexts == runtime.system.contexts
      ensures Follows(old(runtime.log), runtime.log, j) && SameProcess(old(runtime.system), runtime.system, j)
      ensures SendsOf(runtime.system, j) == old(SendsOf(runtime.system, j))
      ensures runtime.database.results == old(runtime.database.results)
      ensures r == if attempt.Succeeds? then Success(()) else Failure(AttemptError(attempt))
      ensures PcOf(runtime.system, j) ==
              if attempt.Succeeds? then Finalizing(SuccessOutcome) else Failing(AttemptError(attempt))
      ensures contexts == if attempt.NoSession? then old(contexts) else old(contexts) + {j}
      ensures runtime.database.Contents() ==
              if BecomesChallenge(attempt) then
                TransitionJob(old(runtime.database.Contents()), j, WaitingForManualChallenge,
                              Patch(attempt.step, Some(ManualChallengeRequired)),
                              Some(old(runtime.database.jobs)[j].version), now).After(old(runtime.database.Contents()))
              else old(runtime.database.Contents())
      ensures !attempt.Fails? || attempt.aborted || attempt.error.code != Some(ManualChallengeRequired) ==>
                runtime.database.Contents() == old(runtime.database.Contents())
      ensures attempt.Fails? && !attempt.aborted && attempt.error.code == Some(ManualChallengeRequired) ==>
                && j in runtime.database.jobs
                && var before, after := old(runtime.database.jobs)[j], runtime.database.jobs[j];
                   && runtime.database.jobs == old(runtime.database.jobs)[j := after]
                   && after == before.(state := WaitingForManualChallenge, version := before.version + 1,
                                       failureCode := Some(ManualChallengeRequired),
                                       currentStep := if attempt.step.Some? then attempt.step else before.currentStep)
    {
      ghost var t := runtime.database.Contents();
      if attempt.NoSession? {
        NoteOutcome(j, attempt, now);
        return Failure(attempt.error);
      }
      contexts := contexts + {j};
      if attempt.Succeeds? {
        NoteOutcome(j, attempt, now);
        return Success(());
      }
      if !attempt.aborted && attempt.error.code == Some(ManualChallengeRequired) {
        var latest := runtime.database.jobs[j];
        var challenged := runtime.jobStore.Transition(
          j, WaitingForManualChallenge, Patch(attempt.step, Some(ManualChallengeRequired)), Some(latest.version), now);
        NoteChallenge(t, j, attempt, now);
      } else {
        NoteOutcome(j, attempt, now);
      }
      r := Failure(attempt.error);
    }

    /** The bound IP is activated, for a job that may run. */
    method ActivateIp(j: JobId, now: Time) returns (r: Result<AllocationId, ExecutionError>)
      requires Valid() && PcOf(runtime.system, j).Starting?
      modifies runtime, runtime.database
      ensures runtime.Valid() && contexts == runtime.system.contexts
      ensures Follows(old(runtime.log), runtime.log, j) && SameProcess(old(runtime.system), runtime.system, j)
      ensures SendsOf(runtime.system, j) == old(SendsOf(runtime.system, j))
      ensures runtime.database.results == old(runtime.database.results)
      ensures r.Success? <==> old(Runnable(runtime.database.Contents(), j))
      ensures r.Failure? ==>
                && r.error == PLAIN_ERROR && runtime.database.Contents() == old(runtime.database.Contents())
                && PcOf(runtime.system, j) == if j in runtime.database.jobs then Failing(PLAIN_ERROR) else Idle
      ensures r.Success? ==>
                && runtime.database.jobs == old(runtime.database.jobs)
                && PcOf(runtime.system, j) == Activating(runtime.database.jobs[j].version)
                && old(LiveOf(runtime.database.Contents(), j)) == Some(r.value)
                && runtime.database.allocations ==
                   old(runtime.database.allocations)[r.value := Activated(old(runtime.database.allocations)[r.value], now)]
    {
      ghost var t := runtime.database.Contents();
      assert j !in inFlight;
      if j !in runtime.database.jobs || runtime.database.jobs[j].state !in {WaitingForIp, RetryPending} {
        NoteRefusal(j, now);
        return Failure(PLAIN_ERROR);
      }
      var reserved := runtime.database.LiveAllocation(j);
      if reserved.None? {
        NoteRefusal(j, now);
        return Failure(PLAIN_ERROR);
      }
      var active := runtime.allocator.ActivateForJob(j, now);
      assert active == Success(reserved.value);
      NoteActivation(t, j, now);
      r := Success(reserved.value);
    }

    /** The job enters RUNNING, at the version that was read. */
    method Enter(j: JobId, version: nat, now: Time)
      requires runtime.Valid()
      requires j in runtime.database.jobs && runtime.database.jobs[j].version == version
      requires CanTransition(runtime.database.jobs[j].state, Running)
      requires || PcOf(runtime.system, j) == Activating(version)
               || (PcOf(runtime.system, j).Resuming?
                   && Resumable(runtime.database.Contents(), runtime.system.contexts, j))
      modifies runtime, runtime.database
      ensures runtime.Valid() && runtime.system.contexts == old(runtime.system.contexts)
      ensures Follows(old(runtime.log), runtime.log, j) && SameProcess(old(runtime.system), runtime.system, j)
      ensures SendsOf(runtime.system, j) == old(SendsOf(runtime.system, j))
      ensures runtime.database.results == old(runtime.database.results)
      ensures PcOf(runtime.system, j).Executing?
      ensures runtime.database.jobs ==
              old(runtime.database.jobs)[j := Moved(old(runtime.database.jobs)[j], Running, NO_PATCH, now)]
      ensures runtime.database.allocations == old(runtime.database.allocations)
    {
      ghost var t := runtime.database.Contents();
      var running := runtime.jobStore.Transition(j, Running, NO_PATCH, Some(version), now);
      NoteEntry(t, j, version, now);
    }

    /** The bound IP is activated and the job enters RUNNING. */
    method Start(j: JobId, now: Time) returns (r: Result<AllocationId, ExecutionError>)
      requires Valid() && PcOf(runtime.system, j).Starting?
      modifies runtime, runtime.database
      ensures runtime.Valid() && contexts == runtime.system.contexts
      ensures Follows(old(runtime.log), runtime.log, j) && SameProcess(old(runtime.system), runtime.system, j)
      ensures SendsOf(runtime.system, j) == old(SendsOf(runtime.system, j))
      ensures runtime.database.results == old(runtime.database.results)
      ensures r.Success? <==> old(Runnable(runtime.database.Contents(), j))
      ensures r.Failure? ==>
                && r.error == PLAIN_ERROR && runtime.database.Contents() == old(runtime.database.Contents())
                && PcOf(runtime.system, j) == if j in runtime.database.jobs then Failing(PLAIN_ERROR) else Idle
      ensures r.Success? ==>
                && PcOf(runtime.system, j).Executing?
                && j in runtime.database.jobs
                && runtime.database.jobs[j] == Moved(old(runtime.database.jobs)[j], Running, NO_PATCH, now)
                && old(LiveOf(runtime.database.Contents(), j)) == Some(r.value)
                && runtime.database.allocations ==
                   old(runtime.database.allocations)[r.value := Activated(old(runtime.database.allocations)[r.value], now)]
    {
      ghost var log := runtime.log;
      r := ActivateIp(j, now);
      if r.Success? {
        ghost var middle := runtime.log;
        Enter(j, runtime.database.jobs[j].version, now);
        FollowsIsTransitive(log, middle, runtime.log, j);
      }
    }

    /** The job is in flight for as long as its attempt executes. */
    method RunInFlight(j: JobId, attempt: Attempt, now: Time) returns (r: Result<(), ExecutionError>)
      requires Valid() && PcOf(runtime.system, j).Executing?
      requires j in runtime.database.jobs && runtime.database.jobs[j].state == Running && j !in inFlight
      modifies this, runtime, runtime.database
      ensures Valid() && Follows(old(runtime.log), runtime.log, j)
      ensures SameProcess(old(runtime.system), runtime.system, j)
      ensures SendsOf(runtime.system, j) == old(SendsOf(runtime.system, j))
      ensures runtime.database.results == old(runtime.database.results)
      ensures AttemptDone(true, attempt, r, PcOf(runtime.system, j), runtime.database.Contents(), j)
      ensures runtime.database.jobs[j].retryCount == old(runtime.database.jobs)[j].retryCount
      ensures runtime.database.allocations == old(runtime.database.allocations)
      ensures contexts == if attempt.NoSession? then old(contexts) else old(contexts) + {j}
    {
      ghost var before := runtime.system;
      inFlight := inFlight + {j};
      r := ExecuteRunningContext(j, attempt, now);
      inFlight := inFlight - {j};
      OthersStay(before, runtime.system, j);
    }

    /** run: one attempt of a job that intake or a retry made ready. */
    method Execute(j: JobId, attempt: Attempt, now: Time) returns (r: Result<(), ExecutionError>)
      requires Valid() && PcOf(runtime.system, j).Starting?
      modifies this, runtime, runtime.database
      ensures Valid() && Follows(old(runtime.log), runtime.log, j)
      ensures SameProcess(old(runtime.system), runtime.system, j)
      ensures SendsOf(runtime.system, j) == old(SendsOf(runtime.system, j))
      ensures runtime.database.results == old(runtime.database.results)
      ensures AttemptDone(old(Runnable(runtime.database.Contents(), j)), attempt, r, PcOf(runtime.system, j),
                          runtime.database.Contents(), j)
      ensures j in runtime.database.jobs <==> old(j in runtime.database.jobs)
      ensures j in runtime.database.jobs ==>
                runtime.database.jobs[j].retryCount == old(runtime.database.jobs)[j].retryCount
      ensures LiveOf(runtime.database.Contents(), j).Some? <==> old(LiveOf(runtime.database.Contents(), j)).Some?
      ensures !old(Runnable(runtime.database.Contents(), j)) ==>
                runtime.database.Contents() == old(runtime.database.Contents())
      ensures old(Runnable(runtime.database.Contents(), j)) ==>
                (j in contexts <==> j in old(contexts) || !attempt.NoSession?)
    {
      ghost var log, before, t := runtime.log, runtime.system, runtime.database.Contents();
      var started := Start(j, now);
      OthersStay(before, runtime.system, j);
      if started.Failure? {
        return Failure(started.error);
      }
      ghost var middle := runtime.log;
      r := RunInFlight(j, attempt, now);
      FollowsIsTransitive(log, middle, runtime.log, j);
      ActivationKeepsLive(t, runtime.database.Contents(), j, started.value, now);
    }

    /** Whether a manual challenge can go on; the refusal is thrown otherwise. */
    method CheckResumable(j: JobId, now: Time) returns (ok: bool)
      requires Valid() && PcOf(runtime.system, j).Resuming?
      modifies runtime`log, runtime`system
      ensures Valid() && Follows(old(runtime.log), runtime.log, j)
      ensures SameProcess(old(runtime.system), runtime.system, j)
      ensures SendsOf(runtime.system, j) == old(SendsOf(runtime.system, j))
      ensures ok <==> Resumable(runtime.database.Contents(), contexts, j)
      ensures ok ==> runtime.system == old(runtime.system) && runtime.log == old(runtime.log)
      ensures !ok ==> PcOf(runtime.system, j) == if j in runtime.database.jobs then Failing(PLAIN_ERROR) else Idle
    {
      ghost var before := runtime.system;
      assert j !in inFlight;
      ok := false;
      if j in runtime.database.jobs && runtime.database.jobs[j].state == WaitingForManualChallenge && j in contexts {
        var live := runtime.database.LiveAllocation(j);
        ok := live.Some?;
      }
      if !ok {
        NoteRefusal(j, now);
        OthersStay(before, runtime.system, j);
      }
    }

    /** resumeManualChallenge: the attempt goes on in the surviving context, on the same IP. */
    method ResumeManualChallenge(j: JobId, attempt: Attempt, now: Time) returns (r: Result<(), ExecutionError>)
      requires Valid() && PcOf(runtime.system, j).Resuming? && !attempt.NoSession?
      modifies this, runtime, runtime.database
      ensures Valid() && Follows(old(runtime.log), runtime.log, j)
      ensures SameProcess(old(runtime.system), runtime.system, j)
      ensures SendsOf(runtime.system, j) == old(SendsOf(runtime.system, j))
      ensures runtime.database.results == old(runtime.database.results)
      ensures AttemptDone(old(Resumable(runtime.database.Contents(), contexts, j)), attempt, r,
                          PcOf(runtime.system, j), runtime.database.Contents(), j)
      ensures j in runtime.database.jobs <==> old(j in runtime.database.jobs)
      ensures j in runtime.database.jobs ==>
                runtime.database.jobs[j].retryCount == old(runtime.database.jobs)[j].retryCount
      ensures runtime.database.allocations == old(runtime.database.allocations)
      ensures contexts == old(contexts)
      ensures !old(Resumable(runtime.database.Contents(), contexts, j)) ==>
                runtime.database.Contents() == old(runtime.database.Contents())
    {
      ghost var log, before := runtime.log, runtime.system;
      var ok := CheckResumable(j, now);
      if !ok {
        return Failure(PLAIN_ERROR);
      }
      Enter(j, runtime.database.jobs[j].version, now);
      OthersStay(before, runtime.system, j);
      ghost var middle := runtime.log;
      r := RunInFlight(j, attempt, now);
      FollowsIsTransitive(log, middle, runtime.log, j);
    }
  }
}
