/** Every step of every runner keeps the invariant, so it holds in every reachable state. */
module SystemSteps {
  import opened Wrappers
  import opened JobStates
  import opened ProxyStates
  import opened CanonicalJson
  import opened Schema
  import opened JobTransactions
  import opened AllocationTransactions
  import opened ReservationTransactions
  import opened LedgerTransactions
  import opened RecoveryTransactions
  import opened RetryPolicy
  import opened Transactions
  import opened Ownership
  import opened History
  import opened SystemModel
  import opened SystemInvariant

  // -------------------------------------------------------------------------------------------
  // What a step does to the view of its job
  // -------------------------------------------------------------------------------------------

  /** The view after a step that leaves these rows and this control point. */
  function StepView(
    v: View, job: Option<Job>, row: Option<Allocation>, record: Option<FinalResult>, after: Pc, event: Event): View
  {
    View(job, row, record, after,
         v.hasContext || (v.pc.Executing? && (event.WorkflowCompleted? || event.WorkflowFailed?)),
         SendsAfter(v.sends, v.pc, after, event),
         v.starts + (if v.pc.Activating? && after.Executing? && InState(v, {RetryPending}) then 1 else 0),
         v.role)
  }

  lemma MoveView(s: System, j: JobId, after: Pc, event: Event)
    ensures var v := ViewOf(s, j);
            ViewOf(Perform(s, j, GoTo(after), event), j) == StepView(v, v.job, v.row, v.record, after, event)
  {
  }

  lemma OpView(s: System, j: JobId, op: Op, committed: Pc, failed: Pc, event: Event)
    requires Commits(s.tables, op)
    ensures var t' := Apply(s.tables, op);
            ViewOf(Perform(s, j, Try(op, committed, failed), event), j) ==
            StepView(ViewOf(s, j), At(t'.jobs, j), RowFor(t', j), At(t'.results, j), committed, event)
  {
  }

  lemma FailedOpView(s: System, j: JobId, op: Op, committed: Pc, failed: Pc, event: Event)
    requires !Commits(s.tables, op) && Apply(s.tables, op) == s.tables
    ensures var v := ViewOf(s, j);
            ViewOf(Perform(s, j, Try(op, committed, failed), event), j) ==
            StepView(v, v.job, v.row, v.record, failed, event)
  {
  }

  lemma TransitionView(
    s: System, j: JobId, to: JobState, patch: Patch, version: nat, now: Time, committed: Pc, failed: Pc, event: Event)
    requires UniqueRows(s.tables) && AtVersion(ViewOf(s, j), version)
    requires CanTransition(ViewOf(s, j).job.value.state, to)
    ensures var v := ViewOf(s, j);
            ViewOf(Perform(s, j, Try(TransitionOp(j, to, patch, Some(version), now), committed, failed), event), j) ==
            StepView(v, Some(Moved(v.job.value, to, patch, now)), v.row, v.record, committed, event)
  {
    var op := TransitionOp(j, to, patch, Some(version), now);
    RowsAreKept(s.tables, op);
    OpView(s, j, op, committed, failed, event);
  }

  lemma IncrementView(s: System, j: JobId, version: nat, committed: Pc, failed: Pc, event: Event)
    requires UniqueRows(s.tables) && AtVersion(ViewOf(s, j), version)
    requires !IsTerminal(ViewOf(s, j).job.value.state)
    ensures var v := ViewOf(s, j);
            ViewOf(Perform(s, j, Try(IncrementOp(j, Some(version)), committed, failed), event), j) ==
            StepView(v, Some(Incremented(v.job.value)), v.row, v.record, committed, event)
  {
    RowsAreKept(s.tables, IncrementOp(j, Some(version)));
    OpView(s, j, IncrementOp(j, Some(version)), committed, failed, event);
  }

  lemma ActivateView(s: System, j: JobId, now: Time, committed: Pc, failed: Pc, event: Event)
    requires UniqueRows(s.tables) && IsLiveRow(ViewOf(s, j).row)
    ensures var v := ViewOf(s, j);
            ViewOf(Perform(s, j, Try(ActivateOp(j, now), committed, failed), event), j) ==
            StepView(v, v.job, Some(Activated(v.row.value, now)), v.record, committed, event)
  {
    LiveRow(s.tables, j);
    ActivatedRow(s.tables, j, now);
    OpView(s, j, ActivateOp(j, now), committed, failed, event);
  }

  lemma HoldView(s: System, j: JobId, committed: Pc, failed: Pc, event: Event)
    requires UniqueRows(s.tables) && IsLiveRow(ViewOf(s, j).row)
    ensures var v := ViewOf(s, j);
            ViewOf(Perform(s, j, Try(RetryOp(j), committed, failed), event), j) ==
            StepView(v, v.job, Some(HeldForRetry(v.row.value)), v.record, committed, event)
  {
    LiveRow(s.tables, j);
    HeldRow(s.tables, j);
    OpView(s, j, RetryOp(j), committed, failed, event);
  }

  lemma ReleaseView(s: System, j: JobId, reason: ReleaseReason, now: Time, committed: Pc, failed: Pc, event: Event)
    requires UniqueRows(s.tables) && Consistent(s.tables)
    requires ViewOf(s, j).job.Some? && ReleaseAllowed(ViewOf(s, j).job.value.state, reason)
    ensures var v := ViewOf(s, j);
            ViewOf(Perform(s, j, Try(ReleaseOp(j, reason, now), committed, failed), event), j) ==
            StepView(v, v.job, if IsLiveRow(v.row) then Some(Ended(v.row.value, reason, now)) else v.row,
                     v.record, committed, event)
  {
    LiveRow(s.tables, j);
    ReleasedRow(s.tables, j, reason, now);
    ReleaseCommits(s.tables, j, reason, now);
    OpView(s, j, ReleaseOp(j, reason, now), committed, failed, event);
  }

  lemma ReleaseCommits(t: Tables, j: JobId, reason: ReleaseReason, now: Time)
    requires Consistent(t) && j in t.jobs && ReleaseAllowed(t.jobs[j].state, reason)
    ensures Release(t, j, reason, now).Commit?
  {
    if LiveOf(t, j).Some? {
      assert AllocationMirrored(t, t.allocations[LiveOf(t, j).value]);
    }
  }

  /** A committed transaction on the ledger row of j. */
  lemma RecordView(s: System, j: JobId, op: Op, record: FinalResult, committed: Pc, failed: Pc, event: Event)
    requires UniqueRows(s.tables) && LeavesPoolAlone(op) && Commits(s.tables, op)
    requires Apply(s.tables, op) == s.tables.(results := s.tables.results[j := record])
    ensures var v := ViewOf(s, j);
            ViewOf(Perform(s, j, Try(op, committed, failed), event), j) ==
            StepView(v, v.job, v.row, Some(record), committed, event)
  {
    RowsAreKept(s.tables, op);
    OpView(s, j, op, committed, failed, event);
  }

  /** A committed transaction that changes neither job, nor row, nor ledger. */
  lemma QuietView(s: System, j: JobId, op: Op, committed: Pc, failed: Pc, event: Event)
    requires UniqueRows(s.tables) && Commits(s.tables, op)
    requires var t' := Apply(s.tables, op);
             && t'.jobs == s.tables.jobs && t'.allocations == s.tables.allocations
             && t'.results == s.tables.results
    ensures var v := ViewOf(s, j);
            ViewOf(Perform(s, j, Try(op, committed, failed), event), j) ==
            StepView(v, v.job, v.row, v.record, committed, event)
  {
    SameRows(s.tables, Apply(s.tables, op));
    OpView(s, j, op, committed, failed, event);
  }

  // -------------------------------------------------------------------------------------------
  // Steps of the views
  // -------------------------------------------------------------------------------------------

  /** The part of the invariant that a step of one job needs. */
  ghost predicate JobReady(s: System, j: JobId) {
    && UniqueRows(s.tables)
    && (s.replaySafe ==> s.everReplaySafe)
    && ViewOk(ViewOf(s, j), s.maxRetries, s.everReplaySafe)
  }

  /** The transactions that runners perform. */
  predicate IsRunnerOp(op: Op) {
    || op.TransitionOp? || op.IncrementOp? || op.ActivateOp? || op.RetryOp? || op.ReleaseOp?
    || op.CreateResultOp? || op.BeginOp? || op.MarkPendingOp? || op.MarkUncertainOp?
    || op.MarkInterruptedOp? || op.RequeueOp? || op.MarkDeliveredOp? || op.RecordOp?
  }

  predicate EffectFits(effect: Effect, j: JobId) {
    effect.op.Some? ==> IsRunnerOp(effect.op.value) && effect.op.value.j == j
  }

  /** What a step of j must leave behind. */
  ghost predicate StepOk(s: System, j: JobId, effect: Effect, event: Event) {
    && EffectFits(effect, j)
    && ViewOk(ViewOf(Perform(s, j, effect, event), j), s.maxRetries, s.everReplaySafe)
  }

  /** Control points at which a runner has just moved without a transaction or a send. */
  lemma MovingView(v: View, after: Pc, event: Event, maxRetries: nat, everReplaySafe: bool)
    requires ViewOk(v, maxRetries, everReplaySafe)
    requires !v.pc.Sending? && !(v.pc.Delivering? && after.Sending?)
    requires !(v.pc.Activating? && after.Executing?)
    requires PcOk(v.(pc := after), maxRetries)
    requires after.Counted? || after.HeldBack? || after.RecoveryCounted? ==> after == v.pc
    requires v.job.None? ==> after.Idle?
    requires v.pc.Executing? ==> after.Failing? || after.Finalizing?
    ensures ViewOk(StepView(v, v.job, v.row, v.record, after, event), maxRetries, everReplaySafe)
  {
  }

  lemma MoveOk(s: System, j: JobId, after: Pc, event: Event)
    requires JobReady(s, j)
    requires var v := ViewOf(s, j);
             && !v.pc.Sending? && !(v.pc.Delivering? && after.Sending?)
             && !(v.pc.Activating? && after.Executing?)
             && PcOk(v.(pc := after), s.maxRetries)
             && (after.Counted? || after.HeldBack? || after.RecoveryCounted? ==> after == v.pc)
             && (v.job.None? ==> after.Idle?)
             && (v.pc.Executing? ==> after.Failing? || after.Finalizing?)
    ensures StepOk(s, j, GoTo(after), event)
  {
    MoveView(s, j, after, event);
    MovingView(ViewOf(s, j), after, event, s.maxRetries, s.everReplaySafe);
  }

  lemma StayOk(s: System, j: JobId, event: Event)
    requires JobReady(s, j)
    requires PcOf(s, j).Executing? ==> !event.WorkflowCompleted? && !event.WorkflowFailed?
    ensures StepOk(s, j, GoTo(PcOf(s, j)), event)
  {
    MoveView(s, j, PcOf(s, j), event);
    assert StepView(ViewOf(s, j), ViewOf(s, j).job, ViewOf(s, j).row, ViewOf(s, j).record, PcOf(s, j), event)
           == ViewOf(s, j);
  }

  // -------------------------------------------------------------------------------------------
  // ExecutionWorker
  // -------------------------------------------------------------------------------------------

  lemma ActivatedViewOk(v: View, now: Time, maxRetries: nat, everReplaySafe: bool)
    requires ViewOk(v, maxRetries, everReplaySafe) && v.pc.Starting?
    ensures IsLiveRow(v.row)
    ensures ViewOk(StepView(v, v.job, Some(Activated(v.row.value, now)), v.record,
                            Activating(v.job.value.version), Tick(now)), maxRetries, everReplaySafe)
  {
  }

  lemma RunStepOk(s: System, j: JobId, now: Time)
    requires JobReady(s, j) && PcOf(s, j).Starting?
    ensures StepOk(s, j, RunStep(s, j, now), Tick(now))
  {
    LiveRow(s.tables, j);
    ActivatedViewOk(ViewOf(s, j), now, s.maxRetries, s.everReplaySafe);
    ActivateView(s, j, now, Activating(s.tables.jobs[j].version), Idle, Tick(now));
  }

  lemma EnteredViewOk(v: View, version: nat, now: Time, maxRetries: nat, everReplaySafe: bool)
    requires ViewOk(v, maxRetries, everReplaySafe)
    requires v.pc.Activating? || (v.pc.Resuming? && v.hasContext)
    ensures v.job.Some? && CanTransition(v.job.value.state, Running)
    ensures ViewOk(StepView(v, Some(Moved(v.job.value, Running, NO_PATCH, now)), v.row, v.record,
                            Executing, Tick(now)), maxRetries, everReplaySafe)
  {
  }

  lemma EnterRunningOk(s: System, j: JobId, version: nat, now: Time)
    requires JobReady(s, j) && AtVersion(ViewOf(s, j), version)
    requires PcOf(s, j).Activating? || (PcOf(s, j).Resuming? && ViewOf(s, j).hasContext)
    ensures StepOk(s, j, EnterRunning(s.tables, j, version, now), Tick(now))
  {
    EnteredViewOk(ViewOf(s, j), version, now, s.maxRetries, s.everReplaySafe);
    TransitionView(s, j, Running, NO_PATCH, version, now, Executing, Idle, Tick(now));
  }

  lemma ResumeStepOk(s: System, j: JobId, now: Time)
    requires JobReady(s, j) && PcOf(s, j).Resuming?
    ensures StepOk(s, j, ResumeStep(s, j, now), Tick(now))
  {
    LiveRow(s.tables, j);
    if j in s.contexts {
      EnterRunningOk(s, j, s.tables.jobs[j].version, now);
    } else {
      MoveOk(s, j, Failing(PLAIN_ERROR), Tick(now));
    }
  }

  lemma ChallengedViewOk(
    v: View, error: ExecutionError, patch: Patch, event: Event, now: Time, maxRetries: nat, everReplaySafe: bool)
    requires ViewOk(v, maxRetries, everReplaySafe) && v.pc.Executing?
    requires event.WorkflowFailed? && error.code == Some(ManualChallengeRequired)
    ensures v.job.Some?
    ensures ViewOk(StepView(v, Some(Moved(v.job.value, WaitingForManualChallenge, patch, now)), v.row, v.record,
                            Failing(error), event), maxRetries, everReplaySafe)
  {
  }

  lemma WorkflowFailedStepOk(
    s: System, j: JobId, error: ExecutionError, step: Option<StepId>, aborted: bool, now: Time)
    requires JobReady(s, j) && PcOf(s, j).Executing?
    ensures StepOk(s, j, WorkflowFailedStep(s.tables, j, error, step, aborted, now),
                   WorkflowFailed(error, step, aborted, now))
  {
    var event := WorkflowFailed(error, step, aborted, now);
    if aborted || error.code != Some(ManualChallengeRequired) {
      MoveOk(s, j, Failing(error), event);
    } else {
      var patch := Patch(step, Some(ManualChallengeRequired));
      ChallengedViewOk(ViewOf(s, j), error, patch, event, now, s.maxRetries, s.everReplaySafe);
      TransitionView(s, j, WaitingForManualChallenge, patch, s.tables.jobs[j].version, now, Failing(error), Idle, event);
    }
  }

  // -------------------------------------------------------------------------------------------
  // RetryingExecutionRunner
  // -------------------------------------------------------------------------------------------

  lemma CountedViewOk(v: View, after: Pc, event: Event, maxRetries: nat, everReplaySafe: bool)
    requires ViewOk(v, maxRetries, everReplaySafe)
    requires RunningUnfinished(v) && v.job.value.retryCount < maxRetries
    requires v.pc.Failing? || v.pc.RecoveryHeld?
    requires (after.Counted? || after.RecoveryCounted?) && after.version == v.job.value.version + 1
    ensures ViewOk(StepView(v, Some(Incremented(v.job.value)), v.row, v.record, after, event), maxRetries, everReplaySafe)
  {
  }

  lemma CountStepOk(s: System, j: JobId, code: Code, now: Time)
    requires JobReady(s, j) && PcOf(s, j).Failing?
    requires RunningUnfinished(ViewOf(s, j)) && s.tables.jobs[j].retryCount < s.maxRetries
    ensures StepOk(s, j, Try(IncrementOp(j, Some(s.tables.jobs[j].version)),
                             Counted(s.tables.jobs[j].version + 1, code), Idle), Tick(now))
  {
    var version := s.tables.jobs[j].version;
    CountedViewOk(ViewOf(s, j), Counted(version + 1, code), Tick(now), s.maxRetries, s.everReplaySafe);
    IncrementView(s, j, version, Counted(version + 1, code), Idle, Tick(now));
  }

  /** A failure that is finalized comes from a running job, or from a challenge whose context is lost. */
  lemma FailingViewOk(v: View, error: ExecutionError, maxRetries: nat)
    requires PcOk(v, maxRetries) && v.pc == Failing(error)
    requires error.code != Some(ManualChallengeRequired)
    ensures PcOk(v.(pc := Finalizing(FailureOutcome)), maxRetries)
  {
  }

  /** The three ways handleFailure can go. */
  lemma FailureStepCases(s: System, j: JobId, error: ExecutionError)
    requires j in s.tables.jobs
    ensures var job := s.tables.jobs[j];
            var c := ClassifyRetry(error, job.retryCount, s.maxRetries);
            if c.decision == NonRetryable || c.decision == Exhausted then
              && error.code != Some(ManualChallengeRequired)
              && FailureStep(s, j, error) == GoTo(Finalizing(FailureOutcome))
            else if c.decision == Retry && job.state == Running then
              && job.retryCount < s.maxRetries
              && FailureStep(s, j, error) ==
                 Try(IncrementOp(j, Some(job.version)), Counted(job.version + 1, c.code), Idle)
            else
              FailureStep(s, j, error) == GoTo(Idle)
  {
  }

  lemma FailureStepOk(s: System, j: JobId, error: ExecutionError, now: Time)
    requires JobReady(s, j) && PcOf(s, j) == Failing(error)
    ensures StepOk(s, j, FailureStep(s, j, error), Tick(now))
  {
    FailureStepCases(s, j, error);
    var effect := FailureStep(s, j, error);
    if effect == GoTo(Finalizing(FailureOutcome)) {
      FailingViewOk(ViewOf(s, j), error, s.maxRetries);
      MoveOk(s, j, Finalizing(FailureOutcome), Tick(now));
    } else if effect == GoTo(Idle) {
      MoveOk(s, j, Idle, Tick(now));
    } else {
      CountStepOk(s, j, effect.committed.code, now);
    }
  }

  lemma HeldViewOk(v: View, after: Pc, event: Event, maxRetries: nat, everReplaySafe: bool)
    requires ViewOk(v, maxRetries, everReplaySafe) && IsLiveRow(v.row)
    requires || (v.pc.Counted? && after == HeldBack(v.pc.version, v.pc.code))
             || (v.pc.Idle? && (after.Observing? || after.RecoveryHeld?) && v.job.Some?
                 && PcOk(v.(pc := after), maxRetries))
    ensures ViewOk(StepView(v, v.job, Some(HeldForRetry(v.row.value)), v.record, after, event), maxRetries, everReplaySafe)
  {
  }

  lemma HoldStepOk(s: System, j: JobId, version: nat, code: Code, now: Time)
    requires JobReady(s, j) && PcOf(s, j) == Counted(version, code)
    ensures StepOk(s, j, Try(RetryOp(j), HeldBack(version, code), Idle), Tick(now))
  {
    HeldViewOk(ViewOf(s, j), HeldBack(version, code), Tick(now), s.maxRetries, s.everReplaySafe);
    HoldView(s, j, HeldBack(version, code), Idle, Tick(now));
  }

  lemma RetryPendingViewOk(v: View, patch: Patch, after: Pc, now: Time, maxRetries: nat, everReplaySafe: bool)
    requires ViewOk(v, maxRetries, everReplaySafe)
    requires (v.pc.HeldBack? && after == Backoff) || (v.pc.RecoveryCounted? && after.Observing?)
    ensures v.job.Some? && AtVersion(v, v.pc.version)
    ensures ViewOk(StepView(v, Some(Moved(v.job.value, RetryPending, patch, now)), v.row, v.record, after, Tick(now)),
                   maxRetries, everReplaySafe)
  {
  }

  lemma RetryPendingStepOk(s: System, j: JobId, version: nat, code: Code, now: Time)
    requires JobReady(s, j) && PcOf(s, j) == HeldBack(version, code)
    ensures StepOk(s, j, Try(TransitionOp(j, RetryPending, Patch(None, Some(code)), Some(version), now), Backoff, Idle),
                   Tick(now))
  {
    RetryPendingViewOk(ViewOf(s, j), Patch(None, Some(code)), Backoff, now, s.maxRetries, s.everReplaySafe);
    TransitionView(s, j, RetryPending, Patch(None, Some(code)), version, now, Backoff, Idle, Tick(now));
  }

  // -------------------------------------------------------------------------------------------
  // FinalizingExecutionRunner and FinalResultService
  // -------------------------------------------------------------------------------------------

  lemma CreatedRecordViewOk(v: View, n: NormalizedResult, event: Event, maxRetries: nat, everReplaySafe: bool)
    requires ViewOk(v, maxRetries, everReplaySafe) && v.pc == Finalizing(n.outcome) && v.record.None?
    ensures ViewOk(StepView(v, v.job, v.row, Some(NewRecord(n)), Delivering, event), maxRetries, everReplaySafe)
  {
  }

  lemma FinalizeStepOk(s: System, j: JobId, outcome: FinalOutcome, code: Option<Code>, payload: Json)
    requires JobReady(s, j) && PcOf(s, j) == Finalizing(outcome)
    ensures StepOk(s, j, FinalizeStep(s.tables, j, outcome, code, payload), PayloadBuilt(code, payload))
  {
    var event := PayloadBuilt(code, payload);
    var n := Normalized(s.tables.jobs[j].applicationId, outcome, code, payload);
    var op := CreateResultOp(j, n);
    if j !in s.tables.results {
      CreatedRecordViewOk(ViewOf(s, j), n, event, s.maxRetries, s.everReplaySafe);
      RecordView(s, j, op, NewRecord(n), Delivering, Idle, event);
    } else if CreateOrGetResult(s.tables, j, n).Commit? {
      QuietView(s, j, op, Delivering, Idle, event);
      MovingView(ViewOf(s, j), Delivering, event, s.maxRetries, s.everReplaySafe);
    } else {
      FailedOpView(s, j, op, Delivering, Idle, event);
      MovingView(ViewOf(s, j), Idle, event, s.maxRetries, s.everReplaySafe);
    }
  }

  lemma BegunViewOk(v: View, event: Event, maxRetries: nat, everReplaySafe: bool)
    requires ViewOk(v, maxRetries, everReplaySafe) && v.pc.Delivering? && HasStatusIn(v, DeliveryPending)
    requires event.Tick?
    ensures var record := v.record.value;
            ViewOk(StepView(v, v.job, v.row,
                            Some(record.(status := InFlight, attempts := record.attempts + 1, certainty := None)),
                            Sending, event), maxRetries, everReplaySafe)
  {
    assert (v.sends + [Open])[..|v.sends|] == v.sends;
  }

  lemma BeginStepOk(s: System, j: JobId, now: Time)
    requires JobReady(s, j) && PcOf(s, j).Delivering?
    requires !HasStatusIn(ViewOf(s, j), Delivered)
    ensures StepOk(s, j, Try(BeginOp(j), Sending, Idle), Tick(now))
  {
    if s.tables.results[j].status == DeliveryPending {
      var record := s.tables.results[j];
      BegunViewOk(ViewOf(s, j), Tick(now), s.maxRetries, s.everReplaySafe);
      RecordView(s, j, BeginOp(j), record.(status := InFlight, attempts := record.attempts + 1, certainty := None),
                 Sending, Idle, Tick(now));
    } else {
      FailedOpView(s, j, BeginOp(j), Sending, Idle, Tick(now));
      MovingView(ViewOf(s, j), Idle, Tick(now), s.maxRetries, s.everReplaySafe);
    }
  }

  lemma RequeueStepOk(s: System, j: JobId, now: Time)
    requires JobReady(s, j) && PcOf(s, j).Delivering?
    requires HasStatusIn(ViewOf(s, j), Uncertain) && s.replaySafe
    ensures StepOk(s, j, Try(RequeueOp(j), Delivering, Idle), Tick(now))
  {
    RecordView(s, j, RequeueOp(j), s.tables.results[j].(status := DeliveryPending), Delivering, Idle, Tick(now));
  }

  lemma DeliverStepOk(s: System, j: JobId, now: Time)
    requires JobReady(s, j) && PcOf(s, j).Delivering?
    ensures StepOk(s, j, DeliverStep(s, j), Tick(now))
  {
    var effect := DeliverStep(s, j);
    if effect == Try(BeginOp(j), Sending, Idle) {
      BeginStepOk(s, j, now);
    } else if effect == Try(RequeueOp(j), Delivering, Idle) {
      RequeueStepOk(s, j, now);
    } else if effect == GoTo(Idle) {
      MoveOk(s, j, Idle, Tick(now));
    } else {
      MoveOk(s, j, Terminalizing(false), Tick(now));
    }
  }

  lemma AnsweredViewOk(v: View, after: Pc, event: Event, maxRetries: nat, everReplaySafe: bool)
    requires ViewOk(v, maxRetries, everReplaySafe) && v.pc.Sending?
    requires || (event.SendAccepted? && after == Acknowledged(event.httpStatus))
             || (event.SendFailed? && after == Undelivered(event.certainty))
    ensures ViewOk(StepView(v, v.job, v.row, v.record, after, event), maxRetries, everReplaySafe)
  {
    var last := if event.SendFailed? then NotAccepted(event.certainty) else Accepted;
    var later := v.sends[|v.sends| - 1 := last];
    assert later[..|later| - 1] == v.sends[..|v.sends| - 1];
  }

  lemma AnswerStepOk(s: System, j: JobId, event: Event, after: Pc)
    requires JobReady(s, j) && PcOf(s, j).Sending?
    requires || (event.SendAccepted? && after == Acknowledged(event.httpStatus))
             || (event.SendFailed? && after == Undelivered(event.certainty))
    ensures StepOk(s, j, GoTo(after), event)
  {
    AnsweredViewOk(ViewOf(s, j), after, event, s.maxRetries, s.everReplaySafe);
    MoveView(s, j, after, event);
  }

  lemma DeliveredViewOk(v: View, record: FinalResult, now: Time, maxRetries: nat, everReplaySafe: bool)
    requires ViewOk(v, maxRetries, everReplaySafe) && v.pc.Acknowledged?
    requires record == v.record.value.(status := Delivered, deliveredAt := record.deliveredAt,
                                       certainty := record.certainty, httpStatus := record.httpStatus)
    ensures ViewOk(StepView(v, v.job, v.row, Some(record), Terminalizing(false), Tick(now)), maxRetries, everReplaySafe)
  {
  }

  lemma AcknowledgedStepOk(s: System, j: JobId, httpStatus: Option<int>, now: Time)
    requires JobReady(s, j) && PcOf(s, j) == Acknowledged(httpStatus)
    ensures StepOk(s, j, Try(MarkDeliveredOp(j, httpStatus, now), Terminalizing(false), Undelivered(Ambiguous)),
                   Tick(now))
  {
    var tx := MarkDelivered(s.tables, j, httpStatus, now);
    if tx.Commit? {
      DeliveredViewOk(ViewOf(s, j), tx.value, now, s.maxRetries, s.everReplaySafe);
      RecordView(s, j, MarkDeliveredOp(j, httpStatus, now), tx.value, Terminalizing(false), Undelivered(Ambiguous),
                 Tick(now));
    } else {
      FailedOpView(s, j, MarkDeliveredOp(j, httpStatus, now), Terminalizing(false), Undelivered(Ambiguous), Tick(now));
      MovingView(ViewOf(s, j), Undelivered(Ambiguous), Tick(now), s.maxRetries, s.everReplaySafe);
    }
  }

  lemma BenignLast(sends: seq<Send>)
    requires AtMostLastMatters(sends) && Benign(sends[|sends| - 1])
    ensures AllBenign(sends)
  {
    forall i | 0 <= i < |sends| ensures Benign(sends[i]) {
      assert i < |sends| - 1 ==> Benign(sends[..|sends| - 1][i]);
    }
  }

  lemma FailedSendViewOk(
    v: View, certainty: Certainty, status: DeliveryStatus, event: Event, maxRetries: nat, everReplaySafe: bool)
    requires ViewOk(v, maxRetries, everReplaySafe) && v.pc == Undelivered(certainty)
    requires status == Uncertain || (status == DeliveryPending && (certainty != Ambiguous || everReplaySafe))
    ensures ViewOk(StepView(v, v.job, v.row, Some(v.record.value.(status := status, certainty := Some(certainty))),
                            Idle, event), maxRetries, everReplaySafe)
  {
    if certainty != Ambiguous && !everReplaySafe {
      BenignLast(v.sends);
    }
  }

  lemma UndeliveredStepOk(s: System, j: JobId, certainty: Certainty, now: Time)
    requires JobReady(s, j) && PcOf(s, j) == Undelivered(certainty)
    ensures StepOk(s, j, UndeliveredStep(s, j, certainty), Tick(now))
  {
    var record := s.tables.results[j];
    if certainty != Ambiguous || s.replaySafe {
      FailedSendViewOk(ViewOf(s, j), certainty, DeliveryPending, Tick(now), s.maxRetries, s.everReplaySafe);
      RecordView(s, j, MarkPendingOp(j, certainty), record.(status := DeliveryPending, certainty := Some(certainty)),
                 Idle, Idle, Tick(now));
    } else {
      FailedSendViewOk(ViewOf(s, j), certainty, Uncertain, Tick(now), s.maxRetries, s.everReplaySafe);
      RecordView(s, j, MarkUncertainOp(j), record.(status := Uncertain, certainty := Some(Ambiguous)),
                 Idle, Idle, Tick(now));
    }
  }

  /** A delivered result can always be terminalized: the job can legally move to the state it names. */
  lemma TerminalizedViewOk(v: View, patch: Patch, recovering: bool, now: Time, maxRetries: nat, everReplaySafe: bool)
    requires ViewOk(v, maxRetries, everReplaySafe) && v.pc == Terminalizing(recovering)
    requires !IsTerminal(v.job.value.state)
    ensures CanTransition(v.job.value.state, v.record.value.terminalState)
    ensures ViewOk(StepView(v, Some(Moved(v.job.value, v.record.value.terminalState, patch, now)), v.row, v.record,
                            Freeing(recovering), Tick(now)), maxRetries, everReplaySafe)
  {
  }

  lemma TerminalizeStepOk(s: System, j: JobId, recovering: bool, now: Time)
    requires JobReady(s, j) && PcOf(s, j) == Terminalizing(recovering)
    ensures StepOk(s, j, TerminalizeStep(s.tables, j, recovering, now), Tick(now))
  {
    var record := s.tables.results[j];
    if IsTerminal(s.tables.jobs[j].state) {
      MoveOk(s, j, Freeing(recovering), Tick(now));
    } else {
      TerminalizedViewOk(ViewOf(s, j), TerminalPatch(record), recovering, now, s.maxRetries, s.everReplaySafe);
      TransitionView(s, j, record.terminalState, TerminalPatch(record), s.tables.jobs[j].version, now,
                     Freeing(recovering), Idle, Tick(now));
    }
  }

  lemma FreedViewOk(v: View, after: Pc, now: Time, maxRetries: nat, everReplaySafe: bool)
    requires ViewOk(v, maxRetries, everReplaySafe) && v.pc.Freeing? && (after.Idle? || after.Observing?)
    ensures v.record.Some? && v.job.Some?
    ensures ReleaseAllowed(v.job.value.state, ReleaseReasonFor(v.record.value.terminalState))
    ensures ViewOk(StepView(v, v.job,
                            if IsLiveRow(v.row) then
                              Some(Ended(v.row.value, ReleaseReasonFor(v.record.value.terminalState), now))
                            else v.row,
                            v.record, after, Tick(now)), maxRetries, everReplaySafe)
  {
  }

  lemma FreeStepOk(s: System, j: JobId, recovering: bool, now: Time)
    requires JobReady(s, j) && Consistent(s.tables) && PcOf(s, j) == Freeing(recovering)
    ensures StepOk(s, j, FreeStep(s.tables, j, recovering, now), Tick(now))
  {
    var effect := FreeStep(s.tables, j, recovering, now);
    FreedViewOk(ViewOf(s, j), effect.committed, now, s.maxRetries, s.everReplaySafe);
    ReleaseView(s, j, ReleaseReasonFor(s.tables.results[j].terminalState), now, effect.committed, Idle, Tick(now));
  }

  // -------------------------------------------------------------------------------------------
  // RecoveryService
  // -------------------------------------------------------------------------------------------

  lemma PreserveIpOk(s: System, j: JobId, next: Pc, event: Event)
    requires JobReady(s, j) && PcOf(s, j).Idle? && j in s.tables.jobs
    requires next.Observing? || next.RecoveryHeld?
    requires PcOk(ViewOf(s, j).(pc := next), s.maxRetries)
    ensures StepOk(s, j, PreserveIp(s.tables, j, next), event)
  {
    LiveRow(s.tables, j);
    if HasLive(s.tables, j) {
      HeldViewOk(ViewOf(s, j), next, event, s.maxRetries, s.everReplaySafe);
      HoldView(s, j, next, Idle, event);
    } else {
      MoveOk(s, j, Observing(ObservationOf(s.tables.jobs[j], BlockedSessionLoss, None)), event);
    }
  }

  lemma InterruptedSendViewOk(v: View, observation: Observation, event: Event, maxRetries: nat, everReplaySafe: bool)
    requires ViewOk(v, maxRetries, everReplaySafe) && v.pc.Idle? && HasStatusIn(v, InFlight)
    ensures ViewOk(StepView(v, v.job, v.row, Some(v.record.value.(status := Uncertain, certainty := Some(Ambiguous))),
                            Observing(observation), event), maxRetries, everReplaySafe)
  {
  }

  lemma RecoverResultOk(s: System, j: JobId, now: Time)
    requires JobReady(s, j) && PcOf(s, j).Idle?
    requires j in s.tables.jobs && !IsTerminal(s.tables.jobs[j].state) && j in s.tables.results
    ensures StepOk(s, j, RecoverStep(s, j, now), Tick(now))
  {
    var job, record := s.tables.jobs[j], s.tables.results[j];
    match record.status
    case InFlight =>
      var observing := Observing(ObservationOf(job, FinalResultUncertain, None));
      InterruptedSendViewOk(ViewOf(s, j), observing.observation, Tick(now), s.maxRetries, s.everReplaySafe);
      RecordView(s, j, MarkInterruptedOp(j), record.(status := Uncertain, certainty := Some(Ambiguous)),
                 observing, Idle, Tick(now));
    case Uncertain => MoveOk(s, j, Observing(ObservationOf(job, FinalResultUncertain, None)), Tick(now));
    case Delivered => MoveOk(s, j, Terminalizing(true), Tick(now));
    case DeliveryPending => MoveOk(s, j, Observing(ObservationOf(job, FinalResultPending, None)), Tick(now));
  }

  lemma RecoverStepOk(s: System, j: JobId, now: Time)
    requires JobReady(s, j) && PcOf(s, j).Idle?
    ensures StepOk(s, j, RecoverStep(s, j, now), Tick(now))
  {
    var t := s.tables;
    if j !in t.jobs || IsTerminal(t.jobs[j].state) {
      MoveOk(s, j, Idle, Tick(now));
    } else if j in t.results {
      RecoverResultOk(s, j, now);
    } else {
      RecoverExecutionOk(s, j, now);
    }
  }

  lemma RecoverExecutionOk(s: System, j: JobId, now: Time)
    requires JobReady(s, j) && PcOf(s, j).Idle?
    requires j in s.tables.jobs && !IsTerminal(s.tables.jobs[j].state) && j !in s.tables.results
    ensures StepOk(s, j, RecoverStep(s, j, now), Tick(now))
  {
    var job := s.tables.jobs[j];
    if job.state == WaitingForManualChallenge {
      MoveOk(s, j, Observing(ObservationOf(job, WaitingManual, None)), Tick(now));
    } else if job.currentStep.Some? && job.currentStep.value in s.uploadSteps {
      PreserveIpOk(s, j, Observing(ObservationOf(job, BlockedUnsafeReplay, None)), Tick(now));
    } else if job.state == RetryPending {
      PreserveIpOk(s, j, Observing(ObservationOf(job, RetryScheduled, RetryAt(now, job.retryCount))), Tick(now));
    } else if job.state == Running {
      PreserveIpOk(s, j, AfterInterruption(s, job), Tick(now));
    } else {
      MoveOk(s, j, Observing(ObservationOf(job, NoRecovery, None)), Tick(now));
    }
  }

  lemma RecoveryIncrementOk(s: System, j: JobId, version: nat, now: Time)
    requires JobReady(s, j) && PcOf(s, j) == RecoveryHeld(version)
    ensures StepOk(s, j, Try(IncrementOp(j, Some(version)), RecoveryCounted(version + 1), Idle), Tick(now))
  {
    CountedViewOk(ViewOf(s, j), RecoveryCounted(version + 1), Tick(now), s.maxRetries, s.everReplaySafe);
    IncrementView(s, j, version, RecoveryCounted(version + 1), Idle, Tick(now));
  }

  lemma ScheduleStepOk(s: System, j: JobId, version: nat, now: Time)
    requires JobReady(s, j) && PcOf(s, j) == RecoveryCounted(version)
    ensures StepOk(s, j, ScheduleStep(s.tables, j, version, now), Tick(now))
  {
    var effect := ScheduleStep(s.tables, j, version, now);
    var patch := Patch(s.tables.jobs[j].currentStep, None);
    RetryPendingViewOk(ViewOf(s, j), patch, effect.committed, now, s.maxRetries, s.everReplaySafe);
    TransitionView(s, j, RetryPending, patch, version, now, effect.committed, Idle, Tick(now));
  }

  lemma ObserveStepOk(s: System, j: JobId, observation: Observation, now: Time)
    requires JobReady(s, j) && PcOf(s, j) == Observing(observation)
    ensures StepOk(s, j, Try(RecordOp(j, s.boot, observation), Idle, Idle), Tick(now))
  {
    QuietView(s, j, RecordOp(j, s.boot, observation), Idle, Idle, Tick(now));
    MovingView(ViewOf(s, j), Idle, Tick(now), s.maxRetries, s.everReplaySafe);
  }

  // -------------------------------------------------------------------------------------------
  // All steps of a runner
  // -------------------------------------------------------------------------------------------

  lemma ExecutionTickOk(s: System, j: JobId, now: Time)
    requires JobReady(s, j)
    requires !InDelivery(PcOf(s, j)) && !InRecovery(PcOf(s, j))
    ensures StepOk(s, j, ExecutionTick(s, j, now), Tick(now))
  {
    match PcOf(s, j)
    case Starting => RunStepOk(s, j, now);
    case Activating(version) => EnterRunningOk(s, j, version, now);
    case Resuming => ResumeStepOk(s, j, now);
    case Failing(error) => FailureStepOk(s, j, error, now);
    case Counted(version, code) => HoldStepOk(s, j, version, code, now);
    case HeldBack(version, code) => RetryPendingStepOk(s, j, version, code, now);
    case _ => StayOk(s, j, Tick(now));
  }

  lemma DeliveryTickOk(s: System, j: JobId, now: Time)
    requires JobReady(s, j) && Consistent(s.tables) && InDelivery(PcOf(s, j))
    ensures StepOk(s, j, DeliveryTick(s, j, now), Tick(now))
  {
    match PcOf(s, j)
    case Delivering => DeliverStepOk(s, j, now);
    case Acknowledged(httpStatus) => AcknowledgedStepOk(s, j, httpStatus, now);
    case Undelivered(certainty) => UndeliveredStepOk(s, j, certainty, now);
    case Terminalizing(recovering) => TerminalizeStepOk(s, j, recovering, now);
    case Freeing(recovering) => FreeStepOk(s, j, recovering, now);
  }

  lemma RecoveryTickOk(s: System, j: JobId, now: Time)
    requires JobReady(s, j) && InRecovery(PcOf(s, j))
    ensures StepOk(s, j, RecoveryTick(s, j, now), Tick(now))
  {
    match PcOf(s, j)
    case RecoveryHeld(version) => RecoveryIncrementOk(s, j, version, now);
    case RecoveryCounted(version) => ScheduleStepOk(s, j, version, now);
    case Observing(observation) => ObserveStepOk(s, j, observation, now);
  }

  lemma TickOk(s: System, j: JobId, now: Time)
    requires JobReady(s, j) && Consistent(s.tables) && PcOf(s, j) != Idle
    ensures StepOk(s, j, StepOf(s, j, Tick(now)), Tick(now))
  {
    if InDelivery(PcOf(s, j)) {
      DeliveryTickOk(s, j, now);
    } else if InRecovery(PcOf(s, j)) {
      RecoveryTickOk(s, j, now);
    } else {
      ExecutionTickOk(s, j, now);
    }
  }

  lemma AdvanceOk(s: System, j: JobId, event: Event)
    requires JobReady(s, j) && Consistent(s.tables) && PcOf(s, j) != Idle
    ensures StepOk(s, j, StepOf(s, j, event), event)
  {
    var pc := PcOf(s, j);
    match event
    case Tick(now) => TickOk(s, j, now);
    case WorkflowCompleted =>
      if pc.Executing? { MoveOk(s, j, Finalizing(SuccessOutcome), event); } else { StayOk(s, j, event); }
    case WorkflowFailed(error, step, aborted, now) =>
      if pc.Executing? { WorkflowFailedStepOk(s, j, error, step, aborted, now); } else { StayOk(s, j, event); }
    case SessionFailed(error) =>
      if pc.Executing? { MoveOk(s, j, Failing(error), event); } else { StayOk(s, j, event); }
    case SleepEnded =>
      if pc.Backoff? { MoveOk(s, j, Starting, event); } else { StayOk(s, j, event); }
    case SleepAborted =>
      if pc.Backoff? { MoveOk(s, j, Idle, event); } else { StayOk(s, j, event); }
    case PayloadBuilt(code, payload) =>
      if pc.Finalizing? { FinalizeStepOk(s, j, pc.outcome, code, payload); } else { StayOk(s, j, event); }
    case PayloadRejected =>
      if pc.Finalizing? { MoveOk(s, j, Idle, event); } else { StayOk(s, j, event); }
    case SendAccepted(httpStatus) =>
      if pc.Sending? { AnswerStepOk(s, j, event, Acknowledged(httpStatus)); } else { StayOk(s, j, event); }
    case SendFailed(certainty) =>
      if pc.Sending? { AnswerStepOk(s, j, event, Undelivered(certainty)); } else { StayOk(s, j, event); }
  }

  // -------------------------------------------------------------------------------------------
  // All steps of the system
  // -------------------------------------------------------------------------------------------

  lemma PerformOk(s: System, j: JobId, effect: Effect, event: Event)
    requires SystemOk(s) && StepOk(s, j, effect, event)
    ensures SystemOk(Perform(s, j, effect, event))
    ensures forall k :: k != j ==> ViewOf(Perform(s, j, effect, event), k) == ViewOf(s, k)
  {
    var s' := Perform(s, j, effect, event);
    if effect.op.Some? {
      TransactionsKeepConsistent(s.tables, effect.op.value);
      TransactionsKeepJobsOk(s.tables, effect.op.value);
      OtherJobsAreUntouched(s.tables, effect.op.value);
    }
    forall k | k != j ensures ViewOf(s', k) == ViewOf(s, k) {
    }
    forall k ensures ViewOk(ViewOf(s', k), s'.maxRetries, s'.everReplaySafe) {
      if k != j {
        assert ViewOk(ViewOf(s, k), s.maxRetries, s.everReplaySafe);
      }
    }
  }

  lemma ReadyJob(s: System, j: JobId)
    requires SystemOk(s)
    ensures JobReady(s, j)
  {
  }

  lemma JumpedViewOk(v: View, after: Pc, maxRetries: nat, everReplaySafe: bool)
    requires ViewOk(v, maxRetries, everReplaySafe) && v.pc.Idle? && v.job.Some?
    requires after.Delivering? || after.Starting? || after.Resuming?
    requires PcOk(v.(pc := after), maxRetries)
    ensures ViewOk(v.(pc := after), maxRetries, everReplaySafe)
  {
  }

  lemma JumpView(s: System, j: JobId, after: Pc, k: JobId)
    requires !after.Idle?
    ensures ViewOf(s.(pcs := SetPc(s.pcs, j, after)), k) ==
            if k == j then ViewOf(s, k).(pc := after) else ViewOf(s, k)
  {
  }

  /** A step that changes nothing but the control point of one job. */
  lemma JumpOk(s: System, j: JobId, after: Pc)
    requires SystemOk(s) && PcOf(s, j).Idle? && j in s.tables.jobs
    requires after.Delivering? || after.Starting? || after.Resuming?
    requires PcOk(ViewOf(s, j).(pc := after), s.maxRetries)
    ensures SystemOk(s.(pcs := SetPc(s.pcs, j, after)))
  {
    var s' := s.(pcs := SetPc(s.pcs, j, after));
    ReadyJob(s, j);
    JumpedViewOk(ViewOf(s, j), after, s.maxRetries, s.everReplaySafe);
    forall k ensures ViewOk(ViewOf(s', k), s'.maxRetries, s'.everReplaySafe) {
      JumpView(s, j, after, k);
      ReadyJob(s, k);
    }
  }

  /** Nothing the invariant says is lost when the process dies between any two steps. */
  lemma CrashedViewOk(v: View, maxRetries: nat, everReplaySafe: bool, replaySafe: bool)
    requires ViewOk(v, maxRetries, everReplaySafe)
    ensures ViewOk(v.(pc := Idle, hasContext := false, role := NoRole), maxRetries, everReplaySafe || replaySafe)
  {
  }

  lemma RestartOk(s: System, boot: BootId, configured: bool, replaySafe: bool)
    requires SystemOk(s)
    ensures SystemOk(Next(s, Restart(boot, configured, replaySafe)))
  {
    var s' := Next(s, Restart(boot, configured, replaySafe));
    forall j ensures ViewOk(ViewOf(s', j), s'.maxRetries, s'.everReplaySafe) {
      CrashedViewOk(ViewOf(s, j), s.maxRetries, s.everReplaySafe, replaySafe);
      assert ViewOf(s', j) == ViewOf(s, j).(pc := Idle, hasContext := false, role := NoRole);
    }
  }

  lemma PoolOk(s: System, op: Op)
    requires SystemOk(s) && (op.SyncOp? || op.ChangeOp?)
    ensures SystemOk(Next(s, Pool(op)))
  {
    var s' := Next(s, Pool(op));
    TransactionsKeepConsistent(s.tables, op);
    TransactionsKeepJobsOk(s.tables, op);
    OtherJobsAreUntouched(s.tables, op);
    forall j ensures ViewOk(ViewOf(s', j), s'.maxRetries, s'.everReplaySafe) {
      assert ViewOf(s', j) == ViewOf(s, j);
    }
  }

  // -------------------------------------------------------------------------------------------
  // Intake
  // -------------------------------------------------------------------------------------------

  /** One transaction, and a new control point of the intake cycle. */
  function WithIntake(s: System, t: Tables, intake: IntakePc): System {
    s.(tables := t, intake := intake)
  }

  /** An intake step is fine when it is fine for the jobs whose rows or role it changes. */
  lemma IntakeKeepsOthers(s: System, op: Op, intake: IntakePc)
    requires SystemOk(s) && Disciplined(s.tables, op)
    requires forall j :: IsFor(op, j) || RoleOf(intake, j) != RoleOf(s.intake, j) ==>
               ViewOk(ViewOf(WithIntake(s, Apply(s.tables, op), intake), j), s.maxRetries, s.everReplaySafe)
    ensures SystemOk(WithIntake(s, Apply(s.tables, op), intake))
  {
    var s' := WithIntake(s, Apply(s.tables, op), intake);
    TransactionsKeepConsistent(s.tables, op);
    TransactionsKeepJobsOk(s.tables, op);
    OtherJobsAreUntouched(s.tables, op);
    forall j ensures ViewOk(ViewOf(s', j), s'.maxRetries, s'.everReplaySafe) {
      if !IsFor(op, j) && RoleOf(intake, j) == RoleOf(s.intake, j) {
        assert ViewOf(s', j) == ViewOf(s, j);
      }
    }
  }

  lemma UnassignedViewOk(v: View, maxRetries: nat, everReplaySafe: bool)
    requires ViewOk(v, maxRetries, everReplaySafe)
    ensures ViewOk(v.(role := NoRole), maxRetries, everReplaySafe)
  {
  }

  /** Giving up on the current job is always fine. */
  lemma UnassignedOk(s: System, op: Op)
    requires SystemOk(s) && (op.ReserveOp? || op.GiveBackOp?)
    ensures SystemOk(WithIntake(s, Apply(s.tables, op), NoIntake))
  {
    RowsAreKept(s.tables, op);
    JobsAreLeftAlone(s.tables, op);
    forall j
      ensures ViewOk(ViewOf(WithIntake(s, Apply(s.tables, op), NoIntake), j), s.maxRetries, s.everReplaySafe)
    {
      UnassignedViewOk(ViewOf(s, j), s.maxRetries, s.everReplaySafe);
      assert ViewOf(WithIntake(s, Apply(s.tables, op), NoIntake), j) == ViewOf(s, j).(role := NoRole);
    }
    IntakeKeepsOthers(s, op, NoIntake);
  }

  lemma ReserveStepOk(s: System, maxConcurrent: nat, r: ReservationId)
    requires SystemOk(s) && s.intake == NoIntake
    ensures SystemOk(PerformIntake(s, IntakeStepOf(s, ReserveStep(maxConcurrent, r))))
  {
    var op := ReserveOp(maxConcurrent, r);
    IntakeKeepsOthers(s, op, HoldingSlot(r));
    UnassignedOk(s, op);
  }

  lemma CreatedViewOk(
    v: View, application: ApplicationId, user: Option<UserId>, maxRetries: nat, everReplaySafe: bool)
    requires ViewOk(v, maxRetries, everReplaySafe) && v.job.None?
    ensures ViewOk(v.(job := Some(NewJob(application, user)), role := CreatedRole), maxRetries, everReplaySafe)
  {
  }

  lemma CreateStepOk(s: System, r: ReservationId, application: ApplicationId, user: Option<UserId>, jobId: JobId)
    requires SystemOk(s) && s.intake == HoldingSlot(r)
    ensures SystemOk(PerformIntake(s, IntakeStepOf(s, CreateStep(application, user, jobId))))
  {
    var op := CreateJobOp(application, user, jobId);
    var tx := CreateOrGetJob(s.tables, application, user, jobId);
    if tx.Commit? && tx.value.created {
      NewlyCreatedOk(s, r, application, user, jobId);
    } else {
      assert PerformIntake(s, IntakeStepOf(s, CreateStep(application, user, jobId))) == s;
    }
  }

  lemma NewlyCreatedOk(s: System, r: ReservationId, application: ApplicationId, user: Option<UserId>, jobId: JobId)
    requires SystemOk(s) && s.intake == HoldingSlot(r)
    requires CreateOrGetJob(s.tables, application, user, jobId).Commit?
    requires CreateOrGetJob(s.tables, application, user, jobId).value.created
    ensures SystemOk(WithIntake(s, Apply(s.tables, CreateJobOp(application, user, jobId)), CreatedJobPc(r, jobId)))
  {
    var op := CreateJobOp(application, user, jobId);
    var intake := CreatedJobPc(r, jobId);
    var s' := WithIntake(s, Apply(s.tables, op), intake);
    RowsAreKept(s.tables, op);
    CreatedViewOk(ViewOf(s, jobId), application, user, s.maxRetries, s.everReplaySafe);
    assert ViewOf(s', jobId) == ViewOf(s, jobId).(job := Some(NewJob(application, user)), role := CreatedRole);
    IntakeKeepsOthers(s, op, intake);
  }

  lemma BoundViewOk(v: View, row: Allocation, maxRetries: nat, everReplaySafe: bool)
    requires ViewOk(v, maxRetries, everReplaySafe) && v.role == CreatedRole
    requires row.status == AllocReserved && row.releaseReason.None?
    ensures v.row.None?
    ensures ViewOk(v.(row := Some(row), role := BoundRole), maxRetries, everReplaySafe)
  {
  }

  lemma BindStepOk(s: System, r: ReservationId, j: JobId, a: AllocationId)
    requires SystemOk(s) && s.intake == CreatedJobPc(r, j)
    ensures SystemOk(PerformIntake(s, IntakeStepOf(s, BindStep(a))))
  {
    var tx := Bind(s.tables, r, j, a);
    if tx.Commit? {
      NewlyBoundOk(s, r, j, a);
    } else {
      assert PerformIntake(s, IntakeStepOf(s, BindStep(a))) == s;
    }
  }

  lemma NewlyBoundOk(s: System, r: ReservationId, j: JobId, a: AllocationId)
    requires SystemOk(s) && s.intake == CreatedJobPc(r, j)
    requires Bind(s.tables, r, j, a).Commit?
    ensures SystemOk(WithIntake(s, Apply(s.tables, BindOp(r, j, a)), BoundJobPc(j)))
  {
    var op := BindOp(r, j, a);
    var s' := WithIntake(s, Apply(s.tables, op), BoundJobPc(j));
    var row := NewAllocation(j, s.tables.reservations[r].proxyId, s.tables.reservations[r].endpoint);
    var v := ViewOf(s, j);
    BoundViewOk(v, row, s.maxRetries, s.everReplaySafe);
    BoundRow(s.tables, r, j, a);
    assert ViewOf(s', j) == v.(row := Some(row), role := BoundRole);
    IntakeKeepsOthers(s, op, BoundJobPc(j));
  }

  lemma ForwardedViewOk(v: View, to: JobState, role: Role, now: Time, maxRetries: nat, everReplaySafe: bool)
    requires ViewOk(v, maxRetries, everReplaySafe)
    requires || (v.role == BoundRole && to == Claimed && role == ClaimedRole)
             || (v.role == ClaimedRole && to == WaitingForIp && role == NoRole)
    ensures CanTransition(v.job.value.state, to)
    ensures ViewOk(v.(job := Some(Moved(v.job.value, to, NO_PATCH, now)), role := role), maxRetries, everReplaySafe)
  {
  }

  lemma ForwardStepOk(s: System, j: JobId, to: JobState, intake: IntakePc, now: Time)
    requires SystemOk(s)
    requires || (s.intake == BoundJobPc(j) && to == Claimed && intake == ClaimedJobPc(j))
             || (s.intake == ClaimedJobPc(j) && to == WaitingForIp && intake == NoIntake)
    ensures TransitionJob(s.tables, j, to, NO_PATCH, None, now).Commit?
    ensures SystemOk(WithIntake(s, Apply(s.tables, TransitionOp(j, to, NO_PATCH, None, now)), intake))
  {
    var op := TransitionOp(j, to, NO_PATCH, None, now);
    var v := ViewOf(s, j);
    var s' := WithIntake(s, Apply(s.tables, op), intake);
    assert ViewOk(v, s.maxRetries, s.everReplaySafe);
    ForwardedViewOk(v, to, RoleOf(intake, j), now, s.maxRetries, s.everReplaySafe);
    RowsAreKept(s.tables, op);
    assert ViewOf(s', j) == v.(job := Some(Moved(v.job.value, to, NO_PATCH, now)), role := RoleOf(intake, j));
    IntakeKeepsOthers(s, op, intake);
  }

  lemma IntakeOk(s: System, step: IntakeStep)
    requires SystemOk(s)
    ensures SystemOk(PerformIntake(s, IntakeStepOf(s, step)))
  {
    match (s.intake, step)
    case (NoIntake, ReserveStep(maxConcurrent, r)) => ReserveStepOk(s, maxConcurrent, r);
    case (HoldingSlot(r), GiveBackStep) => UnassignedOk(s, GiveBackOp(r));
    case (CreatedJobPc(r, j), GiveBackStep) => UnassignedOk(s, GiveBackOp(r));
    case (HoldingSlot(r), CreateStep(application, user, jobId)) => CreateStepOk(s, r, application, user, jobId);
    case (CreatedJobPc(r, j), BindStep(a)) => BindStepOk(s, r, j, a);
    case (BoundJobPc(j), ClaimStep(now)) => ForwardStepOk(s, j, Claimed, ClaimedJobPc(j), now);
    case (ClaimedJobPc(j), WaitStep(now)) => ForwardStepOk(s, j, WaitingForIp, NoIntake, now);
    case _ =>
  }

  // -------------------------------------------------------------------------------------------
  // Every reachable state
  // -------------------------------------------------------------------------------------------

  lemma NextOk(s: System, a: Action)
    requires SystemOk(s)
    ensures SystemOk(Next(s, a))
  {
    match a
    case Restart(boot, configured, replaySafe) => RestartOk(s, boot, configured, replaySafe);
    case Recover(j, now) =>
      if s.phase == Recovering && PcOf(s, j) == Idle {
        ReadyJob(s, j);
        RecoverStepOk(s, j, now);
        PerformOk(s, j, RecoverStep(s, j, now), Tick(now));
      }
    case Redeliver(j) => RedeliverOk(s, j, a);
    case ResumeByHand(j) => RedeliverOk(s, j, a);
    case Serve =>
      if Next(s, a) != s {
        assert forall j :: ViewOf(Next(s, a), j) == ViewOf(s, j);
      }
    case Admit(j) =>
      if Next(s, a) != s { JumpOk(s, j, Starting); }
    case Resume(j) =>
      if Next(s, a) != s { JumpOk(s, j, Resuming); }
    case Advance(j, event) =>
      if PcOf(s, j) != Idle {
        ReadyJob(s, j);
        AdvanceOk(s, j, event);
        PerformOk(s, j, StepOf(s, j, event), event);
      }
    case Intake(step) =>
      if s.phase == Serving { IntakeOk(s, step); }
    case Pool(op) =>
      if op.SyncOp? || op.ChangeOp? { PoolOk(s, op); }
  }

  lemma RedeliverOk(s: System, j: JobId, a: Action)
    requires SystemOk(s) && (a == Redeliver(j) || a == ResumeByHand(j))
    ensures SystemOk(Next(s, a))
  {
    assert ViewOk(ViewOf(s, j), s.maxRetries, s.everReplaySafe);
    if Next(s, a) != s {
      JumpOk(s, j, Delivering);
    }
  }

  lemma InitialOk(maxRetries: nat, uploadSteps: set<StepId>)
    ensures SystemOk(Initial(maxRetries, uploadSteps))
  {
    var s := Initial(maxRetries, uploadSteps);
    forall j ensures ViewOk(ViewOf(s, j), s.maxRetries, s.everReplaySafe) {
      if RowOf(s.tables, j).Some? {
        assert OwnRow(s.tables, RowOf(s.tables, j).value, j);
      }
    }
  }

  lemma LimitIsFixed(s: System, a: Action)
    ensures Next(s, a).maxRetries == s.maxRetries
  {
  }

  /** The invariant holds after any sequence of actions, crashes included. */
  lemma {:induction false} RunsAreOk(maxRetries: nat, uploadSteps: set<StepId>, actions: seq<Action>)
    ensures SystemOk(Run(Initial(maxRetries, uploadSteps), actions))
    ensures Run(Initial(maxRetries, uploadSteps), actions).maxRetries == maxRetries
  {
    if actions == [] {
      InitialOk(maxRetries, uploadSteps);
    } else {
      var init, last := actions[..|actions| - 1], actions[|actions| - 1];
      var s := Run(Initial(maxRetries, uploadSteps), init);
      RunsAreOk(maxRetries, uploadSteps, init);
      NextOk(s, last);
      LimitIsFixed(s, last);
      assert Run(Initial(maxRetries, uploadSteps), actions) == Next(s, last);
    }
  }
}
