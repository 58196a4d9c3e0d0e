/** The whole runtime as a state machine: the durable tables, one control point per job for the
    runner that is working on it, the intake cycle, and a history of Portal sends. Every step is at
    most one transaction, a crash may come between any two steps, and all nondeterminism (which job
    moves, what the Portal, the workflow or the clock does) is in the actions. */
module SystemModel {
  import opened Wrappers
  import opened JobStates
  import opened ProxyStates
  import opened CanonicalJson
  import opened Schema
  import opened JobTransactions
  import opened AllocationTransactions
  import opened ReservationTransactions
  import opened LedgerTransactions
  import opened RecoveryTransactions
  import opened RetryPolicy
  import opened Transactions

  // -------------------------------------------------------------------------------------------
  // State
  // -------------------------------------------------------------------------------------------

  /** Where the runner of one job stands between two transactions. */
  datatype Pc =
    | Idle
    // ExecutionWorker.run and resumeManualChallenge
    | Starting
    | Activating(version: nat)
    | Executing
    | Resuming
    // RetryingExecutionRunner.handleFailure
    | Failing(error: ExecutionError)
    | Counted(version: nat, code: Code)
    | HeldBack(version: nat, code: Code)
    | Backoff
    // FinalizingExecutionRunner and FinalResultService
    | Finalizing(outcome: FinalOutcome)
    | Delivering
    | Sending
    | Acknowledged(httpStatus: Option<int>)
    | Undelivered(certainty: Certainty)
    | Terminalizing(recovering: bool)
    | Freeing(recovering: bool)
    // RecoveryService.recoverJob
    | RecoveryHeld(version: nat)
    | RecoveryCounted(version: nat)
    | Observing(observation: Observation)

  /** One attempt to send a final result to the Portal, as far as it is known. */
  datatype Send = Open | Accepted | NotAccepted(certainty: Certainty)

  datatype Phase = Recovering | Serving

  datatype IntakePc =
    | NoIntake
    | HoldingSlot(r: ReservationId)
    | CreatedJobPc(r: ReservationId, j: JobId)
    | BoundJobPc(j: JobId)
    | ClaimedJobPc(j: JobId)

  datatype System = System(
    tables: Tables,
    maxRetries: nat,
    uploadSteps: set<StepId>,
    // one boot of the process
    boot: BootId,
    configured: bool,
    replaySafe: bool,
    phase: Phase,
    pcs: map<JobId, Pc>,
    contexts: set<JobId>,
    intake: IntakePc,
    // history
    everReplaySafe: bool,
    sends: map<JobId, seq<Send>>,
    retryStarts: map<JobId, nat>)

  function Initial(maxRetries: nat, uploadSteps: set<StepId>): System {
    System(EMPTY_TABLES, maxRetries, uploadSteps, 0, false, false, Recovering, map[], {}, NoIntake,
           false, map[], map[])
  }

  function PcOf(s: System, j: JobId): Pc {
    if j in s.pcs then s.pcs[j] else Idle
  }

  function SetPc(pcs: map<JobId, Pc>, j: JobId, pc: Pc): map<JobId, Pc> {
    if pc == Idle then pcs - {j} else pcs[j := pc]
  }

  function SendsOf(s: System, j: JobId): seq<Send> {
    if j in s.sends then s.sends[j] else []
  }

  function StartsOf(s: System, j: JobId): nat {
    if j in s.retryStarts then s.retryStarts[j] else 0
  }

  // -------------------------------------------------------------------------------------------
  // Actions
  // -------------------------------------------------------------------------------------------

  /** What a runner is told when it moves on. */
  datatype Event =
    | Tick(now: Time)
    | WorkflowCompleted
    | WorkflowFailed(error: ExecutionError, step: Option<StepId>, aborted: bool, now: Time)
    | SessionFailed(error: ExecutionError)
    | SleepEnded
    | SleepAborted
    | PayloadBuilt(code: Option<Code>, payload: Json)
    | PayloadRejected
    | SendAccepted(httpStatus: Option<int>)
    | SendFailed(certainty: Certainty)

  datatype IntakeStep =
    | ReserveStep(maxConcurrent: nat, r: ReservationId)
    | GiveBackStep
    | CreateStep(application: ApplicationId, user: Option<UserId>, jobId: JobId)
    | BindStep(a: AllocationId)
    | ClaimStep(now: Time)
    | WaitStep(now: Time)

  datatype Action =
    | Restart(boot: BootId, configured: bool, replaySafe: bool)
    | Recover(j: JobId, now: Time)
    | Redeliver(j: JobId)
    | ResumeByHand(j: JobId)
    | Serve
    | Admit(j: JobId)
    | Resume(j: JobId)
    | Advance(j: JobId, event: Event)
    | Intake(step: IntakeStep)
    | Pool(op: Op)

  // -------------------------------------------------------------------------------------------
  // One step of a job's runner
  // -------------------------------------------------------------------------------------------

  /** A step of a runner: at most one transaction, and where control goes when it commits or fails. */
  datatype Effect = Effect(op: Option<Op>, committed: Pc, failed: Pc)

  function GoTo(pc: Pc): Effect {
    Effect(None, pc, pc)
  }

  function Try(op: Op, committed: Pc, failed: Pc): Effect {
    Effect(Some(op), committed, failed)
  }

  /** A database error as the retry policy sees it. */
  function AsExecutionError(error: Error): ExecutionError {
    match error
    case JobConflict(retryable) => ExecutionError(Some(OtherCode(1)), false, retryable)
    case ProxyUnavailable(retryable) => ExecutionError(Some(OtherCode(2)), false, retryable)
    case _ => ExecutionError(Some(OtherCode(3)), false, false)
  }

  ghost predicate HasLive(t: Tables, j: JobId) {
    LiveOf(t, j).Some?
  }

  /** transitionJob(j, RUNNING, expectedVersion): a failure is thrown to the retry policy. */
  function EnterRunning(t: Tables, j: JobId, version: nat, now: Time): Effect {
    match TransitionJob(t, j, Running, NO_PATCH, Some(version), now)
    case Commit(_, _) => Try(TransitionOp(j, Running, NO_PATCH, Some(version), now), Executing, Idle)
    case Rollback(error) => GoTo(Failing(AsExecutionError(error)))
  }

  ghost function RunStep(s: System, j: JobId, now: Time): Effect {
    var t := s.tables;
    if j !in t.jobs then
      GoTo(Idle)
    else if t.jobs[j].state !in {WaitingForIp, RetryPending} || !HasLive(t, j) then
      GoTo(Failing(PLAIN_ERROR))
    else
      Try(ActivateOp(j, now), Activating(t.jobs[j].version), Idle)
  }

  ghost function ResumeStep(s: System, j: JobId, now: Time): Effect {
    var t := s.tables;
    if j !in t.jobs then
      GoTo(Idle)
    else if t.jobs[j].state != WaitingForManualChallenge || j !in s.contexts || !HasLive(t, j) then
      GoTo(Failing(PLAIN_ERROR))
    else
      EnterRunning(t, j, t.jobs[j].version, now)
  }

  /** The catch block around the workflow: only a manual challenge changes the job. */
  function WorkflowFailedStep(t: Tables, j: JobId, error: ExecutionError, step: Option<StepId>, aborted: bool, now: Time)
    : Effect
  {
    if aborted || error.code != Some(ManualChallengeRequired) || j !in t.jobs || t.jobs[j].state != Running then
      GoTo(Failing(error))
    else
      Try(TransitionOp(j, WaitingForManualChallenge, Patch(step, Some(ManualChallengeRequired)),
                       Some(t.jobs[j].version), now),
          Failing(error), Idle)
  }

  function FailureStep(s: System, j: JobId, error: ExecutionError): Effect {
    var t := s.tables;
    if j !in t.jobs then
      GoTo(Idle)
    else
      var c := ClassifyRetry(error, t.jobs[j].retryCount, s.maxRetries);
      match c.decision
      case ManualRequired => GoTo(Idle)
      case ShutdownInterrupted => GoTo(Idle)
      case NonRetryable => GoTo(Finalizing(FailureOutcome))
      case Exhausted => GoTo(Finalizing(FailureOutcome))
      case Retry =>
        if t.jobs[j].state != Running then
          GoTo(Idle)
        else
          Try(IncrementOp(j, Some(t.jobs[j].version)), Counted(t.jobs[j].version + 1, c.code), Idle)
  }

  /** The ledger form of a payload tree. */
  function Normalized(application: ApplicationId, outcome: FinalOutcome, code: Option<Code>, payload: Json)
    : NormalizedResult
  {
    var canonical := Canonicalize(payload);
    NormalizedResult(application, outcome, code, canonical, Sha256(canonical))
  }

  function FinalizeStep(t: Tables, j: JobId, outcome: FinalOutcome, code: Option<Code>, payload: Json): Effect {
    if j !in t.jobs || (IsTerminal(t.jobs[j].state) && j !in t.results) then
      GoTo(Idle)
    else
      Try(CreateResultOp(j, Normalized(t.jobs[j].applicationId, outcome, code, payload)), Delivering, Idle)
  }

  /** deliverRecord up to the send. */
  ghost function DeliverStep(s: System, j: JobId): Effect {
    var t := s.tables;
    if j !in t.results then
      GoTo(Idle)
    else if t.results[j].status == Delivered then
      GoTo(Terminalizing(false))
    else if !s.configured then
      GoTo(Idle)
    else if t.results[j].status == DeliveryPending && t.results[j].certainty == Some(Ambiguous) && !s.replaySafe then
      GoTo(Idle)
    else if t.results[j].status == Uncertain then
      if s.replaySafe then Try(RequeueOp(j), Delivering, Idle) else GoTo(Idle)
    else if !HasLive(t, j) then
      GoTo(Idle)
    else
      Try(BeginOp(j), Sending, Idle)
  }

  function UndeliveredStep(s: System, j: JobId, certainty: Certainty): Effect {
    if certainty != Ambiguous || s.replaySafe then
      Try(MarkPendingOp(j, certainty), Idle, Idle)
    else
      Try(MarkUncertainOp(j), Idle, Idle)
  }

  function ReleaseReasonFor(terminalState: JobState): ReleaseReason {
    if terminalState == Completed then JobCompleted else JobFailedFinal
  }

  function TerminalPatch(record: FinalResult): Patch {
    Patch(None, if record.terminalState == FailedFinal then Some(CodeOr(record.code, FinalResultFailure)) else None)
  }

  /** finalizeDeliveredRecord, first half: the job reaches the state the ledger names. */
  function TerminalizeStep(t: Tables, j: JobId, recovering: bool, now: Time): Effect {
    if j !in t.jobs || j !in t.results then
      GoTo(Idle)
    else if IsTerminal(t.jobs[j].state) then
      GoTo(if t.jobs[j].state == t.results[j].terminalState then Freeing(recovering) else Idle)
    else
      Try(TransitionOp(j, t.results[j].terminalState, TerminalPatch(t.results[j]), Some(t.jobs[j].version), now),
          Freeing(recovering), Idle)
  }

  function ObservationOf(job: Job, status: RecoveryStatus, nextRetryAt: Option<Time>): Observation {
    Observation(status, status != NoRecovery, job.state, job.currentStep, nextRetryAt)
  }

  /** finalizeDeliveredRecord, second half: the IP is released. */
  function FreeStep(t: Tables, j: JobId, recovering: bool, now: Time): Effect {
    if j !in t.jobs || j !in t.results then
      GoTo(Idle)
    else
      Try(ReleaseOp(j, ReleaseReasonFor(t.results[j].terminalState), now),
          if recovering then Observing(ObservationOf(t.jobs[j], FinalResultDelivered, None)) else Idle,
          Idle)
  }

  function RetryAt(now: Time, retryCount: nat): Option<Time> {
    Some(now + RetryDelayMs(if retryCount > 1 then retryCount else 1))
  }

  /** preserveSameIpForRetry, then either the observation or the next step of recovery. */
  ghost function PreserveIp(t: Tables, j: JobId, next: Pc): Effect
    requires j in t.jobs
  {
    if HasLive(t, j) then
      Try(RetryOp(j), next, Idle)
    else
      GoTo(Observing(ObservationOf(t.jobs[j], BlockedSessionLoss, None)))
  }

  /** recoverJob: the case distinction and its first transaction. */
  ghost function RecoverStep(s: System, j: JobId, now: Time): Effect {
    var t := s.tables;
    if j !in t.jobs || IsTerminal(t.jobs[j].state) then
      GoTo(Idle)
    else
      var job := t.jobs[j];
      if j in t.results then
        match t.results[j].status
        case InFlight => Try(MarkInterruptedOp(j), Observing(ObservationOf(job, FinalResultUncertain, None)), Idle)
        case Uncertain => GoTo(Observing(ObservationOf(job, FinalResultUncertain, None)))
        case Delivered => GoTo(Terminalizing(true))
        case DeliveryPending => GoTo(Observing(ObservationOf(job, FinalResultPending, None)))
      else if job.state == WaitingForManualChallenge then
        GoTo(Observing(ObservationOf(job, WaitingManual, None)))
      else if job.currentStep.Some? && job.currentStep.value in s.uploadSteps then
        PreserveIp(t, j, Observing(ObservationOf(job, BlockedUnsafeReplay, None)))
      else
        match job.state
        case RetryPending =>
          PreserveIp(t, j, Observing(ObservationOf(job, RetryScheduled, RetryAt(now, job.retryCount))))
        case Running => PreserveIp(t, j, AfterInterruption(s, job))
        case WaitingForOtp => PreserveIp(t, j, AfterInterruption(s, job))
        case _ => GoTo(Observing(ObservationOf(job, NoRecovery, None)))
  }

  function AfterInterruption(s: System, job: Job): Pc {
    if job.retryCount >= s.maxRetries then
      Observing(ObservationOf(job, RetryExhausted, None))
    else
      RecoveryHeld(job.version)
  }

  function ScheduleStep(t: Tables, j: JobId, version: nat, now: Time): Effect {
    if j !in t.jobs then
      GoTo(Idle)
    else
      Try(TransitionOp(j, RetryPending, Patch(t.jobs[j].currentStep, None), Some(version), now),
          Observing(ObservationOf(t.jobs[j].(state := RetryPending), RetryScheduled,
                                  RetryAt(now, t.jobs[j].retryCount))),
          Idle)
  }

  /** The next step inside ExecutionWorker and RetryingExecutionRunner. */
  ghost function ExecutionTick(s: System, j: JobId, now: Time): Effect {
    match PcOf(s, j)
    case Starting => RunStep(s, j, now)
    case Activating(version) => EnterRunning(s.tables, j, version, now)
    case Resuming => ResumeStep(s, j, now)
    case Failing(error) => FailureStep(s, j, error)
    case Counted(version, code) => Try(RetryOp(j), HeldBack(version, code), Idle)
    case HeldBack(version, code) =>
      Try(TransitionOp(j, RetryPending, Patch(None, Some(code)), Some(version), now), Backoff, Idle)
    case pc => GoTo(pc)
  }

  /** The next step inside FinalResultService. */
  ghost function DeliveryTick(s: System, j: JobId, now: Time): Effect {
    match PcOf(s, j)
    case Delivering => DeliverStep(s, j)
    case Acknowledged(httpStatus) =>
      Try(MarkDeliveredOp(j, httpStatus, now), Terminalizing(false), Undelivered(Ambiguous))
    case Undelivered(certainty) => UndeliveredStep(s, j, certainty)
    case Terminalizing(recovering) => TerminalizeStep(s.tables, j, recovering, now)
    case Freeing(recovering) => FreeStep(s.tables, j, recovering, now)
    case pc => GoTo(pc)
  }

  /** The next step inside RecoveryService, after the first one. */
  function RecoveryTick(s: System, j: JobId, now: Time): Effect {
    match PcOf(s, j)
    case RecoveryHeld(version) => Try(IncrementOp(j, Some(version)), RecoveryCounted(version + 1), Idle)
    case RecoveryCounted(version) => ScheduleStep(s.tables, j, version, now)
    case Observing(observation) => Try(RecordOp(j, s.boot, observation), Idle, Idle)
    case pc => GoTo(pc)
  }

  predicate InDelivery(pc: Pc) {
    pc.Delivering? || pc.Acknowledged? || pc.Undelivered? || pc.Terminalizing? || pc.Freeing?
  }

  predicate InRecovery(pc: Pc) {
    pc.RecoveryHeld? || pc.RecoveryCounted? || pc.Observing?
  }

  /** The next step of the runner of j, for an event it is waiting for; other events change nothing. */
  ghost function StepOf(s: System, j: JobId, event: Event): Effect {
    var pc := PcOf(s, j);
    match event
    case Tick(now) =>
      if InDelivery(pc) then DeliveryTick(s, j, now)
      else if InRecovery(pc) then RecoveryTick(s, j, now)
      else ExecutionTick(s, j, now)
    case WorkflowCompleted => GoTo(if pc.Executing? then Finalizing(SuccessOutcome) else pc)
    case WorkflowFailed(error, step, aborted, now) =>
      if pc.Executing? then WorkflowFailedStep(s.tables, j, error, step, aborted, now) else GoTo(pc)
    case SessionFailed(error) => GoTo(if pc.Executing? then Failing(error) else pc)
    case SleepEnded => GoTo(if pc.Backoff? then Starting else pc)
    case SleepAborted => GoTo(if pc.Backoff? then Idle else pc)
    case PayloadBuilt(code, payload) =>
      if pc.Finalizing? then FinalizeStep(s.tables, j, pc.outcome, code, payload) else GoTo(pc)
    case PayloadRejected => GoTo(if pc.Finalizing? then Idle else pc)
    case SendAccepted(httpStatus) => GoTo(if pc.Sending? then Acknowledged(httpStatus) else pc)
    case SendFailed(certainty) => GoTo(if pc.Sending? then Undelivered(certainty) else pc)
  }

  ghost predicate Commits(t: Tables, op: Op) {
    match op
    case CreateJobOp(application, user, jobId) => CreateOrGetJob(t, application, user, jobId).Commit?
    case TransitionOp(j, to, patch, expected, now) => TransitionJob(t, j, to, patch, expected, now).Commit?
    case IncrementOp(j, expected) => IncrementRetry(t, j, expected).Commit?
    case AcquireOp(j, a) => Acquire(t, j, a).Commit?
    case ActivateOp(j, now) => Activate(t, j, now).Commit?
    case RetryOp(j) => ReserveForRetry(t, j).Commit?
    case ReleaseOp(j, reason, now) => Release(t, j, reason, now).Commit?
    case ReserveOp(maxConcurrent, r) => Reserve(t, maxConcurrent, r).Commit?
    case BindOp(r, j, a) => Bind(t, r, j, a).Commit?
    case GiveBackOp(r) => GiveBack(t, r).Commit?
    case CreateResultOp(j, n) => CreateOrGetResult(t, j, n).Commit?
    case BeginOp(j) => BeginDelivery(t, j).Commit?
    case MarkPendingOp(j, certainty) => MarkPending(t, j, certainty).Commit?
    case MarkUncertainOp(j) => MarkUncertain(t, j).Commit?
    case MarkInterruptedOp(j) => MarkInterrupted(t, j).Commit?
    case RequeueOp(j) => Requeue(t, j).Commit?
    case MarkDeliveredOp(j, httpStatus, now) => MarkDelivered(t, j, httpStatus, now).Commit?
    case RecordOp(j, boot, o) => RecordRestart(t, j, boot, o).Commit?
    case _ => true
  }

  /** The history of sends after a step: a begun delivery opens one, an answer closes the last. */
  function SendsAfter(sends: seq<Send>, before: Pc, after: Pc, event: Event): seq<Send> {
    if before.Delivering? && after.Sending? then
      sends + [Open]
    else if before.Sending? && !after.Sending? && sends != [] then
      sends[|sends| - 1 := if event.SendFailed? then NotAccepted(event.certainty) else Accepted]
    else
      sends
  }

  /** RETRY_PENDING to RUNNING moves. */
  ghost predicate IsRetryStart(s: System, j: JobId, after: Pc) {
    PcOf(s, j).Activating? && after.Executing? && j in s.tables.jobs && s.tables.jobs[j].state == RetryPending
  }

  /** Performs an effect for the runner of j. */
  ghost function Perform(s: System, j: JobId, effect: Effect, event: Event): System {
    var ok := effect.op.None? || Commits(s.tables, effect.op.value);
    var after := if ok then effect.committed else effect.failed;
    s.(tables := if effect.op.Some? then Apply(s.tables, effect.op.value) else s.tables,
       pcs := SetPc(s.pcs, j, after),
       contexts :=
         if PcOf(s, j).Executing? && (event.WorkflowCompleted? || event.WorkflowFailed?) then s.contexts + {j}
         else s.contexts,
       sends := s.sends[j := SendsAfter(SendsOf(s, j), PcOf(s, j), after, event)],
       retryStarts := s.retryStarts[j := StartsOf(s, j) + if IsRetryStart(s, j, after) then 1 else 0])
  }

  // -------------------------------------------------------------------------------------------
  // Intake
  // -------------------------------------------------------------------------------------------

  /** A step of the intake cycle: at most one transaction, and where the cycle goes when it commits
      or fails. */
  datatype IntakeEffect = IntakeEffect(op: Option<Op>, committed: IntakePc, failed: IntakePc)

  ghost function IntakeStepOf(s: System, step: IntakeStep): IntakeEffect {
    var t := s.tables;
    match (s.intake, step)
    case (NoIntake, ReserveStep(maxConcurrent, r)) =>
      var tx := Reserve(t, maxConcurrent, r);
      IntakeEffect(Some(ReserveOp(maxConcurrent, r)),
                   if tx.Commit? && tx.value.Some? then HoldingSlot(r) else NoIntake, NoIntake)
    case (HoldingSlot(r), GiveBackStep) => IntakeEffect(Some(GiveBackOp(r)), NoIntake, NoIntake)
    case (CreatedJobPc(r, j), GiveBackStep) => IntakeEffect(Some(GiveBackOp(r)), NoIntake, NoIntake)
    case (HoldingSlot(r), CreateStep(application, user, jobId)) =>
      var tx := CreateOrGetJob(t, application, user, jobId);
      IntakeEffect(Some(CreateJobOp(application, user, jobId)),
                   if tx.Commit? && tx.value.created then CreatedJobPc(r, jobId) else HoldingSlot(r),
                   HoldingSlot(r))
    case (CreatedJobPc(r, j), BindStep(a)) => IntakeEffect(Some(BindOp(r, j, a)), BoundJobPc(j), CreatedJobPc(r, j))
    case (BoundJobPc(j), ClaimStep(now)) =>
      IntakeEffect(Some(TransitionOp(j, Claimed, NO_PATCH, None, now)), ClaimedJobPc(j), NoIntake)
    case (ClaimedJobPc(j), WaitStep(now)) =>
      IntakeEffect(Some(TransitionOp(j, WaitingForIp, NO_PATCH, None, now)), NoIntake, NoIntake)
    case _ => IntakeEffect(None, s.intake, s.intake)
  }

  ghost function PerformIntake(s: System, effect: IntakeEffect): System {
    if effect.op.None? then
      s
    else
      s.(tables := Apply(s.tables, effect.op.value),
         intake := if Commits(s.tables, effect.op.value) then effect.committed else effect.failed)
  }

  // -------------------------------------------------------------------------------------------
  // Steps and runs of the system
  // -------------------------------------------------------------------------------------------

  /** The results that the restart runner takes up again: those that recovery reports as pending or
      uncertain. */
  predicate IsReportable(t: Tables, j: JobId) {
    j in t.results && t.results[j].status in {DeliveryPending, Uncertain}
  }

  /** Total: an action that is not possible in s changes nothing. ResumeByHand is resumeDelivery called for
      a result that no recovery report names; nothing in the repository calls it like that. */
  ghost function Next(s: System, a: Action): System {
    match a
    case Restart(boot, configured, replaySafe) =>
      s.(boot := boot, configured := configured, replaySafe := replaySafe, phase := Recovering,
         pcs := map[], contexts := {}, intake := NoIntake,
         everReplaySafe := s.everReplaySafe || replaySafe)
    case Recover(j, now) =>
      if s.phase == Recovering && PcOf(s, j) == Idle then Perform(s, j, RecoverStep(s, j, now), Tick(now)) else s
    case Redeliver(j) =>
      if s.phase == Recovering && PcOf(s, j) == Idle && IsReportable(s.tables, j) then
        s.(pcs := SetPc(s.pcs, j, Delivering))
      else s
    case ResumeByHand(j) =>
      if s.phase == Recovering && PcOf(s, j) == Idle && j in s.tables.results then
        s.(pcs := SetPc(s.pcs, j, Delivering))
      else s
    case Serve =>
      if s.phase == Recovering && s.pcs == map[] then s.(phase := Serving) else s
    case Admit(j) =>
      if s.phase == Serving && PcOf(s, j) == Idle && j in s.tables.jobs
         && s.tables.jobs[j].state in {WaitingForIp, RetryPending} then
        s.(pcs := SetPc(s.pcs, j, Starting))
      else s
    case Resume(j) =>
      if s.phase == Serving && PcOf(s, j) == Idle && j in s.tables.jobs
         && s.tables.jobs[j].state == WaitingForManualChallenge && HasLive(s.tables, j) then
        s.(pcs := SetPc(s.pcs, j, Resuming))
      else s
    case Advance(j, event) =>
      if PcOf(s, j) != Idle then Perform(s, j, StepOf(s, j, event), event) else s
    case Intake(step) =>
      if s.phase == Serving then PerformIntake(s, IntakeStepOf(s, step)) else s
    case Pool(op) =>
      if op.SyncOp? || op.ChangeOp? then s.(tables := Apply(s.tables, op)) else s
  }

  ghost function Run(s: System, actions: seq<Action>): System {
    if actions == [] then s else Next(Run(s, actions[..|actions| - 1]), actions[|actions| - 1])
  }

  predicate Asked(x: nat) {
    true
  }

  /** The state is what the log makes of the origin. The equation stands under a quantifier so that only
      proofs that ask for it have to look at it. */
  ghost predicate IsRun(origin: System, log: seq<Action>, s: System) {
    forall x {:trigger Asked(x)} :: Asked(x) ==> s == Run(origin, log)
  }

  lemma RunIsRun(origin: System, log: seq<Action>, s: System)
    ensures IsRun(origin, log, s) <==> s == Run(origin, log)
  {
    assert Asked(0);
  }

  lemma RunGoesOn(origin: System, log: seq<Action>, s: System, a: Action)
    requires IsRun(origin, log, s)
    ensures IsRun(origin, log + [a], Next(s, a))
  {
    RunIsRun(origin, log, s);
    assert (log + [a])[..|log + [a]| - 1] == log;
  }
}
