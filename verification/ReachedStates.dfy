/** Runs from the first boot on, action by action, that reach the states the findings are about: what can
    be lost is really lost. */
module ReachedStates {
  import opened Wrappers
  import opened JobStates
  import opened ProxyStates
  import opened CanonicalJson
  import opened Schema
  import opened ProxyRows
  import opened JobTransactions
  import opened AllocationTransactions
  import opened ReservationTransactions
  import opened PoolTransactions
  import opened LedgerTransactions
  import opened RecoveryTransactions
  import opened RetryPolicy
  import opened Transactions
  import opened SystemModel
  import opened SystemInvariant
  import opened SystemSteps
  import opened SystemTheorems
  import opened CrashResidues

  lemma Then(origin: System, log: seq<Action>, a: Action)
    ensures Run(origin, log + [a]) == Next(Run(origin, log), a)
  {
    assert (log + [a])[..|log + [a]| - 1] == log;
  }

  // -------------------------------------------------------------------------------------------
  // One proxy, one reservation
  // -------------------------------------------------------------------------------------------

  const ENDPOINT := Endpoint(1, 1)
  const HEALTHY := Proxy(ENDPOINT, Http, true, Available, true, 1, 0)

  const BOOT := Restart(1, true, false)
  const SYNC := Pool(SyncOp([Definition(0, ENDPOINT, Http, true)]))
  const HEALTH := Pool(ChangeOp(0, HealthSucceeded))
  const RESERVE := Intake(ReserveStep(1, 0))

  const POOL_TABLES := EMPTY_TABLES.(proxies := map[0 := HEALTHY])

  function Booted(maxRetries: nat, uploadSteps: set<StepId>): System {
    Initial(maxRetries, uploadSteps).(boot := 1, configured := true, phase := Serving)
  }

  lemma BootedIsReached(maxRetries: nat, uploadSteps: set<StepId>)
    ensures Run(Initial(maxRetries, uploadSteps), [BOOT] + [Serve]) == Booted(maxRetries, uploadSteps)
  {
    var origin := Initial(maxRetries, uploadSteps);
    Then(origin, [], BOOT);
    Then(origin, [BOOT], Serve);
    assert [] + [BOOT] == [BOOT];
    assert Run(origin, []) == origin;
  }

  lemma PoolIsReached(s: System)
    requires s.tables == EMPTY_TABLES
    ensures Next(Next(s, SYNC), HEALTH) == s.(tables := POOL_TABLES)
  {
    var definition := Definition(0, ENDPOINT, Http, true);
    var inserted: map<ProxyId, Proxy> := map[0 := Inserted(definition)];
    assert ApplyDefinitions(map[], []) == Some(map[]);
    assert ApplyDefinitions(map[], [definition]) == Some(inserted);
    assert DisableMissing(inserted, ConfiguredIds([definition])) == inserted;
  }

  const RESERVED_TABLES :=
    POOL_TABLES.(proxies := map[0 := HEALTHY.(status := Reserved)],
                 reservations := map[0 := Reservation(0, ENDPOINT, Held, None)])

  lemma ReservedIsReached(s: System)
    requires s.tables == POOL_TABLES && s.phase == Serving && s.intake == NoIntake
    ensures Next(s, RESERVE) == s.(tables := RESERVED_TABLES, intake := HoldingSlot(0))
  {
    var t := POOL_TABLES;
    assert LiveAllocations(t) == {} && HeldReservations(t) == {};
    assert Selectable(t.proxies[0]);
    assert BestAvailable(t.proxies) == Some(0);
  }

  const TO_RESERVED: seq<Action> := [BOOT] + [Serve] + [SYNC] + [HEALTH] + [RESERVE]

  function Holding(maxRetries: nat, uploadSteps: set<StepId>): System {
    Booted(maxRetries, uploadSteps).(tables := RESERVED_TABLES, intake := HoldingSlot(0))
  }

  lemma HoldingIsReached(maxRetries: nat, uploadSteps: set<StepId>)
    ensures Run(Initial(maxRetries, uploadSteps), TO_RESERVED) == Holding(maxRetries, uploadSteps)
  {
    var origin, s := Initial(maxRetries, uploadSteps), Booted(maxRetries, uploadSteps);
    BootedIsReached(maxRetries, uploadSteps);
    Then(origin, [BOOT] + [Serve], SYNC);
    Then(origin, [BOOT] + [Serve] + [SYNC], HEALTH);
    Then(origin, [BOOT] + [Serve] + [SYNC] + [HEALTH], RESERVE);
    PoolIsReached(s);
    ReservedIsReached(s.(tables := POOL_TABLES));
  }

  /** Serving, a sync that inserts a proxy, a health check, a reservation, a crash: the reservation belongs to
      nobody, and whatever follows it stays held. */
  lemma AReservationIsOrphaned(
    maxRetries: nat, uploadSteps: set<StepId>, more: seq<Action>, later: System, boot: BootId, configured: bool,
    replaySafe: bool)
    requires IsRun(Initial(maxRetries, uploadSteps), TO_RESERVED + [Restart(boot, configured, replaySafe)] + more, later)
    ensures IsOrphan(later, 0)
  {
    var origin, crash := Initial(maxRetries, uploadSteps), Restart(boot, configured, replaySafe);
    HoldingIsReached(maxRetries, uploadSteps);
    Then(origin, TO_RESERVED, crash);
    RunsCompose(origin, TO_RESERVED + [crash], more);
    RunIsRun(origin, TO_RESERVED + [crash] + more, later);
    OrphanStays(Next(Holding(maxRetries, uploadSteps), crash), more, 0);
  }

  // -------------------------------------------------------------------------------------------
  // One job, up to its running workflow
  // -------------------------------------------------------------------------------------------

  const CREATED := NewJob(0, None)

  const CREATED_TABLES :=
    RESERVED_TABLES.(jobs := map[0 := CREATED], claims := map[0 := Claim(0, true, None)])

  lemma CreatedIsReached(s: System)
    requires s.tables == RESERVED_TABLES && s.phase == Serving && s.intake == HoldingSlot(0)
    ensures Next(s, Intake(CreateStep(0, None, 0))) == s.(tables := CREATED_TABLES, intake := CreatedJobPc(0, 0))
  {
    assert JobOf(s.tables, 0).None?;
  }

  const BOUND_TABLES :=
    CREATED_TABLES.(allocations := map[0 := NewAllocation(0, 0, ENDPOINT)],
                    reservations := map[0 := Reservation(0, ENDPOINT, Consumed, Some(0))])

  lemma BoundIsReached(s: System)
    requires s.tables == CREATED_TABLES && s.phase == Serving && s.intake == CreatedJobPc(0, 0)
    ensures Next(s, Intake(BindStep(0))) == s.(tables := BOUND_TABLES, intake := BoundJobPc(0))
  {
    assert LiveOf(s.tables, 0).None?;
    assert CanInsert(s.tables, 0, 0, 0);
  }

  const WAITING := Moved(Moved(CREATED, Claimed, NO_PATCH, 0), WaitingForIp, NO_PATCH, 0)

  lemma WaitingIsReached(s: System)
    requires s.tables == BOUND_TABLES && s.phase == Serving && s.intake == BoundJobPc(0)
    ensures Next(Next(s, Intake(ClaimStep(0))), Intake(WaitStep(0))) ==
            s.(tables := BOUND_TABLES.(jobs := map[0 := WAITING]), intake := NoIntake)
  {
    var claimed := map[0 := Moved(CREATED, Claimed, NO_PATCH, 0)];
    assert BOUND_TABLES.jobs[0 := claimed[0]] == claimed;
    assert claimed[0 := WAITING] == map[0 := WAITING];
  }

  const TO_CREATED: seq<Action> := TO_RESERVED + [Intake(CreateStep(0, None, 0))]
  const TO_BOUND: seq<Action> := TO_CREATED + [Intake(BindStep(0))]
  const TO_WAITING: seq<Action> := TO_BOUND + [Intake(ClaimStep(0))] + [Intake(WaitStep(0))]

  lemma WaitingRun(maxRetries: nat, uploadSteps: set<StepId>)
    ensures Run(Initial(maxRetries, uploadSteps), TO_WAITING) ==
            Booted(maxRetries, uploadSteps).(tables := BOUND_TABLES.(jobs := map[0 := WAITING]))
  {
    var origin, s := Initial(maxRetries, uploadSteps), Holding(maxRetries, uploadSteps);
    HoldingIsReached(maxRetries, uploadSteps);
    Then(origin, TO_RESERVED, Intake(CreateStep(0, None, 0)));
    CreatedIsReached(s);
    Then(origin, TO_CREATED, Intake(BindStep(0)));
    BoundIsReached(s.(tables := CREATED_TABLES, intake := CreatedJobPc(0, 0)));
    Then(origin, TO_BOUND, Intake(ClaimStep(0)));
    Then(origin, TO_BOUND + [Intake(ClaimStep(0))], Intake(WaitStep(0)));
    WaitingIsReached(s.(tables := BOUND_TABLES, intake := BoundJobPc(0)));
  }

  // -------------------------------------------------------------------------------------------
  // Steps of its runner
  // -------------------------------------------------------------------------------------------

  const TICK := Advance(0, Tick(0))

  /** What one boot fixes. */
  predicate IsBoot(s: System, phase: Phase, replaySafe: bool) {
    s.phase == phase && s.configured && s.replaySafe == replaySafe
  }

  lemma BootGoesOn(s: System, event: Event)
    ensures Next(s, Advance(0, event)).phase == s.phase
    ensures Next(s, Advance(0, event)).configured == s.configured
    ensures Next(s, Advance(0, event)).replaySafe == s.replaySafe
  {
  }

  lemma RecoveringGoesOn(s: System)
    ensures Next(s, Recover(0, 0)).phase == s.phase
    ensures Next(s, Recover(0, 0)).configured == s.configured
    ensures Next(s, Recover(0, 0)).replaySafe == s.replaySafe
  {
  }

  lemma Stepped(s: System, event: Event, effect: Effect)
    requires PcOf(s, 0) != Idle && StepOf(s, 0, event) == effect
    ensures Next(s, Advance(0, event)) == Perform(s, 0, effect, event)
  {
  }

  /** An unfinished job that got past its intake has its IP. */
  lemma WaitingJobHasItsIp(s: System, j: JobId)
    requires SystemOk(s) && j in s.tables.jobs
    requires s.tables.jobs[j].state != Pending && !IsTerminal(s.tables.jobs[j].state)
    ensures HasLive(s.tables, j) && IsLiveRow(ViewOf(s, j).row)
  {
    ReadyJob(s, j);
    LiveRow(s.tables, j);
  }

  const TO_STARTED: seq<Action> := TO_WAITING + [Admit(0)]
  const TO_EXECUTING: seq<Action> := TO_STARTED + [TICK] + [TICK]

  lemma StartedRun(maxRetries: nat, uploadSteps: set<StepId>)
    ensures var s := Run(Initial(maxRetries, uploadSteps), TO_STARTED);
            SystemOk(s) && PcOf(s, 0).Starting? && IsBoot(s, Serving, false)
  {
    WaitingRun(maxRetries, uploadSteps);
    Then(Initial(maxRetries, uploadSteps), TO_WAITING, Admit(0));
    RunsAreOk(maxRetries, uploadSteps, TO_STARTED);
  }

  lemma StartingExecutes(s: System)
    requires SystemOk(s) && PcOf(s, 0).Starting? && IsBoot(s, Serving, false)
    ensures var s' := Next(Next(s, TICK), TICK);
            SystemOk(s') && PcOf(s', 0).Executing? && IsBoot(s', Serving, false)
  {
    ReadyJob(s, 0);
    StartingActivates(s, 0, 0);
    NextOk(s, TICK);
    BootGoesOn(s, Tick(0));
    var s1 := Next(s, TICK);
    ReadyJob(s1, 0);
    ActivatingRuns(s1, 0, PcOf(s1, 0).version, 0);
    NextOk(s1, TICK);
    BootGoesOn(s1, Tick(0));
  }

  lemma ExecutingRun(maxRetries: nat, uploadSteps: set<StepId>)
    ensures var s := Run(Initial(maxRetries, uploadSteps), TO_EXECUTING);
            SystemOk(s) && PcOf(s, 0).Executing? && IsBoot(s, Serving, false)
  {
    var origin := Initial(maxRetries, uploadSteps);
    StartedRun(maxRetries, uploadSteps);
    Then(origin, TO_STARTED, TICK);
    Then(origin, TO_STARTED + [TICK], TICK);
    StartingExecutes(Run(origin, TO_STARTED));
  }

  // -------------------------------------------------------------------------------------------
  // A manual challenge whose context is lost
  // -------------------------------------------------------------------------------------------

  const CHALLENGE := ExecutionError(Some(ManualChallengeRequired), false, true)
  const CHALLENGED := Advance(0, WorkflowFailed(CHALLENGE, None, false, 0))
  const SECOND_BOOT := Restart(2, true, false)

  lemma ChallengingWaits(s: System)
    requires SystemOk(s) && PcOf(s, 0).Executing?
    ensures StateIs(Next(s, CHALLENGED).tables, 0, WaitingForManualChallenge)
    ensures PcOf(Next(s, CHALLENGED), 0) == Failing(CHALLENGE)
  {
    ReadyJob(s, 0);
    var version, patch := s.tables.jobs[0].version, Patch(None, Some(ManualChallengeRequired));
    var event := WorkflowFailed(CHALLENGE, None, false, 0);
    Stepped(s, event, Try(TransitionOp(0, WaitingForManualChallenge, patch, Some(version), 0), Failing(CHALLENGE), Idle));
    TransitionView(s, 0, WaitingForManualChallenge, patch, version, 0, Failing(CHALLENGE), Idle, event);
  }

  lemma ChallengeIsLeftToTheOperator(s: System)
    requires SystemOk(s) && StateIs(s.tables, 0, WaitingForManualChallenge) && PcOf(s, 0) == Failing(CHALLENGE)
    ensures PcOf(Next(s, TICK), 0).Idle? && Next(s, TICK).tables == s.tables
  {
    assert StepOf(s, 0, Tick(0)) == GoTo(Idle);
  }

  lemma RestartingForgets(s: System)
    ensures var s' := Next(s, SECOND_BOOT);
            s'.tables == s.tables && s'.contexts == {} && s'.pcs == map[] && s'.phase == Recovering
  {
  }

  lemma ServingGoesOn(s: System)
    requires s.pcs == map[] && s.phase == Recovering
    ensures var s' := Next(s, Serve);
            s'.tables == s.tables && s'.contexts == s.contexts && s'.pcs == map[] && s'.phase == Serving
  {
  }

  lemma WaitingIsResumed(s: System)
    requires s.pcs == map[] && s.phase == Serving && StateIs(s.tables, 0, WaitingForManualChallenge)
    requires HasLive(s.tables, 0)
    ensures PcOf(Next(s, Resume(0)), 0).Resuming? && Next(s, Resume(0)).contexts == s.contexts
  {
  }

  lemma ResumingAfterARestart(s: System)
    requires SystemOk(s) && StateIs(s.tables, 0, WaitingForManualChallenge)
    ensures var s' := Next(Next(Next(s, SECOND_BOOT), Serve), Resume(0));
            PcOf(s', 0).Resuming? && 0 !in s'.contexts
  {
    WaitingJobHasItsIp(s, 0);
    RestartingForgets(s);
    ServingGoesOn(Next(s, SECOND_BOOT));
    WaitingIsResumed(Next(Next(s, SECOND_BOOT), Serve));
  }

  const TO_LOST_CHALLENGE: seq<Action> := TO_EXECUTING + [CHALLENGED] + [TICK] + [SECOND_BOOT] + [Serve] + [Resume(0)]

  lemma LostChallengeRun(maxRetries: nat, uploadSteps: set<StepId>)
    ensures var s := Run(Initial(maxRetries, uploadSteps), TO_LOST_CHALLENGE);
            PcOf(s, 0).Resuming? && 0 !in s.contexts
  {
    var origin := Initial(maxRetries, uploadSteps);
    var log := TO_EXECUTING;
    ExecutingRun(maxRetries, uploadSteps);
    Then(origin, log, CHALLENGED);
    ChallengingWaits(Run(origin, log));
    RunsAreOk(maxRetries, uploadSteps, log + [CHALLENGED]);
    Then(origin, log + [CHALLENGED], TICK);
    ChallengeIsLeftToTheOperator(Run(origin, log + [CHALLENGED]));
    Then(origin, log + [CHALLENGED] + [TICK], SECOND_BOOT);
    Then(origin, log + [CHALLENGED] + [TICK] + [SECOND_BOOT], Serve);
    Then(origin, log + [CHALLENGED] + [TICK] + [SECOND_BOOT] + [Serve], Resume(0));
    RunsAreOk(maxRetries, uploadSteps, log + [CHALLENGED] + [TICK]);
    ResumingAfterARestart(Run(origin, log + [CHALLENGED] + [TICK]));
  }

  /** A challenge, a restart, a resume: the job, which the operator has just solved a challenge for, is on
      its way to a FAILURE result. */
  lemma AChallengeIsLost(maxRetries: nat, uploadSteps: set<StepId>, s: System, later: System)
    requires IsRun(Initial(maxRetries, uploadSteps), TO_LOST_CHALLENGE, s)
    requires IsRun(s, [TICK, TICK], later)
    ensures PcOf(s, 0).Resuming? && 0 !in s.contexts
    ensures PcOf(later, 0) == Finalizing(FailureOutcome)
  {
    RunIsRun(Initial(maxRetries, uploadSteps), TO_LOST_CHALLENGE, s);
    LostChallengeRun(maxRetries, uploadSteps);
    ReachedIsOk(maxRetries, uploadSteps, TO_LOST_CHALLENGE, s);
    LostChallengeIsFailed(s, 0, 0);
    TwoActions(s, TICK, TICK);
    RunIsRun(s, [TICK, TICK], later);
  }

  // -------------------------------------------------------------------------------------------
  // A send cut off by a crash
  // -------------------------------------------------------------------------------------------

  const BUILT := Advance(0, PayloadBuilt(None, Null))
  const TO_DELIVERING: seq<Action> := TO_EXECUTING + [Advance(0, WorkflowCompleted)] + [BUILT]
  const TO_SENDING: seq<Action> := TO_DELIVERING + [TICK]

  lemma CompletedIsFinalized(s: System)
    requires SystemOk(s) && PcOf(s, 0).Executing?
    ensures PcOf(Next(s, Advance(0, WorkflowCompleted)), 0) == Finalizing(SuccessOutcome)
    ensures SendsOf(Next(s, Advance(0, WorkflowCompleted)), 0) == SendsOf(s, 0)
    ensures Next(s, Advance(0, WorkflowCompleted)).tables == s.tables
  {
  }

  lemma FinalizedIsRecorded(s: System)
    requires SystemOk(s) && PcOf(s, 0) == Finalizing(SuccessOutcome) && 0 !in s.tables.results
    ensures PcOf(Next(s, BUILT), 0).Delivering? && HasStatus(Next(s, BUILT).tables, 0, DeliveryPending)
    ensures Next(s, BUILT).tables.results[0].certainty.None?
    ensures ViewOf(Next(s, BUILT), 0).job == ViewOf(s, 0).job
    ensures SendsOf(Next(s, BUILT), 0) == SendsOf(s, 0)
  {
    ReadyJob(s, 0);
    var n := Normalized(s.tables.jobs[0].applicationId, SuccessOutcome, None, Null);
    RunningIsRecorded(s, n);
    Stepped(s, PayloadBuilt(None, Null), Try(CreateResultOp(0, n), Delivering, Idle));
    RecordView(s, 0, CreateResultOp(0, n), NewRecord(n), Delivering, Idle, PayloadBuilt(None, Null));
  }

  lemma RunningIsRecorded(s: System, n: NormalizedResult)
    requires PcOf(s, 0) == Finalizing(SuccessOutcome) && 0 !in s.tables.results
    requires 0 in s.tables.jobs && !IsTerminal(s.tables.jobs[0].state)
    requires n == Normalized(s.tables.jobs[0].applicationId, SuccessOutcome, None, Null)
    ensures StepOf(s, 0, PayloadBuilt(None, Null)) == Try(CreateResultOp(0, n), Delivering, Idle)
    ensures CreateOrGetResult(s.tables, 0, n) ==
            Commit(s.tables.(results := s.tables.results[0 := NewRecord(n)]), CreatedResult(true, NewRecord(n)))
  {
  }

  lemma RecordedIsSent(s: System)
    requires SystemOk(s) && PcOf(s, 0).Delivering? && s.configured && HasStatus(s.tables, 0, DeliveryPending)
    requires s.tables.results[0].certainty.None? && HasLive(s.tables, 0)
    ensures PcOf(Next(s, TICK), 0).Sending? && SendsOf(Next(s, TICK), 0) == SendsOf(s, 0) + [Open]
    ensures Next(s, TICK).tables.jobs == s.tables.jobs
  {
    assert StepOf(s, 0, Tick(0)) == Try(BeginOp(0), Sending, Idle);
  }

  lemma SendingRun(maxRetries: nat, uploadSteps: set<StepId>)
    ensures var s := Run(Initial(maxRetries, uploadSteps), TO_SENDING);
            && SystemOk(s) && PcOf(s, 0).Sending? && IsBoot(s, Serving, false) && StateIs(s.tables, 0, Running)
            && SendsOf(s, 0) == [Open]
  {
    var origin := Initial(maxRetries, uploadSteps);
    ExecutingRun(maxRetries, uploadSteps);
    var s0 := Run(origin, TO_EXECUTING);
    ReadyJob(s0, 0);
    Then(origin, TO_EXECUTING, Advance(0, WorkflowCompleted));
    CompletedIsFinalized(s0);
    BootGoesOn(s0, WorkflowCompleted);
    NextOk(s0, Advance(0, WorkflowCompleted));
    var s1 := Run(origin, TO_EXECUTING + [Advance(0, WorkflowCompleted)]);
    Then(origin, TO_EXECUTING + [Advance(0, WorkflowCompleted)], BUILT);
    FinalizedIsRecorded(s1);
    BootGoesOn(s1, PayloadBuilt(None, Null));
    NextOk(s1, BUILT);
    var s2 := Run(origin, TO_DELIVERING);
    Then(origin, TO_DELIVERING, TICK);
    WaitingJobHasItsIp(s2, 0);
    RecordedIsSent(s2);
    BootGoesOn(s2, Tick(0));
    NextOk(s2, TICK);
  }

  function SecondBoot(replaySafe: bool): Action {
    Restart(2, true, replaySafe)
  }

  function ToUncertain(replaySafe: bool): seq<Action> {
    TO_SENDING + [SecondBoot(replaySafe)] + [Recover(0, 0)] + [TICK]
  }

  lemma CutOffIsInFlight(s: System, replaySafe: bool)
    requires SystemOk(s) && PcOf(s, 0).Sending? && StateIs(s.tables, 0, Running)
    ensures var s' := Next(s, SecondBoot(replaySafe));
            && PcOf(s', 0).Idle? && IsBoot(s', Recovering, replaySafe)
            && StateIs(s'.tables, 0, Running) && HasStatus(s'.tables, 0, InFlight)
            && SendsOf(s', 0) == SendsOf(s, 0)
  {
    ReadyJob(s, 0);
  }

  lemma InFlightBecomesUncertain(s: System, replaySafe: bool)
    requires PcOf(s, 0).Idle? && IsBoot(s, Recovering, replaySafe)
    requires StateIs(s.tables, 0, Running) && HasStatus(s.tables, 0, InFlight)
    ensures var s' := Next(s, Recover(0, 0));
            && PcOf(s', 0).Observing? && IsBoot(s', Recovering, replaySafe)
            && StateIs(s'.tables, 0, Running) && HasStatus(s'.tables, 0, Uncertain)
            && SendsOf(s', 0) == SendsOf(s, 0)
  {
    RecoveringGoesOn(s);
    var observing := Observing(ObservationOf(s.tables.jobs[0], FinalResultUncertain, None));
    assert RecoverStep(s, 0, 0) == Try(MarkInterruptedOp(0), observing, Idle);
  }

  lemma ObservedIsIdle(s: System, replaySafe: bool)
    requires PcOf(s, 0).Observing? && IsBoot(s, Recovering, replaySafe)
    requires StateIs(s.tables, 0, Running) && HasStatus(s.tables, 0, Uncertain)
    ensures var s' := Next(s, TICK);
            && PcOf(s', 0).Idle? && IsBoot(s', Recovering, replaySafe)
            && StateIs(s'.tables, 0, Running) && HasStatus(s'.tables, 0, Uncertain)
            && SendsOf(s', 0) == SendsOf(s, 0)
  {
    BootGoesOn(s, Tick(0));
    assert StepOf(s, 0, Tick(0)) == Try(RecordOp(0, s.boot, PcOf(s, 0).observation), Idle, Idle);
  }

  lemma UncertainRun(maxRetries: nat, uploadSteps: set<StepId>, replaySafe: bool)
    ensures var s := Run(Initial(maxRetries, uploadSteps), ToUncertain(replaySafe));
            && PcOf(s, 0).Idle? && IsBoot(s, Recovering, replaySafe)
            && StateIs(s.tables, 0, Running) && HasStatus(s.tables, 0, Uncertain)
            && SendsOf(s, 0) == [Open]
  {
    var origin, log, crash := Initial(maxRetries, uploadSteps), TO_SENDING, SecondBoot(replaySafe);
    SendingRun(maxRetries, uploadSteps);
    Then(origin, log, crash);
    CutOffIsInFlight(Run(origin, log), replaySafe);
    Then(origin, log + [crash], Recover(0, 0));
    InFlightBecomesUncertain(Run(origin, log + [crash]), replaySafe);
    Then(origin, log + [crash] + [Recover(0, 0)], TICK);
    ObservedIsIdle(Run(origin, log + [crash] + [Recover(0, 0)]), replaySafe);
  }

  /** A crash during a send, and the recovery of the job: its result is uncertain, and taking the delivery up
      again sends it once more exactly when the new boot declares idempotent replay; both sends may then have
      had an effect. */
  lemma ASendIsCutOff(
    maxRetries: nat, uploadSteps: set<StepId>, replaySafe: bool, s: System, later: System)
    requires IsRun(Initial(maxRetries, uploadSteps), ToUncertain(replaySafe), s)
    requires later == Ticked(Ticked(Next(s, Redeliver(0)), 0, 0), 0, 0)
    ensures HasStatus(s.tables, 0, Uncertain) && HasLive(s.tables, 0)
    ensures SendsOf(s, 0) == [Open]
    ensures SendsOf(later, 0) == if replaySafe then [Open, Open] else [Open]
  {
    RunIsRun(Initial(maxRetries, uploadSteps), ToUncertain(replaySafe), s);
    UncertainRun(maxRetries, uploadSteps, replaySafe);
    ReachedIsOk(maxRetries, uploadSteps, ToUncertain(replaySafe), s);
    WaitingJobHasItsIp(s, 0);
    UncertainIsResentOnlyWithReplay(s, 0, 0);
  }

  // -------------------------------------------------------------------------------------------
  // An IP that stays with a terminal job
  // -------------------------------------------------------------------------------------------

  const ANSWERED := Advance(0, SendAccepted(Some(200)))
  const TO_DELIVERED: seq<Action> := TO_SENDING + [ANSWERED] + [TICK]
  const TO_RELEASE: seq<Action> := TO_DELIVERED + [TICK]

  lemma AnswerIsAcknowledged(s: System)
    requires PcOf(s, 0).Sending?
    ensures PcOf(Next(s, ANSWERED), 0) == Acknowledged(Some(200)) && Next(s, ANSWERED).tables == s.tables
  {
    assert StepOf(s, 0, SendAccepted(Some(200))) == GoTo(Acknowledged(Some(200)));
  }

  lemma InFlightIsMarked(t: Tables)
    requires HasStatus(t, 0, InFlight)
    ensures var tx := MarkDelivered(t, 0, Some(200), 0);
            tx.Commit? && tx.tables == t.(results := t.results[0 := tx.value])
  {
  }

  lemma AcknowledgedIsDelivered(s: System)
    requires SystemOk(s) && PcOf(s, 0) == Acknowledged(Some(200)) && StateIs(s.tables, 0, Running)
    ensures PcOf(Next(s, TICK), 0) == Terminalizing(false) && StateIs(Next(s, TICK).tables, 0, Running)
  {
    ReadyJob(s, 0);
    var op := MarkDeliveredOp(0, Some(200), 0);
    InFlightIsMarked(s.tables);
    Stepped(s, Tick(0), Try(op, Terminalizing(false), Undelivered(Ambiguous)));
    RecordView(s, 0, op, MarkDelivered(s.tables, 0, Some(200), 0).value, Terminalizing(false), Undelivered(Ambiguous),
               Tick(0));
  }

  lemma DeliveredIsReleasing(s: System)
    requires SystemOk(s) && PcOf(s, 0) == Terminalizing(false) && StateIs(s.tables, 0, Running)
    ensures IsReleasing(ViewOf(Next(s, TICK), 0))
  {
    ReadyJob(s, 0);
    WaitingJobHasItsIp(s, 0);
    DeliveredIsTerminalized(s, 0, false, 0);
  }

  lemma ReleaseRun(maxRetries: nat, uploadSteps: set<StepId>)
    ensures IsReleasing(ViewOf(Run(Initial(maxRetries, uploadSteps), TO_RELEASE), 0))
  {
    var origin, log := Initial(maxRetries, uploadSteps), TO_SENDING;
    SendingRun(maxRetries, uploadSteps);
    Then(origin, log, ANSWERED);
    AnswerIsAcknowledged(Run(origin, log));
    RunsAreOk(maxRetries, uploadSteps, log + [ANSWERED]);
    Then(origin, log + [ANSWERED], TICK);
    AcknowledgedIsDelivered(Run(origin, log + [ANSWERED]));
    RunsAreOk(maxRetries, uploadSteps, TO_DELIVERED);
    Then(origin, TO_DELIVERED, TICK);
    DeliveredIsReleasing(Run(origin, TO_DELIVERED));
  }

  lemma ReleaseIsOnlyReported()
    ensures OnlyReported(TO_RELEASE + [SECOND_BOOT])
  {
  }

  /** A delivered result, a terminal job, a crash: whatever follows, restarts and recoveries included, the job
      keeps its IP. */
  lemma AnIpIsStranded(maxRetries: nat, uploadSteps: set<StepId>, more: seq<Action>, later: System)
    requires IsRun(Initial(maxRetries, uploadSteps), TO_RELEASE + [SECOND_BOOT] + more, later) && OnlyReported(more)
    ensures KeepsIp(later, 0) && PcOf(later, 0).Idle?
  {
    var log := TO_RELEASE + [SECOND_BOOT];
    ReleaseRun(maxRetries, uploadSteps);
    ReleaseIsOnlyReported();
    assert log[..|TO_RELEASE|] == TO_RELEASE;
    StrandedIpsStay(maxRetries, uploadSteps, log, more, later, |TO_RELEASE|, 0);
  }
}
