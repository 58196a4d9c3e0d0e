/** What a crash leaves behind for good, and that nothing else does: a reservation whose intake cycle
    died, and the IP of a job that died between its terminal transition and the release. Both are stated
    exactly, over every run. */
module CrashResidues {
  import opened Wrappers
  import opened JobStates
  import opened ProxyStates
  import opened Schema
  import opened JobTransactions
  import opened ReservationTransactions
  import opened LedgerTransactions
  import opened Transactions
  import opened Ownership
  import opened SystemModel
  import opened SystemInvariant
  import opened SystemSteps
  import opened SystemTheorems

  // -------------------------------------------------------------------------------------------
  // Reservations
  // -------------------------------------------------------------------------------------------

  /** A held reservation that belongs to the intake cycle in progress. */
  ghost predicate InUse(s: System, r: ReservationId) {
    IsHeldReservation(s.tables, r) && IntakeHolds(s.intake, r)
  }

  /** A held reservation that belongs to nobody. */
  ghost predicate IsOrphan(s: System, r: ReservationId) {
    IsHeldReservation(s.tables, r) && !IntakeHolds(s.intake, r)
  }

  lemma OnlyReservingHolds(t: Tables, op: Op, r: ReservationId)
    requires !IsHeldReservation(t, r) && IsHeldReservation(Apply(t, op), r)
    ensures op.ReserveOp? && op.r == r && r !in t.reservations
    ensures var tx := Reserve(t, op.maxConcurrent, r); tx.Commit? && tx.value.Some?
  {
    if LeavesPoolAlone(op) {
      PoolIsLeftAlone(t, op);
    }
  }

  /** Giving back a held reservation always goes through. */
  lemma GivenBackIsNotHeld(t: Tables, r: ReservationId)
    requires Consistent(t)
    ensures !IsHeldReservation(GiveBack(t, r).After(t), r)
  {
    if IsHeldReservation(t, r) {
      assert ReservationMirrored(t, t.reservations[r]);
    }
  }

  lemma BoundIsNotHeld(t: Tables, r: ReservationId, j: JobId, a: AllocationId)
    ensures Bind(t, r, j, a).Commit? ==> !IsHeldReservation(Bind(t, r, j, a).tables, r)
  {
  }

  lemma CreatingHoldsOn(s: System, step: IntakeStep, r: ReservationId)
    requires step.CreateStep? && IntakeHolds(s.intake, r)
    ensures IntakeHolds(PerformIntake(s, IntakeStepOf(s, step)).intake, r)
  {
  }

  /** Apart from a crash, the cycle lets go of a reservation only by giving it back or by binding it. */
  lemma IntakeHoldsOn(s: System, step: IntakeStep, r: ReservationId)
    requires Consistent(s.tables) && InUse(s, r)
    ensures !IsOrphan(PerformIntake(s, IntakeStepOf(s, step)), r)
  {
    match step
    case GiveBackStep => GivenBackIsNotHeld(s.tables, r);
    case CreateStep(_, _, _) => CreatingHoldsOn(s, step, r);
    case BindStep(a) =>
      if s.intake.CreatedJobPc? {
        BoundIsNotHeld(s.tables, r, s.intake.j, a);
      }
    case _ =>
  }

  lemma ReservingHolds(s: System, maxConcurrent: nat, r: ReservationId)
    requires s.intake == NoIntake && !IsHeldReservation(s.tables, r)
    ensures !IsOrphan(PerformIntake(s, IntakeStepOf(s, ReserveStep(maxConcurrent, r))), r)
  {
  }

  lemma IntakeLosesNothing(s: System, step: IntakeStep, r: ReservationId)
    requires Consistent(s.tables) && !IsOrphan(s, r)
    ensures !IsOrphan(PerformIntake(s, IntakeStepOf(s, step)), r)
  {
    if InUse(s, r) {
      IntakeHoldsOn(s, step, r);
    } else if IsHeldReservation(PerformIntake(s, IntakeStepOf(s, step)).tables, r) {
      OnlyReservingHolds(s.tables, IntakeStepOf(s, step).op.value, r);
      ReservingHolds(s, step.maxConcurrent, r);
    }
  }

  lemma OthersLoseNothing(s: System, a: Action, r: ReservationId)
    requires !IsOrphan(s, r) && !a.Intake? && !a.Restart?
    ensures !IsOrphan(Next(s, a), r)
  {
    assert Next(s, a).intake == s.intake;
    EveryStepIsOneTransaction(s, a);
    if IsHeldReservation(Next(s, a).tables, r) && !IsHeldReservation(s.tables, r) {
      OnlyReservingHolds(s.tables, TxOf(s, a).value, r);
      ReservedWithin(s, a);
    }
  }

  /** A step orphans a reservation exactly when it is a crash while the cycle holds it; and no step ever
      takes an orphan in. */
  lemma StepOrphans(s: System, a: Action, r: ReservationId)
    requires Consistent(s.tables)
    ensures IsOrphan(Next(s, a), r) <==> IsOrphan(s, r) || (a.Restart? && InUse(s, r))
  {
    if IsOrphan(s, r) {
      StepKeepsOrphan(s, a, r);
    } else if a.Intake? {
      IntakeLosesNothing(s, a.step, r);
    } else if !a.Restart? {
      OthersLoseNothing(s, a, r);
    }
  }

  /** The crash with index i comes while the cycle holds the reservation. */
  ghost predicate CrashesInUse(origin: System, actions: seq<Action>, i: nat, r: ReservationId) {
    i < |actions| && actions[i].Restart? && InUse(Run(origin, actions[..i]), r)
  }

  lemma OneMoreCrashInUse(origin: System, actions: seq<Action>, r: ReservationId)
    requires actions != []
    ensures var init := actions[..|actions| - 1];
            (exists i :: CrashesInUse(origin, actions, i, r)) <==>
              || (exists i :: CrashesInUse(origin, init, i, r))
              || (actions[|actions| - 1].Restart? && InUse(Run(origin, init), r))
  {
    var init := actions[..|actions| - 1];
    assert forall i :: 0 <= i <= |init| ==> init[..i] == actions[..i];
    if i: nat :| CrashesInUse(origin, init, i, r) {
      assert CrashesInUse(origin, actions, i, r);
    }
    if actions[|init|].Restart? && InUse(Run(origin, init), r) {
      assert CrashesInUse(origin, actions, |init|, r);
    }
    if i: nat :| CrashesInUse(origin, actions, i, r) {
      assert i < |init| ==> CrashesInUse(origin, init, i, r);
    }
  }

  lemma {:induction false} OrphaningRuns(
    maxRetries: nat, uploadSteps: set<StepId>, actions: seq<Action>, r: ReservationId)
    ensures var origin := Initial(maxRetries, uploadSteps);
            IsOrphan(Run(origin, actions), r) <==> exists i :: CrashesInUse(origin, actions, i, r)
  {
    var origin := Initial(maxRetries, uploadSteps);
    if actions != [] {
      var init, last := actions[..|actions| - 1], actions[|actions| - 1];
      OrphaningRuns(maxRetries, uploadSteps, init, r);
      RunsAreOk(maxRetries, uploadSteps, init);
      StepOrphans(Run(origin, init), last, r);
      OneMoreCrashInUse(origin, actions, r);
      assert Run(origin, actions) == Next(Run(origin, init), last);
    }
  }

  /** In every reachable state, a held reservation that no cycle holds is one that a crash took from its
      cycle, and every such one is still held. */
  lemma OrphansComeFromCrashes(
    maxRetries: nat, uploadSteps: set<StepId>, actions: seq<Action>, s: System, r: ReservationId)
    requires IsRun(Initial(maxRetries, uploadSteps), actions, s)
    ensures IsHeldReservation(s.tables, r) && !IntakeHolds(s.intake, r) <==>
            exists i :: CrashesInUse(Initial(maxRetries, uploadSteps), actions, i, r)
  {
    RunIsRun(Initial(maxRetries, uploadSteps), actions, s);
    OrphaningRuns(maxRetries, uploadSteps, actions, r);
  }

  lemma NothingIsHeldAtFirst(maxRetries: nat, uploadSteps: set<StepId>, actions: seq<Action>, r: ReservationId)
    ensures !CrashesInUse(Initial(maxRetries, uploadSteps), actions, 0, r)
  {
    if actions != [] {
      assert actions[..0] == [] && Run(Initial(maxRetries, uploadSteps), []) == Initial(maxRetries, uploadSteps);
    }
  }

  /** Without a restart, however runners, intake and pool interleave, no reservation leaks: whatever is held
      is held by the cycle in progress. */
  lemma NothingLeaksInOneBoot(
    maxRetries: nat, uploadSteps: set<StepId>, actions: seq<Action>, s: System, r: ReservationId)
    requires IsRun(Initial(maxRetries, uploadSteps), actions, s)
    requires forall i :: 1 <= i < |actions| ==> !actions[i].Restart?
    ensures IsHeldReservation(s.tables, r) ==> IntakeHolds(s.intake, r)
  {
    OrphansComeFromCrashes(maxRetries, uploadSteps, actions, s, r);
    NothingIsHeldAtFirst(maxRetries, uploadSteps, actions, r);
  }

  // -------------------------------------------------------------------------------------------
  // The IP of a terminal job
  // -------------------------------------------------------------------------------------------

  predicate IsEnded(v: View) {
    v.job.Some? && IsTerminal(v.job.value.state)
  }

  /** The job is terminal and its runner is about to release the IP. */
  predicate IsReleasing(v: View) {
    v.pc.Freeing? && IsLiveRow(v.row)
  }

  /** The job is terminal and owns its IP, and no runner is about to release it. */
  predicate IsStranded(v: View) {
    IsEnded(v) && IsLiveRow(v.row) && !v.pc.Freeing?
  }

  /** A terminal job has no runner but the one that releases its IP, and the one that records that. */
  predicate IsTidy(v: View) {
    IsEnded(v) ==> v.pc.Idle? || v.pc.Freeing? || (v.pc.Observing? && !IsLiveRow(v.row))
  }

  lemma OnlyTransitionsEnd(t: Tables, op: Op, j: JobId)
    requires j in t.jobs ==> !IsTerminal(t.jobs[j].state)
    requires j in Apply(t, op).jobs && IsTerminal(Apply(t, op).jobs[j].state)
    ensures op.TransitionOp? && IsTerminal(op.to)
  {
    if !LeavesPoolAlone(op) {
      JobsAreLeftAlone(t, op);
    }
  }

  /** Of the runners, only the one that terminalizes a job ends it. */
  lemma OnlyTerminalizingEnds(s: System, j: JobId, event: Event)
    requires PcOf(s, j) != Idle
    ensures var op := StepOf(s, j, event).op;
            op.Some? && op.value.TransitionOp? && IsTerminal(op.value.to) ==>
              event.Tick? && PcOf(s, j).Terminalizing?
  {
    if event.Tick? {
      if InDelivery(PcOf(s, j)) {
        assert StepOf(s, j, event) == DeliveryTick(s, j, event.now);
      } else if InRecovery(PcOf(s, j)) {
        assert StepOf(s, j, event) == RecoveryTick(s, j, event.now);
      } else {
        assert StepOf(s, j, event) == ExecutionTick(s, j, event.now);
      }
    }
  }

  lemma AdvanceEndsAtRelease(s: System, j: JobId, event: Event)
    requires JobReady(s, j) && PcOf(s, j) != Idle && !IsEnded(ViewOf(s, j))
    ensures var v := ViewOf(Next(s, Advance(j, event)), j); IsEnded(v) ==> v.pc.Freeing?
  {
    EveryStepIsOneTransaction(s, Advance(j, event));
    if IsEnded(ViewOf(Next(s, Advance(j, event)), j)) {
      OnlyTransitionsEnd(s.tables, StepOf(s, j, event).op.value, j);
      OnlyTerminalizingEnds(s, j, event);
      DeliveredIsTerminalized(s, j, PcOf(s, j).recovering, event.now);
    }
  }

  lemma RecoverMovesNoState(s: System, j: JobId, now: Time)
    ensures RecoverStep(s, j, now).op.Some? ==> !RecoverStep(s, j, now).op.value.TransitionOp?
  {
  }

  lemma RecoverEndsNothing(s: System, j: JobId, now: Time)
    requires PcOf(s, j) == Idle && !IsEnded(ViewOf(s, j))
    ensures !IsEnded(ViewOf(Next(s, Recover(j, now)), j))
  {
    EveryStepIsOneTransaction(s, Recover(j, now));
    if IsEnded(ViewOf(Next(s, Recover(j, now)), j)) {
      RecoverMovesNoState(s, j, now);
      OnlyTransitionsEnd(s.tables, RecoverStep(s, j, now).op.value, j);
    }
  }

  lemma IntakeEndsNothing(s: System, step: IntakeStep, j: JobId)
    requires !IsEnded(ViewOf(s, j))
    ensures !IsEnded(ViewOf(Next(s, Intake(step)), j))
  {
    EveryStepIsOneTransaction(s, Intake(step));
    if IsEnded(ViewOf(Next(s, Intake(step)), j)) {
      OnlyTransitionsEnd(s.tables, IntakeStepOf(s, step).op.value, j);
    }
  }

  /** An unfinished job ends, if it does, with its runner about to release the IP. */
  lemma LivingStep(s: System, a: Action, j: JobId)
    requires SystemOk(s) && !IsEnded(ViewOf(s, j))
    ensures var v := ViewOf(Next(s, a), j); IsEnded(v) ==> v.pc.Freeing?
  {
    EveryStepIsOneTransaction(s, a);
    match a
    case Advance(k, event) =>
      if k != j {
        StepsOfOthersChangeNothing(s, a, k, j);
      } else if PcOf(s, j) != Idle {
        ReadyJob(s, j);
        AdvanceEndsAtRelease(s, j, event);
      }
    case Recover(k, now) =>
      if k != j {
        StepsOfOthersChangeNothing(s, a, k, j);
      } else if PcOf(s, j) == Idle {
        RecoverEndsNothing(s, j, now);
      }
    case Intake(step) => IntakeEndsNothing(s, step, j);
    case Pool(op) =>
      if op.SyncOp? || op.ChangeOp? {
        JobsAreLeftAlone(s.tables, op);
      }
    case _ =>
  }

  lemma FreeingEnded(s: System, j: JobId, event: Event)
    requires JobReady(s, j) && Consistent(s.tables) && PcOf(s, j).Freeing?
    ensures var v, v' := ViewOf(s, j), ViewOf(Next(s, Advance(j, event)), j);
            v' == v || (IsEnded(v') && !IsLiveRow(v'.row) && (v'.pc.Idle? || v'.pc.Observing?))
  {
    if event.Tick? {
      TerminalIsFreed(s, j, PcOf(s, j).recovering, event.now);
    } else {
      StaysPut(s, j, event);
    }
  }

  lemma StaysPut(s: System, j: JobId, event: Event)
    requires (PcOf(s, j).Freeing? || PcOf(s, j).Observing?) && !event.Tick?
    ensures ViewOf(Next(s, Advance(j, event)), j) == ViewOf(s, j)
  {
    assert StepOf(s, j, event) == GoTo(PcOf(s, j));
    MoveView(s, j, PcOf(s, j), event);
  }

  lemma ObservingEnded(s: System, j: JobId, event: Event)
    requires JobReady(s, j) && PcOf(s, j).Observing?
    ensures var v, v' := ViewOf(s, j), ViewOf(Next(s, Advance(j, event)), j);
            v' == v || v' == v.(pc := Idle)
  {
    if event.Tick? {
      var observation := PcOf(s, j).observation;
      assert StepOf(s, j, event) == Try(RecordOp(j, s.boot, observation), Idle, Idle);
      QuietView(s, j, RecordOp(j, s.boot, observation), Idle, Idle, event);
    } else {
      StaysPut(s, j, event);
    }
  }

  /** The job that the cycle works on has not ended, and has no row before it is bound. */
  lemma CycleWorksOnTheLiving(s: System, j: JobId)
    requires SystemOk(s) && RoleOf(s.intake, j) != NoRole
    ensures !IsEnded(ViewOf(s, j))
    ensures s.intake.CreatedJobPc? ==> RowFor(s.tables, j).None?
  {
    ReadyJob(s, j);
  }

  lemma IntakeIsDisciplined(s: System, step: IntakeStep, j: JobId)
    requires SystemOk(s) && IntakeStepOf(s, step).op.Some? && IsEnded(ViewOf(s, j))
    ensures var op := IntakeStepOf(s, step).op.value; Disciplined(s.tables, op) && (IsFor(op, j) ==> op.CreateJobOp?)
  {
    match s.intake
    case CreatedJobPc(_, k) => CycleWorksOnTheLiving(s, k);
    case BoundJobPc(k) => CycleWorksOnTheLiving(s, k);
    case ClaimedJobPc(k) => CycleWorksOnTheLiving(s, k);
    case _ =>
  }

  lemma IntakeLeavesTheEnded(s: System, step: IntakeStep, j: JobId)
    requires SystemOk(s) && IsEnded(ViewOf(s, j))
    ensures var v, v' := ViewOf(s, j), ViewOf(Next(s, Intake(step)), j);
            v'.job == v.job && v'.row == v.row && v'.pc == v.pc
  {
    EveryStepIsOneTransaction(s, Intake(step));
    if s.phase == Serving && IntakeStepOf(s, step).op.Some? {
      var op := IntakeStepOf(s, step).op.value;
      IntakeIsDisciplined(s, step, j);
      if IsFor(op, j) {
        RowsAreKept(s.tables, op);
      } else {
        OtherJobsAreUntouched(s.tables, op);
      }
    }
  }

  lemma PoolLeavesTheEnded(s: System, op: Op, j: JobId)
    requires SystemOk(s)
    ensures var v, v' := ViewOf(s, j), ViewOf(Next(s, Pool(op)), j);
            v'.job == v.job && v'.row == v.row && v'.pc == v.pc
  {
    EveryStepIsOneTransaction(s, Pool(op));
    if op.SyncOp? || op.ChangeOp? {
      OtherJobsAreUntouched(s.tables, op);
    }
  }

  /** From one view of an ended job to the next, its IP is stranded exactly by a crash before the release. */
  predicate StrandsByCrash(before: View, after: View, crash: bool) {
    IsTidy(after) && (IsStranded(after) <==> IsStranded(before) || (crash && IsReleasing(before)))
  }

  lemma AdvancingTheEnded(s: System, j: JobId, event: Event)
    requires SystemOk(s) && IsEnded(ViewOf(s, j)) && IsTidy(ViewOf(s, j))
    ensures StrandsByCrash(ViewOf(s, j), ViewOf(Next(s, Advance(j, event)), j), false)
  {
    ReadyJob(s, j);
    if PcOf(s, j).Freeing? {
      FreeingEnded(s, j, event);
    } else if PcOf(s, j).Observing? {
      ObservingEnded(s, j, event);
    }
  }

  /** No runner is started for an ended job, and recovery passes it over. */
  lemma StartingLeavesTheEnded(s: System, a: Action, j: JobId)
    requires SystemOk(s) && IsEnded(ViewOf(s, j)) && IsTidy(ViewOf(s, j))
    requires a.Redeliver? || a.Admit? || a.Resume? || a.Recover?
    ensures ViewOf(Next(s, a), j) == ViewOf(s, j)
  {
    if a.j != j {
      StepsOfOthersChangeNothing(s, a, a.j, j);
    } else {
      ReadyJob(s, j);
      if a.Recover? && PcOf(s, j).Idle? {
        RecoveryPassesOverTerminalJobs(s, j, a.now);
      }
    }
  }

  lemma RestartStrands(s: System, a: Action, j: JobId)
    requires a.Restart? && IsEnded(ViewOf(s, j)) && IsTidy(ViewOf(s, j))
    ensures StrandsByCrash(ViewOf(s, j), ViewOf(Next(s, a), j), true)
  {
    RestartView(s, j, a.boot, a.configured, a.replaySafe);
  }

  lemma SameRowStrandsNothing(before: View, after: View)
    requires IsTidy(before) && after.job == before.job && after.row == before.row && after.pc == before.pc
    ensures StrandsByCrash(before, after, false)
  {
  }

  /** A step strands the IP of an ended job exactly when it is a crash before the release, and no step
      takes it back. */
  lemma EndedStep(s: System, a: Action, j: JobId)
    requires SystemOk(s) && IsEnded(ViewOf(s, j)) && IsTidy(ViewOf(s, j)) && !a.ResumeByHand?
    ensures StrandsByCrash(ViewOf(s, j), ViewOf(Next(s, a), j), a.Restart?)
  {
    var v, v' := ViewOf(s, j), ViewOf(Next(s, a), j);
    if a.Restart? {
      RestartStrands(s, a, j);
    } else if a.Advance? && a.j == j {
      AdvancingTheEnded(s, j, a.event);
    } else {
      EndedIsLeftAlone(s, a, j);
      SameRowStrandsNothing(v, v');
    }
  }

  lemma ServingLeavesAll(s: System, j: JobId)
    ensures ViewOf(Next(s, Serve), j) == ViewOf(s, j)
  {
  }

  lemma EndedIsLeftAlone(s: System, a: Action, j: JobId)
    requires SystemOk(s) && IsEnded(ViewOf(s, j)) && IsTidy(ViewOf(s, j))
    requires !a.Restart? && !a.ResumeByHand? && !(a.Advance? && a.j == j)
    ensures var v, v' := ViewOf(s, j), ViewOf(Next(s, a), j);
            v'.job == v.job && v'.row == v.row && v'.pc == v.pc
  {
    match a
    case Advance(k, _) => StepsOfOthersChangeNothing(s, a, k, j);
    case Intake(step) => IntakeLeavesTheEnded(s, step, j);
    case Pool(op) => PoolLeavesTheEnded(s, op, j);
    case Serve => ServingLeavesAll(s, j);
    case _ => StartingLeavesTheEnded(s, a, j);
  }

  lemma StepStrands(s: System, a: Action, j: JobId)
    requires SystemOk(s) && IsTidy(ViewOf(s, j)) && !a.ResumeByHand?
    ensures StrandsByCrash(ViewOf(s, j), ViewOf(Next(s, a), j), a.Restart?)
  {
    if IsEnded(ViewOf(s, j)) {
      EndedStep(s, a, j);
    } else {
      LivingStep(s, a, j);
      ReadyJob(s, j);
      LivingStrandsNothing(ViewOf(s, j), ViewOf(Next(s, a), j), a.Restart?, s.maxRetries, s.everReplaySafe);
    }
  }

  lemma LivingStrandsNothing(before: View, after: View, crash: bool, maxRetries: nat, everReplaySafe: bool)
    requires ViewOk(before, maxRetries, everReplaySafe) && !IsEnded(before)
    requires IsEnded(after) ==> after.pc.Freeing?
    ensures StrandsByCrash(before, after, crash)
  {
  }

  /** The crash with index i comes after the terminal transition and before the release. */
  ghost predicate CrashesBeforeRelease(origin: System, actions: seq<Action>, i: nat, j: JobId) {
    i < |actions| && actions[i].Restart? && IsReleasing(ViewOf(Run(origin, actions[..i]), j))
  }

  lemma OneMoreCrashBeforeRelease(origin: System, actions: seq<Action>, j: JobId)
    requires actions != []
    ensures var init := actions[..|actions| - 1];
            (exists i :: CrashesBeforeRelease(origin, actions, i, j)) <==>
              || (exists i :: CrashesBeforeRelease(origin, init, i, j))
              || (actions[|actions| - 1].Restart? && IsReleasing(ViewOf(Run(origin, init), j)))
  {
    var init := actions[..|actions| - 1];
    assert forall i :: 0 <= i <= |init| ==> init[..i] == actions[..i];
    if i: nat :| CrashesBeforeRelease(origin, init, i, j) {
      assert CrashesBeforeRelease(origin, actions, i, j);
    }
    if actions[|init|].Restart? && IsReleasing(ViewOf(Run(origin, init), j)) {
      assert CrashesBeforeRelease(origin, actions, |init|, j);
    }
    if i: nat :| CrashesBeforeRelease(origin, actions, i, j) {
      assert i < |init| ==> CrashesBeforeRelease(origin, init, i, j);
    }
  }

  /** Only the restart runner resumes deliveries, and only those that recovery reported. */
  predicate OnlyReported(actions: seq<Action>) {
    forall i :: 0 <= i < |actions| ==> !actions[i].ResumeByHand?
  }

  lemma {:induction false} StrandingRuns(
    maxRetries: nat, uploadSteps: set<StepId>, actions: seq<Action>, j: JobId)
    requires OnlyReported(actions)
    ensures var origin := Initial(maxRetries, uploadSteps);
            var v := ViewOf(Run(origin, actions), j);
            IsTidy(v) && (IsStranded(v) <==> exists i :: CrashesBeforeRelease(origin, actions, i, j))
  {
    var origin := Initial(maxRetries, uploadSteps);
    if actions != [] {
      var init, last := actions[..|actions| - 1], actions[|actions| - 1];
      StrandingRuns(maxRetries, uploadSteps, init, j);
      RunsAreOk(maxRetries, uploadSteps, init);
      StepStrands(Run(origin, init), last, j);
      OneMoreCrashBeforeRelease(origin, actions, j);
      assert Run(origin, actions) == Next(Run(origin, init), last);
    }
  }

  /** The job is terminal and its allocation is live. */
  ghost predicate KeepsIp(s: System, j: JobId) {
    && j in s.tables.jobs && IsTerminal(s.tables.jobs[j].state)
    && exists a :: OwnRow(s.tables, a, j) && IsLive(s.tables.allocations[a].status)
  }

  lemma KeptIpIsLiveRow(s: System, j: JobId)
    requires UniqueRows(s.tables)
    ensures KeepsIp(s, j) <==> IsEnded(ViewOf(s, j)) && IsLiveRow(ViewOf(s, j).row)
  {
    if RowOf(s.tables, j).Some? {
      assert OwnRow(s.tables, RowOf(s.tables, j).value, j);
    }
  }

  lemma KeptIsReleasingOrStranded(v: View, maxRetries: nat, everReplaySafe: bool)
    requires ViewOk(v, maxRetries, everReplaySafe)
    ensures IsEnded(v) && IsLiveRow(v.row) <==> IsReleasing(v) || IsStranded(v)
  {
  }

  /** In every reachable state a terminal job keeps its IP exactly when its runner is about to release it,
      or some crash came between the terminal transition and the release. */
  lemma KeptIpsComeFromCrashes(
    maxRetries: nat, uploadSteps: set<StepId>, actions: seq<Action>, s: System, j: JobId)
    requires IsRun(Initial(maxRetries, uploadSteps), actions, s) && OnlyReported(actions)
    ensures KeepsIp(s, j) <==>
            || IsReleasing(ViewOf(s, j))
            || exists i :: CrashesBeforeRelease(Initial(maxRetries, uploadSteps), actions, i, j)
  {
    RunIsRun(Initial(maxRetries, uploadSteps), actions, s);
    ReachedIsOk(maxRetries, uploadSteps, actions, s);
    ReadyJob(s, j);
    KeptIsReleasingOrStranded(ViewOf(s, j), s.maxRetries, s.everReplaySafe);
    KeptIpIsLiveRow(s, j);
    StrandingRuns(maxRetries, uploadSteps, actions, j);
  }

  lemma CrashesStay(origin: System, actions: seq<Action>, more: seq<Action>, i: nat, j: JobId)
    requires CrashesBeforeRelease(origin, actions, i, j)
    ensures CrashesBeforeRelease(origin, actions + more, i, j)
  {
    assert (actions + more)[..i] == actions[..i];
  }

  /** After such a crash the IP stays with the terminal job in every later state, through any number of
      restarts and recoveries, and no runner is there to release it. */
  lemma StrandedIpsStay(
    maxRetries: nat, uploadSteps: set<StepId>, actions: seq<Action>, more: seq<Action>, later: System, i: nat, j: JobId)
    requires CrashesBeforeRelease(Initial(maxRetries, uploadSteps), actions, i, j)
    requires OnlyReported(actions) && OnlyReported(more)
    requires IsRun(Initial(maxRetries, uploadSteps), actions + more, later)
    ensures KeepsIp(later, j) && PcOf(later, j).Idle?
  {
    var origin := Initial(maxRetries, uploadSteps);
    CrashesStay(origin, actions, more, i, j);
    RunIsRun(origin, actions + more, later);
    ReachedIsOk(maxRetries, uploadSteps, actions + more, later);
    KeptIpIsLiveRow(later, j);
    StrandingRuns(maxRetries, uploadSteps, actions + more, j);
  }

  /** A run in which no crash comes there ends with every terminal job released, once its runner is done. */
  lemma OtherRunsRelease(
    maxRetries: nat, uploadSteps: set<StepId>, actions: seq<Action>, s: System, j: JobId)
    requires IsRun(Initial(maxRetries, uploadSteps), actions, s) && OnlyReported(actions)
    requires forall i :: !CrashesBeforeRelease(Initial(maxRetries, uploadSteps), actions, i, j)
    requires j in s.tables.jobs && IsTerminal(s.tables.jobs[j].state) && !PcOf(s, j).Freeing?
    ensures exists a :: OwnRow(s.tables, a, j) && s.tables.allocations[a].status == AllocReleased
  {
    RunIsRun(Initial(maxRetries, uploadSteps), actions, s);
    ReachedIsOk(maxRetries, uploadSteps, actions, s);
    ReadyJob(s, j);
    StrandingRuns(maxRetries, uploadSteps, actions, j);
    assert OwnRow(s.tables, RowOf(s.tables, j).value, j);
  }

  // -------------------------------------------------------------------------------------------
  // Why resumption by hand is left out of these
  // -------------------------------------------------------------------------------------------

  lemma HandStartsDelivery(s: System, j: JobId)
    requires s.phase == Recovering && PcOf(s, j).Idle? && j in s.tables.results
    ensures ViewOf(Next(s, ResumeByHand(j)), j) == ViewOf(s, j).(pc := Delivering)
  {
    JumpView(s, j, Delivering, j);
  }

  lemma DeliveredSkipsTheSend(s: System, j: JobId, now: Time)
    requires PcOf(s, j).Delivering? && HasStatusIn(ViewOf(s, j), Delivered)
    ensures ViewOf(Ticked(s, j, now), j) == ViewOf(s, j).(pc := Terminalizing(false))
  {
    assert StepOf(s, j, Tick(now)) == GoTo(Terminalizing(false));
    MoveView(s, j, Terminalizing(false), Tick(now));
  }

  lemma EndedGoesToRelease(s: System, j: JobId, now: Time)
    requires JobReady(s, j) && PcOf(s, j) == Terminalizing(false) && IsEnded(ViewOf(s, j))
    ensures ViewOf(Ticked(s, j, now), j) == ViewOf(s, j).(pc := Freeing(false))
  {
    TerminalizingTick(s, j, false, now);
    MoveView(s, j, Freeing(false), Tick(now));
  }

  /** Resuming the delivery of a stranded job once more would release its IP, without another send. */
  lemma ResumingByHandReleases(s: System, j: JobId, now: Time)
    requires SystemOk(s) && s.phase == Recovering && PcOf(s, j).Idle? && KeepsIp(s, j)
    ensures var later := Ticked(Ticked(Ticked(Next(s, ResumeByHand(j)), j, now), j, now), j, now);
            && !KeepsIp(later, j) && j in later.tables.jobs && later.tables.jobs[j] == s.tables.jobs[j]
            && SendsOf(later, j) == SendsOf(s, j)
  {
    KeptIpIsLiveRow(s, j);
    ReadyJob(s, j);
    var s1 := Next(s, ResumeByHand(j));
    HandStartsDelivery(s, j);
    NextOk(s, ResumeByHand(j));
    DeliveredSkipsTheSend(s1, j, now);
    var s2 := Ticked(s1, j, now);
    NextOk(s1, Advance(j, Tick(now)));
    ReadyJob(s2, j);
    EndedGoesToRelease(s2, j, now);
    var s3 := Ticked(s2, j, now);
    NextOk(s2, Advance(j, Tick(now)));
    ReadyJob(s3, j);
    TerminalIsFreed(s3, j, false, now);
    NextOk(s3, Advance(j, Tick(now)));
    KeptIpIsLiveRow(Ticked(s3, j, now), j);
  }
}
