/** What the invariant and the transaction log say about whole runs of the system. */
module SystemTheorems {
  import opened Wrappers
  import opened JobStates
  import opened ProxyStates
  import opened CanonicalJson
  import opened Schema
  import opened JobTransactions
  import opened AllocationTransactions
  import opened ReservationTransactions
  import opened LedgerTransactions
  import opened RecoveryTransactions
  import opened RetryPolicy
  import opened Transactions
  import opened Ownership
  import opened History
  import opened SystemModel
  import opened SystemInvariant
  import opened SystemSteps

  // -------------------------------------------------------------------------------------------
  // Runs as sequences of transactions
  // -------------------------------------------------------------------------------------------

  /** The transaction a step performs, if any. */
  ghost function TxOf(s: System, a: Action): Option<Op> {
    match a
    case Recover(j, now) =>
      if s.phase == Recovering && PcOf(s, j) == Idle then RecoverStep(s, j, now).op else None
    case Advance(j, event) => if PcOf(s, j) != Idle then StepOf(s, j, event).op else None
    case Intake(step) => if s.phase == Serving then IntakeStepOf(s, step).op else None
    case Pool(op) => if op.SyncOp? || op.ChangeOp? then Some(op) else None
    case _ => None
  }

  ghost function TxLog(s: System, actions: seq<Action>): seq<Op> {
    if actions == [] then []
    else
      var init, last := actions[..|actions| - 1], actions[|actions| - 1];
      TxLog(s, init) + match TxOf(Run(s, init), last) case None => [] case Some(op) => [op]
  }

  lemma EveryStepIsOneTransaction(s: System, a: Action)
    ensures Next(s, a).tables ==
            match TxOf(s, a) case None => s.tables case Some(op) => Apply(s.tables, op)
  {
  }

  /** The durable state after a run is what its transactions make of the initial tables. */
  lemma {:induction false} RunsAreTransactionLogs(s: System, actions: seq<Action>)
    ensures Run(s, actions).tables == ApplyAll(s.tables, TxLog(s, actions))
  {
    if actions != [] {
      var init, last := actions[..|actions| - 1], actions[|actions| - 1];
      RunsAreTransactionLogs(s, init);
      EveryStepIsOneTransaction(Run(s, init), last);
      var log := TxLog(s, init);
      match TxOf(Run(s, init), last)
      case None => assert TxLog(s, actions) == log;
      case Some(op) => assert (log + [op])[..|log + [op]| - 1] == log;
    }
  }

  /** Allocations come only from reserve and bind, and nothing is released for administrative
      reasons. */
  predicate IsComposedOp(op: Op) {
    && !op.AcquireOp?
    && (op.ReleaseOp? ==> op.reason in {JobCompleted, JobFailedFinal})
  }

  lemma StepsPerformComposedOps(s: System, a: Action)
    ensures TxOf(s, a).Some? ==> IsComposedOp(TxOf(s, a).value)
  {
    match a
    case Advance(j, event) => RunnersPerformComposedOps(s, j, event);
    case _ =>
  }

  lemma RunnersPerformComposedOps(s: System, j: JobId, event: Event)
    ensures StepOf(s, j, event).op.Some? ==> IsComposedOp(StepOf(s, j, event).op.value)
  {
    if event.Tick? {
      if InDelivery(PcOf(s, j)) {
        assert DeliveryTick(s, j, event.now).op.Some? ==> IsComposedOp(DeliveryTick(s, j, event.now).op.value);
      } else if InRecovery(PcOf(s, j)) {
        assert RecoveryTick(s, j, event.now).op.Some? ==> IsComposedOp(RecoveryTick(s, j, event.now).op.value);
      } else {
        assert ExecutionTick(s, j, event.now).op.Some? ==> IsComposedOp(ExecutionTick(s, j, event.now).op.value);
      }
    }
  }

  lemma {:induction false} LogsAreComposed(s: System, actions: seq<Action>)
    ensures forall i :: 0 <= i < |TxLog(s, actions)| ==> IsComposedOp(TxLog(s, actions)[i])
  {
    if actions != [] {
      LogsAreComposed(s, actions[..|actions| - 1]);
      StepsPerformComposedOps(Run(s, actions[..|actions| - 1]), actions[|actions| - 1]);
    }
  }

  lemma ReachedIsOk(maxRetries: nat, uploadSteps: set<StepId>, actions: seq<Action>, s: System)
    requires IsRun(Initial(maxRetries, uploadSteps), actions, s)
    ensures SystemOk(s) && s.maxRetries == maxRetries
  {
    RunIsRun(Initial(maxRetries, uploadSteps), actions, s);
    RunsAreOk(maxRetries, uploadSteps, actions);
  }

  // -------------------------------------------------------------------------------------------
  // At most one remote effect
  // -------------------------------------------------------------------------------------------

  /** No boot ever declares that the Portal supports idempotent replay. */
  predicate NeverReplaySafe(actions: seq<Action>) {
    forall i :: 0 <= i < |actions| && actions[i].Restart? ==> !actions[i].replaySafe
  }

  lemma OnlyRestartsDeclareReplay(s: System, a: Action)
    requires a.Restart? ==> !a.replaySafe
    ensures Next(s, a).everReplaySafe == s.everReplaySafe
  {
  }

  lemma {:induction false} ReplayStaysOff(maxRetries: nat, uploadSteps: set<StepId>, actions: seq<Action>)
    requires NeverReplaySafe(actions)
    ensures !Run(Initial(maxRetries, uploadSteps), actions).everReplaySafe
  {
    if actions != [] {
      var init, last := actions[..|actions| - 1], actions[|actions| - 1];
      ReplayStaysOff(maxRetries, uploadSteps, init);
      OnlyRestartsDeclareReplay(Run(Initial(maxRetries, uploadSteps), init), last);
      assert Run(Initial(maxRetries, uploadSteps), actions) == Next(Run(Initial(maxRetries, uploadSteps), init), last);
    }
  }

  /** In every state that a run reaches, with crashes anywhere, at most one send per job is accepted,
      ambiguous or cut off by a crash; a job whose result is PENDING has none. */
  lemma AtMostOneRemoteEffect(maxRetries: nat, uploadSteps: set<StepId>, actions: seq<Action>, s: System, j: JobId)
    requires IsRun(Initial(maxRetries, uploadSteps), actions, s) && NeverReplaySafe(actions)
    ensures var sends := SendsOf(s, j);
            && (forall i, k :: 0 <= i < |sends| && 0 <= k < |sends| && !Benign(sends[i]) && !Benign(sends[k]) ==>
                  i == k)
            && (j in s.tables.results && s.tables.results[j].status == DeliveryPending ==> AllBenign(sends))
            && (j in s.tables.results ==> s.tables.results[j].attempts == |sends|)
            && (j !in s.tables.results ==> sends == [])
  {
    ReachedIsOk(maxRetries, uploadSteps, actions, s);
    RunIsRun(Initial(maxRetries, uploadSteps), actions, s);
    ReplayStaysOff(maxRetries, uploadSteps, actions);
    OnlyTheLastMatters(ViewOf(s, j));
  }

  lemma OnlyTheLastMatters(v: View)
    requires SendsOk(v, false)
    ensures forall i, k :: 0 <= i < |v.sends| && 0 <= k < |v.sends| && !Benign(v.sends[i]) && !Benign(v.sends[k]) ==>
              i == k
  {
    forall i | 0 <= i < |v.sends| - 1 ensures Benign(v.sends[i]) {
      EarlierIsBenign(v, i);
    }
  }

  lemma EarlierIsBenign(v: View, i: nat)
    requires SendsOk(v, false) && i < |v.sends| - 1
    ensures Benign(v.sends[i])
  {
    if !AllBenign(v.sends) {
      assert v.sends[..|v.sends| - 1][i] == v.sends[i];
    }
  }

  /** The last open send is answered. */
  predicate ClosesLast(before: seq<Send>, after: seq<Send>) {
    && before != []
    && before[|before| - 1] == Open
    && |after| == |before|
    && after[..|after| - 1] == before[..|before| - 1]
    && after[|after| - 1] != Open
  }

  predicate SendsEvolve(before: seq<Send>, after: seq<Send>) {
    after == before || after == before + [Open] || ClosesLast(before, after)
  }

  lemma SendsAfterEvolve(sends: seq<Send>, before: Pc, after: Pc, event: Event)
    requires before.Sending? ==> LastIs(sends, Open)
    ensures SendsEvolve(sends, SendsAfter(sends, before, after, event))
  {
  }

  lemma PerformEvolvesSends(s: System, j: JobId, effect: Effect, event: Event, k: JobId)
    requires JobReady(s, j)
    ensures SendsEvolve(SendsOf(s, k), SendsOf(Perform(s, j, effect, event), k))
  {
    var after := PcOf(Perform(s, j, effect, event), j);
    SendsAfterEvolve(SendsOf(s, j), PcOf(s, j), after, event);
  }

  /** The history behind that theorem: a step opens at most one send or closes the last open one, and
      nothing else about past sends changes. */
  lemma SendsAreHistory(s: System, a: Action, k: JobId)
    requires SystemOk(s)
    ensures SendsEvolve(SendsOf(s, k), SendsOf(Next(s, a), k))
  {
    match a
    case Recover(j, now) =>
      ReadyJob(s, j);
      PerformEvolvesSends(s, j, RecoverStep(s, j, now), Tick(now), k);
    case Advance(j, event) =>
      ReadyJob(s, j);
      PerformEvolvesSends(s, j, StepOf(s, j, event), event, k);
    case _ =>
  }

  ghost function Ticked(s: System, j: JobId, now: Time): System {
    Next(s, Advance(j, Tick(now)))
  }

  /** Delivering an uncertain result without idempotent replay stops before the send. */
  lemma UncertainStaysUnsent(s: System, j: JobId, now: Time)
    requires PcOf(s, j).Delivering? && s.configured && !s.replaySafe
    requires j in s.tables.results && s.tables.results[j].status == Uncertain
    ensures PcOf(Ticked(s, j, now), j).Idle? && SendsOf(Ticked(s, j, now), j) == SendsOf(s, j)
    ensures Ticked(s, j, now).tables == s.tables
  {
    assert StepOf(s, j, Tick(now)) == GoTo(Idle);
  }

  lemma UncertainIsRequeued(s: System, j: JobId, now: Time)
    requires PcOf(s, j).Delivering? && s.configured && s.replaySafe
    requires j in s.tables.results && s.tables.results[j].status == Uncertain
    ensures var s' := Ticked(s, j, now);
            && PcOf(s', j).Delivering? && SendsOf(s', j) == SendsOf(s, j) && s'.configured && s'.replaySafe
            && s'.tables == s.tables.(results :=
                 s.tables.results[j := s.tables.results[j].(status := DeliveryPending)])
  {
    assert StepOf(s, j, Tick(now)) == Try(RequeueOp(j), Delivering, Idle);
  }

  lemma PendingIsSent(s: System, j: JobId, now: Time)
    requires PcOf(s, j).Delivering? && s.configured && s.replaySafe
    requires j in s.tables.results && s.tables.results[j].status == DeliveryPending && HasLive(s.tables, j)
    ensures PcOf(Ticked(s, j, now), j).Sending? && SendsOf(Ticked(s, j, now), j) == SendsOf(s, j) + [Open]
  {
    assert StepOf(s, j, Tick(now)) == Try(BeginOp(j), Sending, Idle);
  }

  lemma SameLive(t: Tables, t': Tables, j: JobId)
    requires UniqueRows(t) && t'.allocations == t.allocations
    ensures HasLive(t', j) <==> HasLive(t, j)
  {
    SameRows(t, t');
    LiveRow(t, j);
    LiveRow(t', j);
  }

  /** A result whose delivery is uncertain is sent again exactly when the contract declares idempotent
      replay; this is why the property above needs replay to stay off. */
  lemma UncertainIsResentOnlyWithReplay(s: System, j: JobId, now: Time)
    requires UniqueRows(s.tables) && s.phase == Recovering && PcOf(s, j).Idle? && s.configured
    requires j in s.tables.results && s.tables.results[j].status == Uncertain
    requires HasLive(s.tables, j)
    ensures var s' := Ticked(Ticked(Next(s, Redeliver(j)), j, now), j, now);
            SendsOf(s', j) == if s.replaySafe then SendsOf(s, j) + [Open] else SendsOf(s, j)
  {
    var s1 := Next(s, Redeliver(j));
    if s.replaySafe {
      UncertainIsRequeued(s1, j, now);
      SameLive(s.tables, Ticked(s1, j, now).tables, j);
      PendingIsSent(Ticked(s1, j, now), j, now);
    } else {
      UncertainStaysUnsent(s1, j, now);
    }
  }

  // -------------------------------------------------------------------------------------------
  // The recorded result
  // -------------------------------------------------------------------------------------------

  /** Once a result is recorded, its outcome, terminal state, payload and digest stay as they are in
      every later state, whatever crashes. */
  lemma RecordedResultIsPermanent(s: System, actions: seq<Action>, later: System, j: JobId)
    requires IsRun(s, actions, later) && j in s.tables.results
    ensures j in later.tables.results
    ensures LedgerRowEvolves(s.tables.results[j], later.tables.results[j])
  {
    RunIsRun(s, actions, later);
    RunsAreTransactionLogs(s, actions);
    LedgerIsAppendOnly(s.tables, TxLog(s, actions), j);
  }

  /** COMPLETED and FAILED_FINAL are reached only through an acknowledged result that names them, and
      an IP is released only for such a job, with the matching reason. */
  lemma TerminalOnlyThroughAcknowledgement(
    maxRetries: nat, uploadSteps: set<StepId>, actions: seq<Action>, s: System, j: JobId)
    requires IsRun(Initial(maxRetries, uploadSteps), actions, s)
    ensures var t := s.tables;
            && (j in t.jobs && IsTerminal(t.jobs[j].state) ==>
                  && j in t.results
                  && t.results[j].status == Delivered
                  && t.results[j].terminalState == t.jobs[j].state
                  && t.jobs[j].state == TerminalStateOf(t.results[j].outcome)
                  && LastIs(SendsOf(s, j), Accepted))
            && (forall a :: OwnRow(t, a, j) && t.allocations[a].status == AllocReleased ==>
                  && j in t.jobs
                  && IsTerminal(t.jobs[j].state)
                  && t.allocations[a].releaseReason == Some(ReleaseReasonFor(t.jobs[j].state)))
  {
    ReachedIsOk(maxRetries, uploadSteps, actions, s);
    ReadyJob(s, j);
    forall a | OwnRow(s.tables, a, j) ensures RowFor(s.tables, j) == Some(s.tables.allocations[a]) {
      assert RowOf(s.tables, j) == Some(a);
    }
  }

  /** In every reachable state the job of a recorded result can legally move to the state it names. */
  lemma RecordedResultCanTerminalize(
    maxRetries: nat, uploadSteps: set<StepId>, actions: seq<Action>, s: System, j: JobId)
    requires IsRun(Initial(maxRetries, uploadSteps), actions, s) && j in s.tables.results
    ensures j in s.tables.jobs
    ensures if IsTerminal(s.tables.jobs[j].state) then s.tables.jobs[j].state == s.tables.results[j].terminalState
            else CanTransition(s.tables.jobs[j].state, s.tables.results[j].terminalState)
  {
    ReachedIsOk(maxRetries, uploadSteps, actions, s);
    ReadyJob(s, j);
  }

  // -------------------------------------------------------------------------------------------
  // A delivered result terminalizes its job, also after a crash, and without another send
  // -------------------------------------------------------------------------------------------

  lemma DeliveredIsRecognized(s: System, j: JobId, now: Time)
    requires s.phase == Recovering && PcOf(s, j).Idle?
    requires j in s.tables.jobs && !IsTerminal(s.tables.jobs[j].state)
    requires j in s.tables.results && s.tables.results[j].status == Delivered
    ensures ViewOf(Next(s, Recover(j, now)), j) == ViewOf(s, j).(pc := Terminalizing(true))
  {
    assert RecoverStep(s, j, now) == GoTo(Terminalizing(true));
    MoveView(s, j, Terminalizing(true), Tick(now));
  }

  lemma TerminalizingTick(s: System, j: JobId, recovering: bool, now: Time)
    requires PcOf(s, j) == Terminalizing(recovering)
    ensures Ticked(s, j, now) == Perform(s, j, TerminalizeStep(s.tables, j, recovering, now), Tick(now))
  {
  }

  lemma DeliveredIsTerminalized(s: System, j: JobId, recovering: bool, now: Time)
    requires JobReady(s, j) && PcOf(s, j) == Terminalizing(recovering)
    requires !IsTerminal(s.tables.jobs[j].state)
    ensures var v, v' := ViewOf(s, j), ViewOf(Ticked(s, j, now), j);
            && v'.job.Some? && v'.job.value.state == v.record.value.terminalState
            && v'.pc == Freeing(recovering)
            && v'.row == v.row && v'.record == v.record && v'.sends == v.sends
  {
    var record := s.tables.results[j];
    TerminalizingTick(s, j, recovering, now);
    TerminalizedViewOk(ViewOf(s, j), TerminalPatch(record), recovering, now, s.maxRetries, s.everReplaySafe);
    TransitionView(s, j, record.terminalState, TerminalPatch(record), s.tables.jobs[j].version, now,
                   Freeing(recovering), Idle, Tick(now));
  }

  lemma FreeingTick(s: System, j: JobId, recovering: bool, now: Time)
    requires PcOf(s, j) == Freeing(recovering)
    ensures Ticked(s, j, now) == Perform(s, j, FreeStep(s.tables, j, recovering, now), Tick(now))
  {
  }

  lemma TerminalIsFreed(s: System, j: JobId, recovering: bool, now: Time)
    requires JobReady(s, j) && Consistent(s.tables) && PcOf(s, j) == Freeing(recovering)
    ensures var v, v' := ViewOf(s, j), ViewOf(Ticked(s, j, now), j);
            && v'.job == v.job && v'.record == v.record && v'.sends == v.sends
            && v'.row.Some? && v'.row.value.status == AllocReleased
            && (if recovering then v'.pc.Observing? else v'.pc.Idle?)
  {
    var effect := FreeStep(s.tables, j, recovering, now);
    FreedViewOk(ViewOf(s, j), effect.committed, now, s.maxRetries, s.everReplaySafe);
    FreeingTick(s, j, recovering, now);
    ReleaseView(s, j, ReleaseReasonFor(s.tables.results[j].terminalState), now, effect.committed, Idle, Tick(now));
  }

  /** A run of two actions, step by step. */
  lemma TwoActions(s: System, a: Action, b: Action)
    ensures Run(s, [a, b]) == Next(Next(s, a), b)
  {
    assert [a, b][..1] == [a] && [a][..0] == [];
    assert Run(s, []) == s && Run(s, [a]) == Next(s, a);
  }

  lemma {:induction false} RunsCompose(s: System, first: seq<Action>, second: seq<Action>)
    ensures Run(s, first + second) == Run(Run(s, first), second)
  {
    if second == [] {
      assert first + second == first;
    } else {
      var init, last := second[..|second| - 1], second[|second| - 1];
      RunsCompose(s, first, init);
      assert (first + second)[..|first + second| - 1] == first + init;
    }
  }

  lemma DeliveredIsFinished(s: System, j: JobId, now: Time)
    requires SystemOk(s) && s.phase == Recovering && PcOf(s, j).Idle?
    requires j in s.tables.jobs && !IsTerminal(s.tables.jobs[j].state)
    requires j in s.tables.results && s.tables.results[j].status == Delivered
    ensures var v' := ViewOf(Ticked(Ticked(Next(s, Recover(j, now)), j, now), j, now), j);
            && v'.job.Some? && v'.job.value.state == s.tables.results[j].terminalState
            && v'.row.Some? && v'.row.value.status == AllocReleased
            && v'.record == Some(s.tables.results[j])
            && v'.sends == SendsOf(s, j)
  {
    DeliveredIsRecognized(s, j, now);
    var s2 := Next(s, Recover(j, now));
    NextOk(s, Recover(j, now));
    ReadyJob(s2, j);
    DeliveredIsTerminalized(s2, j, true, now);
    var s3 := Ticked(s2, j, now);
    NextOk(s2, Advance(j, Tick(now)));
    ReadyJob(s3, j);
    TerminalIsFreed(s3, j, true, now);
  }

  /** From every reachable state, a crash after the acknowledgement is repaired by the next restart: the
      job reaches the recorded terminal state and its IP is released, with no further send. */
  lemma RestartFinishesDeliveredJobs(
    maxRetries: nat, uploadSteps: set<StepId>, actions: seq<Action>, s: System, later: System,
    j: JobId, boot: BootId, configured: bool, replaySafe: bool, now: Time)
    requires IsRun(Initial(maxRetries, uploadSteps), actions, s)
    requires j in s.tables.jobs && !IsTerminal(s.tables.jobs[j].state)
    requires j in s.tables.results && s.tables.results[j].status == Delivered
    requires IsRun(s, [Restart(boot, configured, replaySafe), Recover(j, now)]
                      + [Advance(j, Tick(now)), Advance(j, Tick(now))], later)
    ensures j in later.tables.jobs && later.tables.jobs[j].state == s.tables.results[j].terminalState
    ensures exists a :: OwnRow(later.tables, a, j) && later.tables.allocations[a].status == AllocReleased
    ensures At(later.tables.results, j) == Some(s.tables.results[j])
    ensures SendsOf(later, j) == SendsOf(s, j)
  {
    var restart, recover, tick := Restart(boot, configured, replaySafe), Recover(j, now), Advance(j, Tick(now));
    ReachedIsOk(maxRetries, uploadSteps, actions, s);
    NextOk(s, restart);
    DeliveredIsFinished(Next(s, restart), j, now);
    TwoActions(s, restart, recover);
    TwoActions(Run(s, [restart, recover]), tick, tick);
    RunsCompose(s, [restart, recover], [tick, tick]);
    RunIsRun(s, [restart, recover] + [tick, tick], later);
    assert OwnRow(later.tables, RowOf(later.tables, j).value, j);
  }

  // -------------------------------------------------------------------------------------------
  // One allocation for life
  // -------------------------------------------------------------------------------------------

  /** Once bound, a job keeps its one allocation row, with the same proxy, ip and port, whatever runs or
      crashes; the row stays live until the job is terminal, and no second row ever appears. */
  lemma OneAllocationForLife(
    maxRetries: nat, uploadSteps: set<StepId>, before: seq<Action>, s: System, after: seq<Action>, later: System,
    j: JobId, a: AllocationId)
    requires IsRun(Initial(maxRetries, uploadSteps), before, s) && IsRun(s, after, later)
    requires OwnRow(s.tables, a, j)
    ensures var t, t' := s.tables, later.tables;
            && (forall b :: OwnRow(t', b, j) <==> b == a)
            && OwnRow(t', a, j)
            && t'.allocations[a].proxyId == t.allocations[a].proxyId
            && t'.allocations[a].endpoint == t.allocations[a].endpoint
            && (j in t'.jobs && !IsTerminal(t'.jobs[j].state) ==> IsLive(t'.allocations[a].status))
  {
    ReachedIsOk(maxRetries, uploadSteps, before, s);
    RunIsRun(s, after, later);
    RunsAreTransactionLogs(s, after);
    AllocationIdentityIsPermanent(s.tables, TxLog(s, after), a);
    RunsStayOk(s, after);
    assert OwnRow(later.tables, a, j);
    ReadyJob(later, j);
    assert RowOf(later.tables, j) == Some(a);
  }

  lemma {:induction false} RunsStayOk(s: System, actions: seq<Action>)
    requires SystemOk(s)
    ensures SystemOk(Run(s, actions)) && Run(s, actions).maxRetries == s.maxRetries
  {
    if actions != [] {
      var init, last := actions[..|actions| - 1], actions[|actions| - 1];
      RunsStayOk(s, init);
      NextOk(Run(s, init), last);
      LimitIsFixed(Run(s, init), last);
      assert Run(s, actions) == Next(Run(s, init), last);
    }
  }

  /** A job past PENDING has an allocation, and no job has two. */
  lemma StartedJobsHaveAnAllocation(
    maxRetries: nat, uploadSteps: set<StepId>, actions: seq<Action>, s: System, j: JobId)
    requires IsRun(Initial(maxRetries, uploadSteps), actions, s)
    ensures j in s.tables.jobs && s.tables.jobs[j].state != Pending ==> exists a :: OwnRow(s.tables, a, j)
    ensures forall a, b :: OwnRow(s.tables, a, j) && OwnRow(s.tables, b, j) ==> a == b
  {
    ReachedIsOk(maxRetries, uploadSteps, actions, s);
    ReadyJob(s, j);
  }

  // -------------------------------------------------------------------------------------------
  // The retry budget
  // -------------------------------------------------------------------------------------------

  predicate StateIs(t: Tables, j: JobId, state: JobState) {
    j in t.jobs && t.jobs[j].state == state
  }

  ghost predicate MovesToRunning(s: System, a: Action, j: JobId) {
    StateIs(s.tables, j, RetryPending) && StateIs(Next(s, a).tables, j, Running)
  }

  /** The RETRY_PENDING to RUNNING moves of a run. */
  ghost function RetryMoves(s: System, actions: seq<Action>, j: JobId): nat {
    if actions == [] then 0
    else
      RetryMoves(s, actions[..|actions| - 1], j)
      + if MovesToRunning(Run(s, actions[..|actions| - 1]), actions[|actions| - 1], j) then 1 else 0
  }

  predicate EntersRunning(op: Op, j: JobId) {
    op.TransitionOp? && op.j == j && op.to == Running
  }

  lemma OnlyTransitionsMove(t: Tables, op: Op, j: JobId)
    requires StateIs(t, j, RetryPending) && StateIs(Apply(t, op), j, Running)
    ensures EntersRunning(op, j)
  {
    if !LeavesPoolAlone(op) {
      JobsAreLeftAlone(t, op);
    }
  }

  lemma TerminalizingDoesNotRun(s: System, j: JobId, recovering: bool, now: Time)
    requires JobReady(s, j) && PcOf(s, j) == Terminalizing(recovering)
    ensures var op := TerminalizeStep(s.tables, j, recovering, now).op; op.Some? ==> !EntersRunning(op.value, j)
  {
  }

  lemma OnlyStartsEnterRunning(s: System, j: JobId, event: Event)
    requires JobReady(s, j) && PcOf(s, j) != Idle
    requires StepOf(s, j, event).op.Some? && EntersRunning(StepOf(s, j, event).op.value, j)
    ensures event.Tick? && (PcOf(s, j).Activating? || PcOf(s, j).Resuming?)
  {
    if event.Tick? {
      if InDelivery(PcOf(s, j)) {
        if PcOf(s, j).Terminalizing? {
          TerminalizingDoesNotRun(s, j, PcOf(s, j).recovering, event.now);
        }
        assert StepOf(s, j, event) == DeliveryTick(s, j, event.now);
      } else if InRecovery(PcOf(s, j)) {
        assert StepOf(s, j, event) == RecoveryTick(s, j, event.now);
      } else {
        assert StepOf(s, j, event) == ExecutionTick(s, j, event.now);
      }
    }
  }

  lemma ActivatingTick(s: System, j: JobId, version: nat, now: Time)
    requires PcOf(s, j) == Activating(version)
    ensures Ticked(s, j, now) == Perform(s, j, EnterRunning(s.tables, j, version, now), Tick(now))
  {
  }

  lemma ActivatingCountsMove(s: System, j: JobId, version: nat, now: Time)
    requires JobReady(s, j) && PcOf(s, j) == Activating(version)
    ensures StartsOf(Ticked(s, j, now), j) ==
            StartsOf(s, j) + if MovesToRunning(s, Advance(j, Tick(now)), j) then 1 else 0
  {
    ActivatingTick(s, j, version, now);
    TransitionView(s, j, Running, NO_PATCH, version, now, Executing, Idle, Tick(now));
  }

  lemma OthersCountNothing(s: System, j: JobId, event: Event)
    requires PcOf(s, j) != Idle && !(PcOf(s, j).Activating? && event.Tick?)
    ensures StartsOf(Next(s, Advance(j, event)), j) == StartsOf(s, j)
  {
  }

  lemma OthersMoveNothing(s: System, j: JobId, event: Event)
    requires JobReady(s, j) && PcOf(s, j) != Idle && !(PcOf(s, j).Activating? && event.Tick?)
    ensures !MovesToRunning(s, Advance(j, event), j)
  {
    if MovesToRunning(s, Advance(j, event), j) {
      OnlyTransitionsMove(s.tables, StepOf(s, j, event).op.value, j);
      OnlyStartsEnterRunning(s, j, event);
    }
  }

  lemma AdvanceCountsMoves(s: System, j: JobId, event: Event)
    requires JobReady(s, j) && PcOf(s, j) != Idle
    ensures StartsOf(Next(s, Advance(j, event)), j) ==
            StartsOf(s, j) + if MovesToRunning(s, Advance(j, event), j) then 1 else 0
  {
    if PcOf(s, j).Activating? && event.Tick? {
      ActivatingCountsMove(s, j, PcOf(s, j).version, event.now);
    } else {
      OthersCountNothing(s, j, event);
      OthersMoveNothing(s, j, event);
    }
  }

  lemma RecoverMovesNothing(s: System, j: JobId, now: Time)
    requires PcOf(s, j).Idle?
    ensures !MovesToRunning(s, Recover(j, now), j)
    ensures StartsOf(Next(s, Recover(j, now)), j) == StartsOf(s, j)
  {
    if MovesToRunning(s, Recover(j, now), j) {
      OnlyTransitionsMove(s.tables, RecoverStep(s, j, now).op.value, j);
    }
  }

  lemma IntakeMovesNothing(s: System, step: IntakeStep, j: JobId)
    ensures !MovesToRunning(s, Intake(step), j)
    ensures StartsOf(Next(s, Intake(step)), j) == StartsOf(s, j)
  {
    if MovesToRunning(s, Intake(step), j) {
      OnlyTransitionsMove(s.tables, IntakeStepOf(s, step).op.value, j);
    }
  }

  /** A step of one job leaves every other job, all its rows and its runner exactly as they are. */
  lemma StepsOfOthersChangeNothing(s: System, a: Action, k: JobId, j: JobId)
    requires SystemOk(s) && k != j
    requires a.Advance? || a.Recover? || a.Admit? || a.Resume? || a.Redeliver? || a.ResumeByHand?
    requires a.j == k
    ensures ViewOf(Next(s, a), j) == ViewOf(s, j)
  {
    match a
    case Advance(_, event) =>
      if PcOf(s, k) != Idle {
        ReadyJob(s, k);
        AdvanceOk(s, k, event);
        PerformOk(s, k, StepOf(s, k, event), event);
      }
    case Recover(_, now) =>
      if s.phase == Recovering && PcOf(s, k) == Idle {
        ReadyJob(s, k);
        RecoverStepOk(s, k, now);
        PerformOk(s, k, RecoverStep(s, k, now), Tick(now));
      }
    case Admit(_) => if Next(s, a) != s { JumpView(s, k, Starting, j); }
    case Resume(_) => if Next(s, a) != s { JumpView(s, k, Resuming, j); }
    case Redeliver(_) => if Next(s, a) != s { JumpView(s, k, Delivering, j); }
    case ResumeByHand(_) => if Next(s, a) != s { JumpView(s, k, Delivering, j); }
  }

  /** Handling one job never touches another job's rows, runner or history, in any reachable state. */
  lemma JobsAreIndependent(
    maxRetries: nat, uploadSteps: set<StepId>, actions: seq<Action>, s: System, a: Action, later: System, j: JobId)
    requires IsRun(Initial(maxRetries, uploadSteps), actions, s) && IsRun(s, [a], later)
    requires a.Advance? || a.Recover? || a.Admit? || a.Resume? || a.Redeliver? || a.ResumeByHand?
    requires a.j != j
    ensures ViewOf(later, j) == ViewOf(s, j)
  {
    ReachedIsOk(maxRetries, uploadSteps, actions, s);
    StepsOfOthersChangeNothing(s, a, a.j, j);
    RunIsRun(s, [a], later);
    assert [a][..0] == [] && Run(s, []) == s && Run(s, [a]) == Next(s, a);
  }

  lemma SameViewMovesNothing(s: System, a: Action, j: JobId)
    requires ViewOf(Next(s, a), j) == ViewOf(s, j)
    ensures !MovesToRunning(s, a, j) && StartsOf(Next(s, a), j) == StartsOf(s, j)
  {
  }

  lemma PoolMovesNothing(s: System, op: Op, j: JobId)
    ensures !MovesToRunning(s, Pool(op), j) && StartsOf(Next(s, Pool(op)), j) == StartsOf(s, j)
  {
    if op.SyncOp? || op.ChangeOp? {
      JobsAreLeftAlone(s.tables, op);
    }
  }

  lemma ControlMovesNothing(s: System, a: Action, j: JobId)
    requires TxOf(s, a).None? && !a.Advance? && !a.Recover?
    ensures !MovesToRunning(s, a, j) && StartsOf(Next(s, a), j) == StartsOf(s, j)
  {
  }

  lemma IdleMovesNothing(s: System, a: Action, j: JobId)
    requires Next(s, a) == s
    ensures !MovesToRunning(s, a, j) && StartsOf(Next(s, a), j) == StartsOf(s, j)
  {
  }

  lemma StepCountsMoves(s: System, a: Action, j: JobId)
    requires SystemOk(s)
    ensures StartsOf(Next(s, a), j) == StartsOf(s, j) + if MovesToRunning(s, a, j) then 1 else 0
  {
    match a
    case Advance(k, event) =>
      if k != j {
        StepsOfOthersChangeNothing(s, a, k, j);
        SameViewMovesNothing(s, a, j);
      } else if PcOf(s, j) != Idle {
        ReadyJob(s, j);
        AdvanceCountsMoves(s, j, event);
      } else {
        IdleMovesNothing(s, a, j);
      }
    case Recover(k, now) =>
      if k != j {
        StepsOfOthersChangeNothing(s, a, k, j);
        SameViewMovesNothing(s, a, j);
      } else if PcOf(s, j) == Idle {
        RecoverMovesNothing(s, j, now);
      } else {
        IdleMovesNothing(s, a, j);
      }
    case Intake(step) => IntakeMovesNothing(s, step, j);
    case Pool(op) => PoolMovesNothing(s, op, j);
    case _ => ControlMovesNothing(s, a, j);
  }

  lemma {:induction false} StartsCountMoves(maxRetries: nat, uploadSteps: set<StepId>, actions: seq<Action>, j: JobId)
    ensures var s := Initial(maxRetries, uploadSteps);
            StartsOf(Run(s, actions), j) == RetryMoves(s, actions, j)
  {
    if actions != [] {
      var s, init, last := Initial(maxRetries, uploadSteps), actions[..|actions| - 1], actions[|actions| - 1];
      StartsCountMoves(maxRetries, uploadSteps, init, j);
      RunsAreOk(maxRetries, uploadSteps, init);
      StepCountsMoves(Run(s, init), last, j);
      assert Run(s, actions) == Next(Run(s, init), last);
    }
  }

  /** Over any mix of in-process retries and crash recoveries, also with a crash between the increment
      and the transition, the retry count stays within the budget and pays for every retry. */
  lemma RetryBudgetSurvivesRestarts(
    maxRetries: nat, uploadSteps: set<StepId>, actions: seq<Action>, s: System, j: JobId)
    requires IsRun(Initial(maxRetries, uploadSteps), actions, s)
    ensures var moves := RetryMoves(Initial(maxRetries, uploadSteps), actions, j);
            if j in s.tables.jobs then moves <= s.tables.jobs[j].retryCount <= maxRetries else moves == 0
  {
    ReachedIsOk(maxRetries, uploadSteps, actions, s);
    RunIsRun(Initial(maxRetries, uploadSteps), actions, s);
    StartsCountMoves(maxRetries, uploadSteps, actions, j);
    ReadyJob(s, j);
  }

  // -------------------------------------------------------------------------------------------
  // Exclusive runners, and lost challenges
  // -------------------------------------------------------------------------------------------

  lemma ActivatingRuns(s: System, j: JobId, version: nat, now: Time)
    requires JobReady(s, j) && PcOf(s, j) == Activating(version)
    ensures PcOf(Ticked(s, j, now), j).Executing? && StateIs(Ticked(s, j, now).tables, j, Running)
  {
    ActivatingTick(s, j, version, now);
    EnteredViewOk(ViewOf(s, j), version, now, s.maxRetries, s.everReplaySafe);
    TransitionView(s, j, Running, NO_PATCH, version, now, Executing, Idle, Tick(now));
  }

  lemma StartingActivates(s: System, j: JobId, now: Time)
    requires JobReady(s, j) && PcOf(s, j).Starting?
    ensures PcOf(Ticked(s, j, now), j).Activating?
  {
    LiveRow(s.tables, j);
    ActivatedViewOk(ViewOf(s, j), now, s.maxRetries, s.everReplaySafe);
    var version := s.tables.jobs[j].version;
    assert StepOf(s, j, Tick(now)) == Try(ActivateOp(j, now), Activating(version), Idle);
    ActivateView(s, j, now, Activating(version), Idle, Tick(now));
  }

  /** Because a job has one runner at a time, a started run never meets a job it may not execute: from
      every reachable state it activates the bound allocation and enters RUNNING. */
  lemma StartedRunsEnterRunning(
    maxRetries: nat, uploadSteps: set<StepId>, actions: seq<Action>, s: System, later: System, j: JobId, now: Time)
    requires IsRun(Initial(maxRetries, uploadSteps), actions, s) && PcOf(s, j).Starting?
    requires IsRun(s, [Advance(j, Tick(now)), Advance(j, Tick(now))], later)
    ensures PcOf(later, j).Executing? && StateIs(later.tables, j, Running)
  {
    ReachedIsOk(maxRetries, uploadSteps, actions, s);
    ReadyJob(s, j);
    StartingActivates(s, j, now);
    NextOk(s, Advance(j, Tick(now)));
    ReadyJob(Ticked(s, j, now), j);
    ActivatingRuns(Ticked(s, j, now), j, PcOf(Ticked(s, j, now), j).version, now);
    TwoActions(s, Advance(j, Tick(now)), Advance(j, Tick(now)));
    RunIsRun(s, [Advance(j, Tick(now)), Advance(j, Tick(now))], later);
  }

  /** Without that exclusivity a second run of a RUNNING job would be finalized as a failure: its error
      has no code and does not call itself retryable. */
  lemma ASecondRunWouldFailTheJob(s: System, j: JobId, now: Time)
    requires PcOf(s, j).Starting? && StateIs(s.tables, j, Running)
    ensures PcOf(Ticked(Ticked(s, j, now), j, now), j) == Finalizing(FailureOutcome)
  {
    assert StepOf(s, j, Tick(now)) == GoTo(Failing(PLAIN_ERROR));
    var s1 := Ticked(s, j, now);
    assert StepOf(s1, j, Tick(now)) == GoTo(Finalizing(FailureOutcome));
  }

  lemma ResumingTick(s: System, j: JobId, now: Time)
    requires PcOf(s, j).Resuming?
    ensures Ticked(s, j, now) == Perform(s, j, ResumeStep(s, j, now), Tick(now))
  {
  }

  lemma SurvivingChallengeRuns(s: System, j: JobId, now: Time)
    requires JobReady(s, j) && PcOf(s, j).Resuming? && j in s.contexts
    ensures PcOf(Ticked(s, j, now), j).Executing? && StateIs(Ticked(s, j, now).tables, j, Running)
  {
    LiveRow(s.tables, j);
    ResumingTick(s, j, now);
    var version := s.tables.jobs[j].version;
    EnteredViewOk(ViewOf(s, j), version, now, s.maxRetries, s.everReplaySafe);
    TransitionView(s, j, Running, NO_PATCH, version, now, Executing, Idle, Tick(now));
  }

  lemma LostChallengeThrows(s: System, j: JobId, now: Time)
    requires JobReady(s, j) && PcOf(s, j).Resuming? && j !in s.contexts
    ensures PcOf(Ticked(s, j, now), j) == Failing(PLAIN_ERROR) && Ticked(s, j, now).tables == s.tables
  {
    ResumingTick(s, j, now);
  }

  lemma PlainErrorIsFinalized(s: System, j: JobId, now: Time)
    requires PcOf(s, j) == Failing(PLAIN_ERROR) && j in s.tables.jobs
    ensures PcOf(Ticked(s, j, now), j) == Finalizing(FailureOutcome) && Ticked(s, j, now).tables == s.tables
  {
    assert StepOf(s, j, Tick(now)) == GoTo(Finalizing(FailureOutcome));
  }

  lemma ExecutingWaits(s: System, j: JobId, now: Time)
    requires PcOf(s, j).Executing?
    ensures PcOf(Ticked(s, j, now), j).Executing?
  {
  }

  /** A resumed manual challenge is run again exactly when its context survived; otherwise it goes to the
      ledger as a failure, although the comments call it non-terminal. */
  lemma LostChallengeIsFailed(s: System, j: JobId, now: Time)
    requires SystemOk(s) && PcOf(s, j).Resuming?
    ensures PcOf(Ticked(s, j, now), j).Executing? <==> j in s.contexts
    ensures PcOf(Ticked(Ticked(s, j, now), j, now), j) == Finalizing(FailureOutcome) <==> j !in s.contexts
  {
    ReadyJob(s, j);
    if j in s.contexts {
      SurvivingChallengeRuns(s, j, now);
      ExecutingWaits(Ticked(s, j, now), j, now);
    } else {
      LostChallengeThrows(s, j, now);
      PlainErrorIsFinalized(Ticked(s, j, now), j, now);
    }
  }

  // -------------------------------------------------------------------------------------------
  // What a crash does leave behind
  // -------------------------------------------------------------------------------------------

  lemma RecoveryPassesOverTerminalJobs(s: System, j: JobId, now: Time)
    requires PcOf(s, j).Idle? && j in s.tables.jobs && IsTerminal(s.tables.jobs[j].state)
    ensures ViewOf(Next(s, Recover(j, now)), j) == ViewOf(s, j)
  {
    assert RecoverStep(s, j, now) == GoTo(Idle);
    MoveView(s, j, Idle, Tick(now));
  }

  lemma RestartView(s: System, j: JobId, boot: BootId, configured: bool, replaySafe: bool)
    ensures ViewOf(Next(s, Restart(boot, configured, replaySafe)), j) ==
            ViewOf(s, j).(pc := Idle, hasContext := false, role := NoRole)
  {
  }

  predicate IsHeldReservation(t: Tables, r: ReservationId) {
    r in t.reservations && t.reservations[r].status == Held
  }

  predicate IntakeHolds(intake: IntakePc, r: ReservationId) {
    (intake.HoldingSlot? || intake.CreatedJobPc?) && intake.r == r
  }

  lemma OthersKeepReservation(t: Tables, op: Op, r: ReservationId)
    requires IsHeldReservation(t, r)
    requires !(op.BindOp? && op.r == r) && !(op.GiveBackOp? && op.r == r)
    ensures IsHeldReservation(Apply(t, op), r)
  {
    if LeavesPoolAlone(op) {
      PoolIsLeftAlone(t, op);
    }
  }

  lemma RunnersLeaveReservations(s: System, j: JobId, event: Event)
    ensures StepOf(s, j, event).op.Some? ==>
              !StepOf(s, j, event).op.value.BindOp? && !StepOf(s, j, event).op.value.GiveBackOp?
  {
    if event.Tick? {
      if InDelivery(PcOf(s, j)) {
        assert StepOf(s, j, event) == DeliveryTick(s, j, event.now);
      } else if InRecovery(PcOf(s, j)) {
        assert StepOf(s, j, event) == RecoveryTick(s, j, event.now);
      } else {
        assert StepOf(s, j, event) == ExecutionTick(s, j, event.now);
      }
    }
  }

  lemma IntakeKeepsOrphan(s: System, step: IntakeStep, r: ReservationId)
    requires IsHeldReservation(s.tables, r) && !IntakeHolds(s.intake, r)
    ensures var effect := IntakeStepOf(s, step);
            effect.op.Some? ==>
              && !(effect.op.value.BindOp? && effect.op.value.r == r)
              && !(effect.op.value.GiveBackOp? && effect.op.value.r == r)
              && !IntakeHolds(effect.committed, r) && !IntakeHolds(effect.failed, r)
  {
  }

  lemma OthersLeaveIntake(s: System, a: Action, r: ReservationId)
    requires !IntakeHolds(s.intake, r) && !a.Intake?
    ensures !IntakeHolds(Next(s, a).intake, r)
    ensures TxOf(s, a).Some? ==> !TxOf(s, a).value.BindOp? && !TxOf(s, a).value.GiveBackOp?
  {
    if a.Advance? {
      RunnersLeaveReservations(s, a.j, a.event);
    }
  }

  lemma StepKeepsOrphan(s: System, a: Action, r: ReservationId)
    requires IsHeldReservation(s.tables, r) && !IntakeHolds(s.intake, r)
    ensures IsHeldReservation(Next(s, a).tables, r) && !IntakeHolds(Next(s, a).intake, r)
  {
    EveryStepIsOneTransaction(s, a);
    if a.Intake? {
      IntakeKeepsOrphan(s, a.step, r);
    } else {
      OthersLeaveIntake(s, a, r);
    }
    if TxOf(s, a).Some? {
      OthersKeepReservation(s.tables, TxOf(s, a).value, r);
    }
  }

  lemma {:induction false} OrphanStays(s: System, actions: seq<Action>, r: ReservationId)
    requires IsHeldReservation(s.tables, r) && !IntakeHolds(s.intake, r)
    ensures IsHeldReservation(Run(s, actions).tables, r) && !IntakeHolds(Run(s, actions).intake, r)
  {
    if actions != [] {
      var init, last := actions[..|actions| - 1], actions[|actions| - 1];
      OrphanStays(s, init, r);
      StepKeepsOrphan(Run(s, init), last, r);
      assert Run(s, actions) == Next(Run(s, init), last);
    }
  }

  /** A reservation that its intake cycle lost in a crash stays held in every later state: nothing in
      recovery or in later cycles gives it back, although a comment in the intake cycle expects that. */
  lemma OrphanedReservationStaysHeld(s: System, actions: seq<Action>, later: System, r: ReservationId)
    requires IsHeldReservation(s.tables, r) && !IntakeHolds(s.intake, r)
    requires IsRun(s, actions, later)
    ensures IsHeldReservation(later.tables, r)
  {
    RunIsRun(s, actions, later);
    OrphanStays(s, actions, r);
  }

  // -------------------------------------------------------------------------------------------
  // The pool in the composed system
  // -------------------------------------------------------------------------------------------

  /** The unique indexes hold in every reachable state: the code never has to be saved by one. */
  lemma UniqueIndexesHold(maxRetries: nat, uploadSteps: set<StepId>, actions: seq<Action>, s: System)
    requires IsRun(Initial(maxRetries, uploadSteps), actions, s)
    ensures Constraints(s.tables)
  {
    ReachedIsOk(maxRetries, uploadSteps, actions, s);
  }

  /** Every intake step reserves under the same bound. */
  predicate ReservesWithin(actions: seq<Action>, maxConcurrent: nat) {
    forall i :: 0 <= i < |actions| && actions[i].Intake? && actions[i].step.ReserveStep? ==>
      actions[i].step.maxConcurrent <= maxConcurrent
  }

  lemma ReservedWithin(s: System, a: Action)
    ensures TxOf(s, a).Some? && TxOf(s, a).value.ReserveOp? ==>
              a.Intake? && a.step.ReserveStep? && TxOf(s, a).value.maxConcurrent == a.step.maxConcurrent
  {
    if a.Advance? && a.event.Tick? {
      if InDelivery(PcOf(s, a.j)) {
        assert StepOf(s, a.j, a.event) == DeliveryTick(s, a.j, a.event.now);
      } else if InRecovery(PcOf(s, a.j)) {
        assert StepOf(s, a.j, a.event) == RecoveryTick(s, a.j, a.event.now);
      } else {
        assert StepOf(s, a.j, a.event) == ExecutionTick(s, a.j, a.event.now);
      }
    }
  }

  lemma {:induction false} LogReservesWithin(s: System, actions: seq<Action>, maxConcurrent: nat)
    requires ReservesWithin(actions, maxConcurrent)
    ensures forall i :: 0 <= i < |TxLog(s, actions)| && TxLog(s, actions)[i].ReserveOp? ==>
              TxLog(s, actions)[i].maxConcurrent <= maxConcurrent
  {
    if actions != [] {
      LogReservesWithin(s, actions[..|actions| - 1], maxConcurrent);
      ReservedWithin(Run(s, actions[..|actions| - 1]), actions[|actions| - 1]);
    }
  }

  /** In every reachable state live allocations plus held reservations stay within the bound, and they
      are exactly the owned proxies. */
  lemma SystemConcurrencyIsBounded(
    maxRetries: nat, uploadSteps: set<StepId>, actions: seq<Action>, reached: System, maxConcurrent: nat)
    requires IsRun(Initial(maxRetries, uploadSteps), actions, reached) && ReservesWithin(actions, maxConcurrent)
    ensures OccupiedSlots(reached.tables) == |OwnedProxies(reached.tables)| <= maxConcurrent
  {
    RunIsRun(Initial(maxRetries, uploadSteps), actions, reached);
    var s := Initial(maxRetries, uploadSteps);
    var log := TxLog(s, actions);
    RunsAreTransactionLogs(s, actions);
    LogsAreComposed(s, actions);
    LogReservesWithin(s, actions, maxConcurrent);
    ConcurrencyIsBounded(log, maxConcurrent);
    RunsAreConsistent(log);
    SlotsAreOwnedProxies(ApplyAll(EMPTY_TABLES, log));
  }
}
