/** The inductive invariant of the system: what every job looks like, row by row and control point by
    control point, in every reachable state, crashes included. */
module SystemInvariant {
  import opened Wrappers
  import opened JobStates
  import opened ProxyStates
  import opened CanonicalJson
  import opened Schema
  import opened JobTransactions
  import opened AllocationTransactions
  import opened ReservationTransactions
  import opened LedgerTransactions
  import opened RecoveryTransactions
  import opened RetryPolicy
  import opened Transactions
  import opened Ownership
  import opened History
  import opened SystemModel

  // -------------------------------------------------------------------------------------------
  // Allocation rows: at most one per job, ever
  // -------------------------------------------------------------------------------------------

  predicate OwnRow(t: Tables, a: AllocationId, j: JobId) {
    a in t.allocations && t.allocations[a].jobId == j
  }

  ghost predicate UniqueRows(t: Tables) {
    forall a, b, j :: OwnRow(t, a, j) && OwnRow(t, b, j) ==> a == b
  }

  /** The allocation row of a job, live or released. */
  ghost function RowOf(t: Tables, j: JobId): (r: Option<AllocationId>)
    ensures r.Some? ==> OwnRow(t, r.value, j)
    ensures r.None? ==> forall a :: !OwnRow(t, a, j)
  {
    if exists a :: OwnRow(t, a, j) then
      var a :| OwnRow(t, a, j);
      Some(a)
    else
      None
  }

  ghost function RowFor(t: Tables, j: JobId): Option<Allocation> {
    if RowOf(t, j).Some? then Some(t.allocations[RowOf(t, j).value]) else None
  }

  predicate IsLiveRow(row: Option<Allocation>) {
    row.Some? && IsLive(row.value.status)
  }

  lemma LiveRow(t: Tables, j: JobId)
    requires UniqueRows(t)
    ensures LiveOf(t, j).Some? <==> IsLiveRow(RowFor(t, j))
    ensures LiveOf(t, j).Some? ==> RowOf(t, j) == LiveOf(t, j)
  {
    if RowOf(t, j).Some? && IsLive(RowFor(t, j).value.status) {
      assert LiveFor(t, RowOf(t, j).value, j);
    }
    if LiveOf(t, j).Some? {
      assert OwnRow(t, LiveOf(t, j).value, j);
    }
  }

  lemma SameRows(t: Tables, t': Tables)
    requires UniqueRows(t) && t'.allocations == t.allocations
    ensures UniqueRows(t')
    ensures forall j :: RowFor(t', j) == RowFor(t, j)
  {
    assert forall a, j :: OwnRow(t', a, j) <==> OwnRow(t, a, j);
    forall j ensures RowFor(t', j) == RowFor(t, j) {
      RowsAreTheSame(t, t', j);
    }
  }

  lemma RowsAreTheSame(t: Tables, t': Tables, j: JobId)
    requires UniqueRows(t)
    requires forall a :: OwnRow(t', a, j) <==> OwnRow(t, a, j)
    ensures RowOf(t', j) == RowOf(t, j)
  {
    if RowOf(t, j).Some? {
      assert OwnRow(t', RowOf(t, j).value, j);
    }
    if RowOf(t', j).Some? {
      assert OwnRow(t, RowOf(t', j).value, j);
    }
  }

  /** The row of one job is rewritten. */
  lemma RewrittenRow(t: Tables, t': Tables, a: AllocationId, x: Allocation)
    requires UniqueRows(t) && a in t.allocations && x.jobId == t.allocations[a].jobId
    requires t'.allocations == t.allocations[a := x]
    ensures UniqueRows(t')
    ensures RowFor(t', x.jobId) == Some(x)
    ensures forall k :: k != x.jobId ==> RowFor(t', k) == RowFor(t, k)
  {
    assert forall b, k :: OwnRow(t', b, k) <==> OwnRow(t, b, k);
    assert OwnRow(t', a, x.jobId);
    forall k | k != x.jobId ensures RowFor(t', k) == RowFor(t, k) {
      RowsAreTheSame(t, t', k);
    }
  }

  /** A job without a row gets one. */
  lemma InsertedRow(t: Tables, t': Tables, a: AllocationId, x: Allocation)
    requires UniqueRows(t) && a !in t.allocations && RowFor(t, x.jobId).None?
    requires t'.allocations == t.allocations[a := x]
    ensures UniqueRows(t')
    ensures RowFor(t', x.jobId) == Some(x)
    ensures forall k :: k != x.jobId ==> RowFor(t', k) == RowFor(t, k)
  {
    assert forall b, k :: OwnRow(t', b, k) <==> OwnRow(t, b, k) || (b == a && k == x.jobId);
    assert OwnRow(t', a, x.jobId);
    forall k | k != x.jobId ensures RowFor(t', k) == RowFor(t, k) {
      RowsAreTheSame(t, t', k);
    }
  }

  // -------------------------------------------------------------------------------------------
  // One job, seen from all tables
  // -------------------------------------------------------------------------------------------

  /** What the intake cycle is doing with a job. */
  datatype Role = NoRole | CreatedRole | BoundRole | ClaimedRole

  datatype View = View(
    job: Option<Job>,
    row: Option<Allocation>,
    record: Option<FinalResult>,
    pc: Pc,
    hasContext: bool,
    sends: seq<Send>,
    starts: nat,
    role: Role)

  function RoleOf(intake: IntakePc, j: JobId): Role {
    match intake
    case CreatedJobPc(_, k) => if k == j then CreatedRole else NoRole
    case BoundJobPc(k) => if k == j then BoundRole else NoRole
    case ClaimedJobPc(k) => if k == j then ClaimedRole else NoRole
    case _ => NoRole
  }

  function At<V>(m: map<JobId, V>, j: JobId): Option<V> {
    if j in m then Some(m[j]) else None
  }

  ghost function ViewOf(s: System, j: JobId): View {
    View(At(s.tables.jobs, j), RowFor(s.tables, j), At(s.tables.results, j), PcOf(s, j), j in s.contexts,
         SendsOf(s, j), StartsOf(s, j), RoleOf(s.intake, j))
  }

  predicate InState(v: View, states: set<JobState>) {
    v.job.Some? && v.job.value.state in states
  }

  /** A send without remote effect: never sent, or rejected. */
  predicate Benign(x: Send) {
    x.NotAccepted? && x.certainty != Ambiguous
  }

  predicate AllBenign(sends: seq<Send>) {
    forall i :: 0 <= i < |sends| ==> Benign(sends[i])
  }

  predicate AtMostLastMatters(sends: seq<Send>) {
    sends != [] && AllBenign(sends[..|sends| - 1])
  }

  predicate LastIs(sends: seq<Send>, x: Send) {
    sends != [] && sends[|sends| - 1] == x
  }

  /** An unknown job has left no trace. */
  predicate AbsentOk(v: View) {
    v.job.None? ==>
      && v.row.None? && v.record.None? && v.pc == Idle && v.sends == [] && v.starts == 0
      && v.role == NoRole
  }

  /** Terminal only through an acknowledged result with the same terminal state. */
  predicate JobOk(v: View) {
    v.job.Some? ==>
      && v.job.value.state !in {WaitingForOtp, Cancelled}
      && (IsTerminal(v.job.value.state) ==>
            && v.record.Some?
            && v.record.value.status == Delivered
            && v.record.value.terminalState == v.job.value.state)
  }

  /** An allocation is released only for a terminal job and for the matching reason; every job past
      PENDING has one. */
  predicate RowOk(v: View) {
    && (v.row.Some? ==>
          && v.row.value.status != AllocReleasing
          && (IsLive(v.row.value.status) ==> v.row.value.releaseReason.None?)
          && (!IsLive(v.row.value.status) ==>
                && InState(v, {Completed, FailedFinal})
                && v.row.value.releaseReason == Some(ReleaseReasonFor(v.job.value.state))))
    && (v.job.Some? && v.job.value.state != Pending ==> v.row.Some?)
  }

  /** A result is only written where the job can still reach the state it names. */
  predicate RecordOk(v: View) {
    v.record.Some? ==>
      && v.record.value.terminalState == TerminalStateOf(v.record.value.outcome)
      && v.job.Some?
      && v.record.value.attempts == |v.sends|
      && (!IsTerminal(v.job.value.state) ==>
            || v.job.value.state == Running
            || (v.job.value.state == WaitingForManualChallenge
                && v.record.value.outcome == FailureOutcome
                && !v.hasContext))
  }

  predicate SendsOk(v: View, everReplaySafe: bool) {
    && (v.record.None? ==> v.sends == [])
    && (v.record.Some? ==>
          match v.record.value.status
          case DeliveryPending =>
            !everReplaySafe ==> AllBenign(v.sends) && v.record.value.certainty != Some(Ambiguous)
          case Delivered => LastIs(v.sends, Accepted) && (!everReplaySafe ==> AtMostLastMatters(v.sends))
          case _ => v.sends != [] && (!everReplaySafe ==> AtMostLastMatters(v.sends)))
  }

  /** Retries in progress have been paid for. */
  predicate Paid(v: View) {
    || InState(v, {RetryPending})
    || v.pc.Counted? || v.pc.HeldBack? || v.pc.RecoveryCounted?
  }

  predicate BudgetOk(v: View, maxRetries: nat) {
    v.job.Some? ==>
      && v.job.value.retryCount <= maxRetries
      && v.starts + (if Paid(v) then 1 else 0) <= v.job.value.retryCount
  }

  predicate RoleOk(v: View) {
    match v.role
    case NoRole => true
    case CreatedRole => InState(v, {Pending}) && v.row.None?
    case BoundRole => InState(v, {Pending}) && v.row.Some?
    case ClaimedRole => InState(v, {Claimed})
  }

  predicate RunningUnfinished(v: View) {
    InState(v, {Running}) && v.record.None?
  }

  predicate AtVersion(v: View, version: nat) {
    v.job.Some? && v.job.value.version == version
  }

  predicate HasStatusIn(v: View, status: DeliveryStatus) {
    v.record.Some? && v.record.value.status == status
  }

  /** A manual challenge whose context was lost with the process. */
  predicate LostChallenge(v: View) {
    InState(v, {WaitingForManualChallenge}) && !v.hasContext
  }

  predicate PcOk(v: View, maxRetries: nat) {
    match v.pc
    case Idle => true
    case Starting => InState(v, {WaitingForIp, RetryPending})
    case Activating(version) => InState(v, {WaitingForIp, RetryPending}) && AtVersion(v, version)
    case Executing => RunningUnfinished(v)
    case Resuming => InState(v, {WaitingForManualChallenge})
    case Failing(error) =>
      || RunningUnfinished(v)
      || LostChallenge(v)
      || (InState(v, {WaitingForManualChallenge}) && error.code == Some(ManualChallengeRequired))
    case Counted(version, _) => RunningUnfinished(v) && AtVersion(v, version)
    case HeldBack(version, _) => RunningUnfinished(v) && AtVersion(v, version)
    case Backoff => InState(v, {RetryPending})
    case Finalizing(outcome) => RunningUnfinished(v) || (LostChallenge(v) && outcome == FailureOutcome)
    case Delivering => v.record.Some?
    case Sending => HasStatusIn(v, InFlight) && LastIs(v.sends, Open)
    case Acknowledged(_) => HasStatusIn(v, InFlight) && LastIs(v.sends, Accepted)
    case Undelivered(certainty) =>
      && HasStatusIn(v, InFlight)
      && (LastIs(v.sends, NotAccepted(certainty)) || (certainty == Ambiguous && LastIs(v.sends, Accepted)))
    case Terminalizing(_) => HasStatusIn(v, Delivered)
    case Freeing(_) => InState(v, {Completed, FailedFinal})
    case RecoveryHeld(version) =>
      RunningUnfinished(v) && AtVersion(v, version) && v.job.value.retryCount < maxRetries
    case RecoveryCounted(version) => RunningUnfinished(v) && AtVersion(v, version)
    case Observing(_) => v.job.Some?
  }

  predicate ViewOk(v: View, maxRetries: nat, everReplaySafe: bool) {
    && AbsentOk(v)
    && JobOk(v)
    && RowOk(v)
    && RecordOk(v)
    && SendsOk(v, everReplaySafe)
    && BudgetOk(v, maxRetries)
    && RoleOk(v)
    && PcOk(v, maxRetries)
  }

  ghost predicate SystemOk(s: System) {
    && Consistent(s.tables)
    && JobsOk(s.tables)
    && UniqueRows(s.tables)
    && (s.replaySafe ==> s.everReplaySafe)
    && (forall j :: ViewOk(ViewOf(s, j), s.maxRetries, s.everReplaySafe))
  }

  // -------------------------------------------------------------------------------------------
  // What one transaction does to the rows of a job
  // -------------------------------------------------------------------------------------------

  /** The job whose rows a transaction may change. */
  predicate IsFor(op: Op, j: JobId) {
    match op
    case CreateJobOp(_, _, jobId) => jobId == j
    case ReserveOp(_, _) => false
    case GiveBackOp(_) => false
    case SyncOp(_) => false
    case ChangeOp(_, _) => false
    case _ => op.j == j
  }

  /** Acquiring is never done by the composed runtime, and binding only for jobs without a row. */
  ghost predicate Disciplined(t: Tables, op: Op) {
    !op.AcquireOp? && (op.BindOp? ==> RowFor(t, op.j).None?)
  }

  lemma ActivatedRow(t: Tables, j: JobId, now: Time)
    requires UniqueRows(t)
    ensures var t' := Activate(t, j, now).After(t);
            && UniqueRows(t')
            && (forall k :: k != j ==> RowFor(t', k) == RowFor(t, k))
            && RowFor(t', j) ==
               if IsLiveRow(RowFor(t, j)) then Some(Activated(RowFor(t, j).value, now)) else RowFor(t, j)
  {
    LiveRow(t, j);
    var t' := Activate(t, j, now).After(t);
    if t'.allocations == t.allocations {
      SameRows(t, t');
    } else {
      RewrittenRow(t, t', LiveOf(t, j).value, Activated(RowFor(t, j).value, now));
    }
  }

  lemma HeldRow(t: Tables, j: JobId)
    requires UniqueRows(t)
    ensures var t' := ReserveForRetry(t, j).After(t);
            && UniqueRows(t')
            && (forall k :: k != j ==> RowFor(t', k) == RowFor(t, k))
            && RowFor(t', j) ==
               if IsLiveRow(RowFor(t, j)) then Some(HeldForRetry(RowFor(t, j).value)) else RowFor(t, j)
  {
    LiveRow(t, j);
    var t' := ReserveForRetry(t, j).After(t);
    if LiveOf(t, j).Some? {
      RewrittenRow(t, t', LiveOf(t, j).value, HeldForRetry(RowFor(t, j).value));
    } else {
      SameRows(t, t');
    }
  }

  lemma ReleasedRow(t: Tables, j: JobId, reason: ReleaseReason, now: Time)
    requires UniqueRows(t) && Consistent(t)
    ensures var t' := Release(t, j, reason, now).After(t);
            && UniqueRows(t')
            && (forall k :: k != j ==> RowFor(t', k) == RowFor(t, k))
            && RowFor(t', j) ==
               if j in t.jobs && ReleaseAllowed(t.jobs[j].state, reason) && IsLiveRow(RowFor(t, j)) then
                 Some(Ended(RowFor(t, j).value, reason, now))
               else
                 RowFor(t, j)
  {
    LiveRow(t, j);
    var t' := Release(t, j, reason, now).After(t);
    if j in t.jobs && ReleaseAllowed(t.jobs[j].state, reason) && LiveOf(t, j).Some? {
      assert AllocationMirrored(t, t.allocations[LiveOf(t, j).value]);
      RewrittenRow(t, t', LiveOf(t, j).value, Ended(RowFor(t, j).value, reason, now));
    } else {
      SameRows(t, t');
    }
  }

  lemma BoundRow(t: Tables, r: ReservationId, j: JobId, a: AllocationId)
    requires UniqueRows(t) && RowFor(t, j).None?
    ensures var tx := Bind(t, r, j, a);
            && UniqueRows(tx.After(t))
            && (forall k :: k != j ==> RowFor(tx.After(t), k) == RowFor(t, k))
            && RowFor(tx.After(t), j) ==
               if tx.Commit? then Some(NewAllocation(j, t.reservations[r].proxyId, t.reservations[r].endpoint))
               else None
  {
    var tx := Bind(t, r, j, a);
    if tx.Commit? {
      InsertedRow(t, tx.tables, a, NewAllocation(j, t.reservations[r].proxyId, t.reservations[r].endpoint));
    } else {
      SameRows(t, tx.After(t));
    }
  }

  /** Transactions that touch no allocation row. */
  predicate KeepsRows(op: Op) {
    LeavesPoolAlone(op) || op.ReserveOp? || op.GiveBackOp? || op.SyncOp? || op.ChangeOp?
  }

  lemma RowsAreKept(t: Tables, op: Op)
    requires UniqueRows(t) && KeepsRows(op)
    ensures UniqueRows(Apply(t, op))
    ensures forall j :: RowFor(Apply(t, op), j) == RowFor(t, j)
  {
    if LeavesPoolAlone(op) {
      PoolIsLeftAlone(t, op);
    } else {
      match op
      case ReserveOp(_, _) =>
      case GiveBackOp(_) =>
      case SyncOp(_) =>
      case ChangeOp(_, _) =>
    }
    SameRows(t, Apply(t, op));
  }

  /** Every job has at most one allocation row for life, and a transaction for one job leaves the
      rows of all others alone. */
  lemma OtherJobsAreUntouched(t: Tables, op: Op)
    requires Consistent(t) && UniqueRows(t) && Disciplined(t, op)
    ensures UniqueRows(Apply(t, op))
    ensures forall j :: !IsFor(op, j) ==> RowFor(Apply(t, op), j) == RowFor(t, j)
    ensures forall j :: !IsFor(op, j) ==> At(Apply(t, op).jobs, j) == At(t.jobs, j)
    ensures forall j :: !IsFor(op, j) ==> At(Apply(t, op).results, j) == At(t.results, j)
  {
    forall j | !IsFor(op, j)
      ensures At(Apply(t, op).jobs, j) == At(t.jobs, j) && At(Apply(t, op).results, j) == At(t.results, j)
    {
      OtherJobsKeepJobAndRecord(t, op, j);
    }
    match op
    case ActivateOp(j, now) => ActivatedRow(t, j, now);
    case RetryOp(j) => HeldRow(t, j);
    case ReleaseOp(j, reason, now) => ReleasedRow(t, j, reason, now);
    case BindOp(r, j, a) => BoundRow(t, r, j, a);
    case _ => RowsAreKept(t, op);
  }

  lemma OtherJobsKeepJobAndRecord(t: Tables, op: Op, j: JobId)
    requires !IsFor(op, j)
    ensures At(Apply(t, op).jobs, j) == At(t.jobs, j)
    ensures At(Apply(t, op).results, j) == At(t.results, j)
  {
    if !LeavesPoolAlone(op) {
      JobsAreLeftAlone(t, op);
    }
  }
}
