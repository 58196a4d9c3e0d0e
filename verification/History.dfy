/** What any sequence of transactions leaves true of rows over time: job versions and claims, the
    immutable part of the ledger, and the identity of allocations. */
module History {
  import opened Wrappers
  import opened JobStates
  import opened ProxyStates
  import opened Schema
  import opened JobTransactions
  import opened AllocationTransactions
  import opened ReservationTransactions
  import opened LedgerTransactions
  import opened RecoveryTransactions
  import opened Transactions

  // -------------------------------------------------------------------------------------------
  // Jobs and claims
  // -------------------------------------------------------------------------------------------

  /** One claim per job, for the same application, active exactly while the job is not terminal;
      completedAt marks terminal jobs and startedAt every job that has run. */
  predicate JobRowOk(job: Job, claim: Claim) {
    && claim.applicationId == job.applicationId
    && (claim.active <==> !IsTerminal(job.state))
    && (claim.releasedAt.Some? <==> IsTerminal(job.state))
    && (job.completedAt.Some? <==> IsTerminal(job.state))
    && (PastStart(job.state) ==> job.startedAt.Some?)
    && job.version >= 1
  }

  ghost predicate JobsOk(t: Tables) {
    && t.claims.Keys == t.jobs.Keys
    && UniqueApplications(t)
    && forall j :: j in t.jobs ==> JobRowOk(t.jobs[j], t.claims[j])
  }

  lemma CreateKeepsJobsOk(t: Tables, application: ApplicationId, user: Option<UserId>, jobId: JobId)
    requires JobsOk(t)
    ensures JobsOk(CreateOrGetJob(t, application, user, jobId).After(t))
  {
    CreationKeepsApplicationsUnique(t, application, user, jobId);
  }

  lemma TransitionKeepsJobsOk(t: Tables, j: JobId, to: JobState, patch: Patch, expected: Option<nat>, now: Time)
    requires JobsOk(t)
    ensures JobsOk(TransitionJob(t, j, to, patch, expected, now).After(t))
  {
    var tx := TransitionJob(t, j, to, patch, expected, now);
    if tx.Commit? {
      assert JobRowOk(t.jobs[j], t.claims[j]);
      assert JobRowOk(tx.tables.jobs[j], tx.tables.claims[j]);
      SameApplicationsStayUnique(t, tx.tables);
    }
  }

  lemma IncrementKeepsJobsOk(t: Tables, j: JobId, expected: Option<nat>)
    requires JobsOk(t)
    ensures JobsOk(IncrementRetry(t, j, expected).After(t))
  {
    assert j in t.jobs ==> JobRowOk(t.jobs[j], t.claims[j]);
    SameApplicationsStayUnique(t, IncrementRetry(t, j, expected).After(t));
  }

  lemma SameJobsStayOk(t: Tables, t': Tables)
    requires JobsOk(t) && t'.jobs == t.jobs && t'.claims == t.claims
    ensures JobsOk(t')
  {
    SameApplicationsStayUnique(t, t');
    assert forall j :: j in t.jobs ==> JobRowOk(t.jobs[j], t.claims[j]);
  }

  predicate TouchesJobs(op: Op) {
    op.CreateJobOp? || op.TransitionOp? || op.IncrementOp?
  }

  lemma OthersLeaveJobs(t: Tables, op: Op)
    requires !TouchesJobs(op)
    ensures Apply(t, op).jobs == t.jobs && Apply(t, op).claims == t.claims
  {
  }

  lemma TransactionsKeepJobsOk(t: Tables, op: Op)
    requires JobsOk(t)
    ensures JobsOk(Apply(t, op))
  {
    match op
    case CreateJobOp(application, user, jobId) => CreateKeepsJobsOk(t, application, user, jobId);
    case TransitionOp(j, to, patch, expected, now) => TransitionKeepsJobsOk(t, j, to, patch, expected, now);
    case IncrementOp(j, expected) => IncrementKeepsJobsOk(t, j, expected);
    case _ =>
      OthersLeaveJobs(t, op);
      SameJobsStayOk(t, Apply(t, op));
  }

  /** The committed updates of a job in a run: transitions and retry increments that went through. */
  ghost function CommittedUpdates(t: Tables, ops: seq<Op>, j: JobId): nat {
    if ops == [] then 0
    else
      CommittedUpdates(t, ops[..|ops| - 1], j)
      + if Updates(ApplyAll(t, ops[..|ops| - 1]), ops[|ops| - 1], j) then 1 else 0
  }

  ghost predicate Updates(t: Tables, op: Op, j: JobId) {
    match op
    case TransitionOp(k, to, patch, expected, now) => k == j && TransitionJob(t, k, to, patch, expected, now).Commit?
    case IncrementOp(k, expected) => k == j && IncrementRetry(t, k, expected).Commit?
    case _ => false
  }

  lemma OneTransactionOnAJob(t: Tables, op: Op, j: JobId)
    requires j in t.jobs
    ensures j in Apply(t, op).jobs
    ensures if Updates(t, op, j) then Apply(t, op).jobs[j].version == t.jobs[j].version + 1
            else Apply(t, op).jobs[j] == t.jobs[j]
  {
    if !TouchesJobs(op) {
      OthersLeaveJobs(t, op);
    }
  }

  /** Over any run, one job and one claim per application, the row invariants hold, and the version is
      one plus the number of committed updates. */
  lemma {:induction false} JobHistory(ops: seq<Op>)
    ensures var t := ApplyAll(EMPTY_TABLES, ops);
            && JobsOk(t)
            && forall j :: j in t.jobs ==> t.jobs[j].version == 1 + CommittedUpdates(EMPTY_TABLES, ops, j)
  {
    if ops != [] {
      var init, op := ops[..|ops| - 1], ops[|ops| - 1];
      var t := ApplyAll(EMPTY_TABLES, init);
      JobHistory(init);
      TransactionsKeepJobsOk(t, op);
      forall j | j in Apply(t, op).jobs
        ensures Apply(t, op).jobs[j].version == 1 + CommittedUpdates(EMPTY_TABLES, ops, j)
      {
        OneVersionStep(t, op, j);
        if j !in t.jobs {
          NoUpdatesBeforeCreation(init, j);
        }
      }
    }
  }

  /** A job is created with version 1, and one transaction adds one exactly when it updates the job. */
  lemma OneVersionStep(t: Tables, op: Op, j: JobId)
    requires j in Apply(t, op).jobs
    ensures Apply(t, op).jobs[j].version ==
            (if j in t.jobs then t.jobs[j].version else 1) + (if Updates(t, op, j) then 1 else 0)
  {
    if j in t.jobs {
      OneTransactionOnAJob(t, op, j);
    } else if !TouchesJobs(op) {
      OthersLeaveJobs(t, op);
    }
  }

  lemma {:induction false} NoUpdatesBeforeCreation(ops: seq<Op>, j: JobId)
    requires j !in ApplyAll(EMPTY_TABLES, ops).jobs
    ensures CommittedUpdates(EMPTY_TABLES, ops, j) == 0
  {
    if ops != [] {
      var t := ApplyAll(EMPTY_TABLES, ops[..|ops| - 1]);
      if j in t.jobs { OneTransactionOnAJob(t, ops[|ops| - 1], j); }
      NoUpdatesBeforeCreation(ops[..|ops| - 1], j);
    }
  }

  /** Whatever runs in between, an unchanged version means an unchanged row. */
  lemma {:induction false} VersionDeterminesRow(t: Tables, ops: seq<Op>, j: JobId)
    requires j in t.jobs
    ensures j in ApplyAll(t, ops).jobs
    ensures ApplyAll(t, ops).jobs[j].version >= t.jobs[j].version
    ensures ApplyAll(t, ops).jobs[j].version == t.jobs[j].version ==> ApplyAll(t, ops).jobs[j] == t.jobs[j]
  {
    if ops != [] {
      VersionDeterminesRow(t, ops[..|ops| - 1], j);
      OneTransactionOnAJob(ApplyAll(t, ops[..|ops| - 1]), ops[|ops| - 1], j);
    }
  }

  /** An expectedVersion write goes through only if nothing changed the job since the read. */
  lemma ExpectedVersionSeesTheReadRow(t: Tables, ops: seq<Op>, j: JobId, to: JobState, patch: Patch, now: Time)
    requires j in t.jobs
    ensures var later := ApplyAll(t, ops);
            && j in later.jobs
            && (TransitionJob(later, j, to, patch, Some(t.jobs[j].version), now).Commit? <==>
                  later.jobs[j] == t.jobs[j] && CanTransition(t.jobs[j].state, to))
  {
    VersionDeterminesRow(t, ops, j);
  }

  // -------------------------------------------------------------------------------------------
  // The ledger
  // -------------------------------------------------------------------------------------------

  /** What a ledger row says for ever, and how its status may move. */
  predicate LedgerRowEvolves(before: FinalResult, after: FinalResult) {
    && after.applicationId == before.applicationId
    && after.outcome == before.outcome
    && after.terminalState == before.terminalState
    && after.payload == before.payload
    && after.digest == before.digest
    && after.attempts >= before.attempts
    && (before.status == Delivered ==> after == before)
  }

  predicate TouchesLedger(op: Op) {
    || op.CreateResultOp? || op.BeginOp? || op.MarkPendingOp? || op.MarkUncertainOp? || op.MarkInterruptedOp?
    || op.RequeueOp? || op.MarkDeliveredOp?
  }

  lemma OthersLeaveLedger(t: Tables, op: Op)
    requires !TouchesLedger(op)
    ensures Apply(t, op).results == t.results
  {
  }

  ghost predicate LedgerStays(t: Tables, t': Tables, j: JobId)
    requires j in t.results
  {
    j in t'.results && LedgerRowEvolves(t.results[j], t'.results[j])
  }

  lemma RewritingEvolves(t: Tables, t': Tables, k: JobId, record: FinalResult, j: JobId)
    requires j in t.results && t'.results == t.results[k := record]
    requires k in t.results ==> LedgerRowEvolves(t.results[k], record)
    ensures LedgerStays(t, t', j)
  {
  }

  lemma CreationEvolves(t: Tables, k: JobId, n: NormalizedResult, j: JobId)
    requires j in t.results
    ensures LedgerStays(t, CreateOrGetResult(t, k, n).After(t), j)
  {
  }

  lemma BeginningEvolves(t: Tables, k: JobId, j: JobId)
    requires j in t.results
    ensures LedgerStays(t, BeginDelivery(t, k).After(t), j)
  {
  }

  lemma AcknowledgingEvolves(t: Tables, k: JobId, httpStatus: Option<int>, now: Time, j: JobId)
    requires j in t.results
    ensures LedgerStays(t, MarkDelivered(t, k, httpStatus, now).After(t), j)
  {
    var tx := MarkDelivered(t, k, httpStatus, now);
    if tx.Commit? {
      RewritingEvolves(t, tx.tables, k, tx.value, j);
    }
  }

  lemma FailingEvolves(t: Tables, k: JobId, certainty: Certainty, j: JobId)
    requires j in t.results
    ensures LedgerStays(t, MarkPending(t, k, certainty).After(t), j)
    ensures LedgerStays(t, MarkUncertain(t, k).After(t), j)
  {
    if HasStatus(t, k, InFlight) {
      RewritingEvolves(t, MarkPending(t, k, certainty).tables, k, MarkPending(t, k, certainty).value, j);
      RewritingEvolves(t, MarkUncertain(t, k).tables, k, MarkUncertain(t, k).value, j);
    }
  }

  lemma RequeueingEvolves(t: Tables, k: JobId, j: JobId)
    requires j in t.results
    ensures LedgerStays(t, Requeue(t, k).After(t), j)
  {
    if HasStatus(t, k, Uncertain) {
      RewritingEvolves(t, Requeue(t, k).tables, k, Requeue(t, k).value, j);
    }
  }

  lemma LedgerTransactionOnARow(t: Tables, op: Op, j: JobId)
    requires TouchesLedger(op) && j in t.results
    ensures LedgerStays(t, Apply(t, op), j)
  {
    match op
    case CreateResultOp(k, n) => CreationEvolves(t, k, n, j);
    case BeginOp(k) => BeginningEvolves(t, k, j);
    case MarkDeliveredOp(k, httpStatus, now) => AcknowledgingEvolves(t, k, httpStatus, now, j);
    case MarkPendingOp(k, certainty) => FailingEvolves(t, k, certainty, j);
    case MarkUncertainOp(k) => FailingEvolves(t, k, Ambiguous, j);
    case MarkInterruptedOp(k) => FailingEvolves(t, k, Ambiguous, j);
    case RequeueOp(k) => RequeueingEvolves(t, k, j);
  }

  lemma OneTransactionOnALedgerRow(t: Tables, op: Op, j: JobId)
    requires j in t.results
    ensures j in Apply(t, op).results && LedgerRowEvolves(t.results[j], Apply(t, op).results[j])
  {
    if TouchesLedger(op) {
      LedgerTransactionOnARow(t, op, j);
    } else {
      OthersLeaveLedger(t, op);
    }
  }

  /** Once written, the outcome, the terminal state, the payload and its digest never change, and a
      DELIVERED row never changes at all. */
  lemma {:induction false} LedgerIsAppendOnly(t: Tables, ops: seq<Op>, j: JobId)
    requires j in t.results
    ensures j in ApplyAll(t, ops).results
    ensures LedgerRowEvolves(t.results[j], ApplyAll(t, ops).results[j])
  {
    if ops != [] {
      LedgerIsAppendOnly(t, ops[..|ops| - 1], j);
      OneTransactionOnALedgerRow(ApplyAll(t, ops[..|ops| - 1]), ops[|ops| - 1], j);
    }
  }

  // -------------------------------------------------------------------------------------------
  // Allocations
  // -------------------------------------------------------------------------------------------

  predicate AllocationEvolves(before: Allocation, after: Allocation) {
    && after.jobId == before.jobId
    && after.proxyId == before.proxyId
    && after.endpoint == before.endpoint
    && (!IsLive(before.status) ==> after == before)
    && (before.releaseReason.Some? ==> after.releaseReason == before.releaseReason)
  }

  lemma OneTransactionOnAnAllocation(t: Tables, op: Op, a: AllocationId)
    requires a in t.allocations
    ensures a in Apply(t, op).allocations && AllocationEvolves(t.allocations[a], Apply(t, op).allocations[a])
  {
    if LeavesPoolAlone(op) {
      PoolIsLeftAlone(t, op);
    }
  }

  /** An allocation row keeps its job, proxy, ip and port for ever, and a released one never changes. */
  lemma {:induction false} AllocationIdentityIsPermanent(t: Tables, ops: seq<Op>, a: AllocationId)
    requires a in t.allocations
    ensures a in ApplyAll(t, ops).allocations
    ensures AllocationEvolves(t.allocations[a], ApplyAll(t, ops).allocations[a])
  {
    if ops != [] {
      AllocationIdentityIsPermanent(t, ops[..|ops| - 1], a);
      OneTransactionOnAnAllocation(ApplyAll(t, ops[..|ops| - 1]), ops[|ops| - 1], a);
    }
  }
}
