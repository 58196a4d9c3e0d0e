/** Every transaction of every store as one vocabulary, so that properties can be stated over any
    sequence of transactions, committed or rolled back, with any arguments. */
module Transactions {
  import opened Wrappers
  import opened JobStates
  import opened ProxyStates
  import opened Schema
  import opened ProxyRows
  import opened JobTransactions
  import opened AllocationTransactions
  import opened ReservationTransactions
  import opened PoolTransactions
  import opened LedgerTransactions
  import opened RecoveryTransactions

  datatype Op =
    | CreateJobOp(application: ApplicationId, user: Option<UserId>, jobId: JobId)
    | TransitionOp(j: JobId, to: JobState, patch: Patch, expected: Option<nat>, now: Time)
    | IncrementOp(j: JobId, expected: Option<nat>)
    | AcquireOp(j: JobId, a: AllocationId)
    | ActivateOp(j: JobId, now: Time)
    | RetryOp(j: JobId)
    | ReleaseOp(j: JobId, reason: ReleaseReason, now: Time)
    | ReserveOp(maxConcurrent: int, r: ReservationId)
    | BindOp(r: ReservationId, j: JobId, a: AllocationId)
    | GiveBackOp(r: ReservationId)
    | SyncOp(definitions: seq<Definition>)
    | ChangeOp(p: ProxyId, change: Change)
    | CreateResultOp(j: JobId, n: NormalizedResult)
    | BeginOp(j: JobId)
    | MarkPendingOp(j: JobId, certainty: Certainty)
    | MarkUncertainOp(j: JobId)
    | MarkInterruptedOp(j: JobId)
    | RequeueOp(j: JobId)
    | MarkDeliveredOp(j: JobId, httpStatus: Option<int>, now: Time)
    | RecordOp(j: JobId, boot: BootId, o: Observation)

  ghost function Apply(t: Tables, op: Op): Tables {
    match op
    case CreateJobOp(application, user, jobId) => CreateOrGetJob(t, application, user, jobId).After(t)
    case TransitionOp(j, to, patch, expected, now) => TransitionJob(t, j, to, patch, expected, now).After(t)
    case IncrementOp(j, expected) => IncrementRetry(t, j, expected).After(t)
    case AcquireOp(j, a) => Acquire(t, j, a).After(t)
    case ActivateOp(j, now) => Activate(t, j, now).After(t)
    case RetryOp(j) => ReserveForRetry(t, j).After(t)
    case ReleaseOp(j, reason, now) => Release(t, j, reason, now).After(t)
    case ReserveOp(maxConcurrent, r) => Reserve(t, maxConcurrent, r).After(t)
    case BindOp(r, j, a) => Bind(t, r, j, a).After(t)
    case GiveBackOp(r) => GiveBack(t, r).After(t)
    case SyncOp(definitions) => Sync(t, definitions).After(t)
    case ChangeOp(p, change) => ChangeProxy(t, p, change).After(t)
    case CreateResultOp(j, n) => CreateOrGetResult(t, j, n).After(t)
    case BeginOp(j) => BeginDelivery(t, j).After(t)
    case MarkPendingOp(j, certainty) => MarkPending(t, j, certainty).After(t)
    case MarkUncertainOp(j) => MarkUncertain(t, j).After(t)
    case MarkInterruptedOp(j) => MarkInterrupted(t, j).After(t)
    case RequeueOp(j) => Requeue(t, j).After(t)
    case MarkDeliveredOp(j, httpStatus, now) => MarkDelivered(t, j, httpStatus, now).After(t)
    case RecordOp(j, boot, o) => RecordRestart(t, j, boot, o).After(t)
  }

  /** The tables after a sequence of transactions. */
  ghost function ApplyAll(t: Tables, ops: seq<Op>): Tables {
    if ops == [] then t else Apply(ApplyAll(t, ops[..|ops| - 1]), ops[|ops| - 1])
  }

  /** Operations that leave proxies, allocations and reservations alone. */
  predicate LeavesPoolAlone(op: Op) {
    || op.CreateJobOp? || op.TransitionOp? || op.IncrementOp? || op.CreateResultOp? || op.BeginOp?
    || op.MarkPendingOp? || op.MarkUncertainOp? || op.MarkInterruptedOp? || op.RequeueOp?
    || op.MarkDeliveredOp? || op.RecordOp?
  }

  ghost predicate SamePool(t: Tables, t': Tables) {
    t'.proxies == t.proxies && t'.allocations == t.allocations && t'.reservations == t.reservations
  }

  ghost predicate SameJobs(t: Tables, t': Tables) {
    t'.jobs == t.jobs && t'.claims == t.claims && t'.results == t.results && t'.recoveries == t.recoveries
  }

  lemma PoolIsLeftAlone(t: Tables, op: Op)
    requires LeavesPoolAlone(op)
    ensures SamePool(t, Apply(t, op))
  {
  }

  lemma JobsAreLeftAlone(t: Tables, op: Op)
    requires !LeavesPoolAlone(op)
    ensures SameJobs(t, Apply(t, op))
  {
  }
}
