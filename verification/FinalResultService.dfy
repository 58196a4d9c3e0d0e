/** Delivering a recorded result and terminalizing its job (src/results/final-result-service.js). */
module FinalResultServices {
  import opened Wrappers
  import opened JobStates
  import opened ProxyStates
  import opened CanonicalJson
  import opened Schema
  import opened JobTransactions
  import opened AllocationTransactions
  import opened LedgerTransactions
  import opened Transactions
  import opened SystemModel
  import opened Ownership
  import opened SystemInvariant
  import opened SystemSteps
  import opened Runtimes

  /** The Portal's answer to a send: an acknowledgement, or an error with what is known about the
      request. */
  datatype Answer = Acknowledge(httpStatus: Option<int>) | Fail(certainty: Certainty)

  /** A job is finished when it is in the state its result names and owns no IP. */
  ghost predicate Finished(t: Tables, j: JobId) {
    && j in t.jobs && j in t.results
    && t.jobs[j].state == t.results[j].terminalState
    && LiveOf(t, j).None?
  }

  /** finalizeDeliveredRecord, first half: the job moves to the state its result names. */
  function Terminalized(t: Tables, j: JobId, now: Time): Tx<Job>
    requires j in t.results
  {
    var record := t.results[j];
    if j !in t.jobs then
      Rollback(JobNotFound)
    else if IsTerminal(t.jobs[j].state) then
      if t.jobs[j].state == record.terminalState then Commit(t, t.jobs[j]) else Rollback(FinalResultConflict)
    else
      TransitionJob(t, j, record.terminalState, TerminalPatch(record), Some(t.jobs[j].version), now)
  }

  /** finalizeDeliveredRecord, second half: the IP is released for the reason that fits the result. */
  ghost function Freed(t: Tables, j: JobId, now: Time): Tx<ReleaseOutcome>
    requires j in t.results
  {
    Release(t, j, ReleaseReasonFor(t.results[j].terminalState), now)
  }

  /** finalizeDeliveredRecord: the terminal state, then the release of the IP. */
  ghost function Finalized(t: Tables, j: JobId, now: Time): Tables
    requires j in t.results
  {
    match Terminalized(t, j, now)
    case Rollback(_) => t
    case Commit(t1, _) => Freed(t1, j, now).After(t1)
  }

  /** Both halves go through. */
  ghost predicate Finalizes(t: Tables, j: JobId, now: Time)
    requires j in t.results
  {
    Terminalized(t, j, now).Commit? && Freed(Terminalized(t, j, now).tables, j, now).Commit?
  }

  /** Whether a delivered result can be made final: its job is in the state it names, or can legally move there,
      and the IP that the job still has is known to the pool. */
  ghost predicate CanFinish(t: Tables, j: JobId, terminalState: JobState) {
    && j in t.jobs && terminalState in {Completed, FailedFinal}
    && (t.jobs[j].state == terminalState || CanTransition(t.jobs[j].state, terminalState))
    && (LiveOf(t, j).Some? ==> t.allocations[LiveOf(t, j).value].proxyId in t.proxies)
  }

  /** That is when both halves go through. */
  lemma FinalizesWhenItCanFinish(t: Tables, j: JobId, now: Time)
    requires j in t.results
    ensures Finalizes(t, j, now) <==> CanFinish(t, j, t.results[j].terminalState)
  {
    if Terminalized(t, j, now).Commit? {
      SameLiveOf(t, Terminalized(t, j, now).tables, j);
    }
  }

  lemma SameJobsSameFinish(t: Tables, t': Tables, j: JobId, terminalState: JobState)
    requires t'.jobs == t.jobs && t'.allocations == t.allocations && t'.proxies == t.proxies
    ensures CanFinish(t', j, terminalState) <==> CanFinish(t, j, terminalState)
  {
    SameLiveOf(t, t', j);
  }

  /** In every reachable state a recorded result can be made final. */
  lemma ReachedCanFinish(maxRetries: nat, uploadSteps: set<StepId>, log: seq<Action>, s: System, j: JobId)
    requires IsRun(Initial(maxRetries, uploadSteps), log, s) && j in s.tables.results
    ensures CanFinish(s.tables, j, s.tables.results[j].terminalState)
  {
    RunIsRun(Initial(maxRetries, uploadSteps), log, s);
    RunsAreOk(maxRetries, uploadSteps, log);
    ReadyJob(s, j);
    if LiveOf(s.tables, j).Some? {
      assert AllocationMirrored(s.tables, s.tables.allocations[LiveOf(s.tables, j).value]);
    }
  }

  function AfterFreeing(job: Job, recovering: bool): Pc {
    if recovering then Observing(ObservationOf(job, FinalResultDelivered, None)) else Idle
  }

  /** Then the job is finished; only its own rows and the proxy rows differ, and the ledger does not. */
  lemma FinalizingFinishes(t: Tables, j: JobId, now: Time)
    requires j in t.results && Finalizes(t, j, now)
    ensures var t' := Finalized(t, j, now);
            && t'.results == t.results
            && j in t'.jobs && t'.jobs[j].state == t.results[j].terminalState
            && (UniqueLiveAllocations(t) ==> Finished(t', j))
  {
    var t1 := Terminalized(t, j, now).tables;
    if UniqueLiveAllocations(t) {
      SameLiveAllocations(t, t1);
      ReleaseFrees(t1, j, ReleaseReasonFor(t.results[j].terminalState), now);
    }
  }

  /** What making a result final means for the rows: a job that was not there yet ends in the state of its result, with
      the time and, for a failure, with its code; and the IP it had is released for that reason. */
  lemma FinalizingTold(t: Tables, j: JobId, now: Time)
    requires j in t.results && Finalizes(t, j, now)
    ensures var t', row := Finalized(t, j, now), t.results[j];
            && j in t.jobs && j in t'.jobs && t'.jobs == t.jobs[j := t'.jobs[j]]
            && (t.jobs[j].state in {Completed, FailedFinal, Cancelled} ==> t'.jobs[j] == t.jobs[j])
            && (t.jobs[j].state !in {Completed, FailedFinal, Cancelled} ==>
                  && t'.jobs[j].state == row.terminalState && t'.jobs[j].completedAt == Some(now)
                  && t'.jobs[j].retryCount == t.jobs[j].retryCount && t'.jobs[j].currentStep == t.jobs[j].currentStep
                  && t'.jobs[j].failureCode ==
                     (if row.terminalState != FailedFinal then t.jobs[j].failureCode
                      else if row.code.Some? then row.code else Some(FinalResultFailure)))
            && (LiveOf(t, j).Some? ==>
                  var a := LiveOf(t, j).value;
                  && a in t'.allocations && t'.allocations[a].status == AllocReleased
                  && t'.allocations[a].releasedAt.Some?
                  && (t.allocations[a].releaseReason.None? ==>
                        t'.allocations[a].releaseReason ==
                        Some(if row.terminalState == Completed then JobCompleted else JobFailedFinal)))
  {
    SameLiveOf(t, Terminalized(t, j, now).tables, j);
  }

  lemma FreeingKeepsJobs(t: Tables, j: JobId, now: Time)
    requires j in t.results
    ensures Freed(t, j, now).After(t).jobs == t.jobs
  {
  }

  lemma TerminalizedIsTheJob(t: Tables, j: JobId, now: Time)
    requires j in t.results && Terminalized(t, j, now).Commit?
    ensures var tx := Terminalized(t, j, now); j in tx.tables.jobs && tx.value == tx.tables.jobs[j]
  {
  }

  lemma FinalizingKeepsLedger(t: Tables, j: JobId, now: Time)
    requires j in t.results
    ensures Finalized(t, j, now).results == t.results
  {
  }

  /** Whether a recorded result may go towards a send: there is a contract, and an earlier ambiguous send
      is repeated only under idempotent replay. */
  predicate GateOpen(record: FinalResult, configured: bool, replaySafe: bool) {
    && configured
    && (record.status == Uncertain ==> replaySafe)
    && (record.status == DeliveryPending && record.certainty == Some(Ambiguous) ==> replaySafe)
  }

  /** Whether delivering a recorded result reaches the Portal. */
  predicate Reaches(record: FinalResult, configured: bool, replaySafe: bool, hasIp: bool) {
    && record.status in {DeliveryPending, Uncertain}
    && GateOpen(record, configured, replaySafe)
    && hasIp
  }

  /** Whether a recorded result is delivered afterwards: it was, or it is sent and validly acknowledged. */
  predicate Delivers(record: FinalResult, configured: bool, replaySafe: bool, hasIp: bool, answer: Answer) {
    || record.status == Delivered
    || (Reaches(record, configured, replaySafe, hasIp) && answer.Acknowledge? && ValidHttpStatus(answer.httpStatus))
  }

  /** Why a result is not delivered. */
  function RefusalOf(record: FinalResult, configured: bool, replaySafe: bool, hasIp: bool, answer: Answer): Error {
    if !configured then ResultNotConfigured
    else if !GateOpen(record, configured, replaySafe) then DeliveryUncertain
    else if !Reaches(record, configured, replaySafe, hasIp) then FinalResultConflict
    else if answer.Fail? then PortalFailure(answer.certainty)
    else InvalidArgument
  }

  function Requeued(record: FinalResult): FinalResult {
    if record.status == Uncertain then record.(status := DeliveryPending) else record
  }

  function Begun(record: FinalResult): FinalResult {
    record.(status := InFlight, attempts := record.attempts + 1, certainty := None)
  }

  function Answered(sends: seq<Send>, answer: Answer): seq<Send>
    requires sends != []
  {
    sends[|sends| - 1 := if answer.Fail? then NotAccepted(answer.certainty) else Accepted]
  }

  /** The row after a send that was not acknowledged. */
  function Unacknowledged(record: FinalResult, certainty: Certainty, replaySafe: bool): FinalResult {
    if certainty != Ambiguous || replaySafe then record.(status := DeliveryPending, certainty := Some(certainty))
    else record.(status := Uncertain, certainty := Some(Ambiguous))
  }

  /** A delivery changes how far the result got, not what it is. */
  lemma DeliveryKeepsTheResult(
    before: FinalResult, after: FinalResult, sent: seq<Send>, sends: seq<Send>, reaches: bool, gateOpen: bool,
    replaySafe: bool, answer: Answer, delivered: bool)
    requires DeliveryDone(before, after, sent, sends, reaches, gateOpen, replaySafe, answer, delivered)
    ensures after.digest == before.digest && after.terminalState == before.terminalState
    ensures after.outcome == before.outcome && after.payload == before.payload
  {
  }

  /** With the unique index in place, a release leaves the job without a live allocation. */
  lemma ReleaseFrees(t: Tables, j: JobId, reason: ReleaseReason, now: Time)
    requires UniqueLiveAllocations(t) && Release(t, j, reason, now).Commit?
    ensures LiveOf(Release(t, j, reason, now).tables, j).None?
  {
    var t' := Release(t, j, reason, now).tables;
    if LiveOf(t', j).Some? {
      var a := LiveOf(t', j).value;
      assert LiveFor(t, a, j);
    }
  }

  lemma DeliveringTick(s: System, j: JobId, now: Time)
    requires PcOf(s, j).Delivering?
    ensures StepOf(s, j, Tick(now)) == DeliverStep(s, j)
  {
  }

  /** A result that recovery reports neither as pending nor as uncertain. */
  predicate IsUnreported(t: Tables, j: JobId) {
    j in t.jobs && j in t.results && !IsReportable(t, j)
  }

  datatype Delivery = Delivery(job: Job, reused: bool)

  /** What one delivery leaves in the ledger and in the history of sends. */
  ghost predicate DeliveryDone(
    before: FinalResult, after: FinalResult, sent: seq<Send>, sends: seq<Send>, reaches: bool, gateOpen: bool,
    replaySafe: bool, answer: Answer, delivered: bool)
  {
    if before.status == Delivered then
      after == before && sends == sent && delivered
    else if !reaches then
      after == (if gateOpen then Requeued(before) else before) && sends == sent && !delivered
    else
      var begun := Begun(Requeued(before));
      && sends == Answered(sent + [Open], answer)
      && (delivered <==> answer.Acknowledge? && ValidHttpStatus(answer.httpStatus))
      && (if delivered then
            after == begun.(status := Delivered, deliveredAt := after.deliveredAt, httpStatus := answer.httpStatus)
          else
            after == Unacknowledged(begun, if answer.Fail? then answer.certainty else Ambiguous, replaySafe))
  }

  /** Every other job is there as before, and has an IP as before. */
  ghost predicate OthersKeepJobs(t: Tables, t': Tables, j: JobId) {
    forall k :: k != j ==> (k in t'.jobs <==> k in t.jobs) && (LiveOf(t', k).Some? <==> LiveOf(t, k).Some?)
  }

  lemma SameAllocationsKeepOthers(t: Tables, t': Tables, j: JobId)
    requires t'.allocations == t.allocations && t'.jobs.Keys == t.jobs.Keys
    ensures OthersKeepJobs(t, t', j)
  {
    forall k ensures LiveOf(t', k) == LiveOf(t, k) {
      SameLiveOf(t, t', k);
    }
  }

  lemma FinalizingKeepsOthers(t: Tables, j: JobId, now: Time)
    requires j in t.results
    ensures OthersKeepJobs(t, Finalized(t, j, now), j)
  {
    var t1 := Terminalized(t, j, now).After(t);
    SameAllocationsKeepOthers(t, t1, j);
    var t' := Finalized(t, j, now);
    forall k | k != j ensures LiveOf(t', k).Some? <==> LiveOf(t1, k).Some? {
      assert forall a :: LiveFor(t', a, k) <==> LiveFor(t1, a, k);
    }
  }

  /** What a delivery leaves and what it answers: success exactly when the row is delivered and its job can be
      finished, with that job, and with whether the row was delivered before. */
  ghost predicate DeliversAs(
    t: Tables, t': Tables, sent: seq<Send>, sends: seq<Send>, j: JobId, configured: bool, replaySafe: bool,
    answer: Answer, r: Result<Delivery, Error>)
    requires j in t.results && j in t'.results
  {
    var before, after, hasIp := t.results[j], t'.results[j], LiveOf(t, j).Some?;
    var delivers := Delivers(before, configured, replaySafe, hasIp, answer);
    && t'.results == t.results[j := after]
    && OthersKeepJobs(t, t', j)
    && DeliveryDone(before, after, sent, sends, Reaches(before, configured, replaySafe, hasIp),
                    GateOpen(before, configured, replaySafe), replaySafe, answer, delivers)
    && (after.status == Delivered <==> delivers)
    && (r.Success? <==> delivers && CanFinish(t, j, before.terminalState))
    && (!delivers ==>
          t'.jobs == t.jobs && r.error == RefusalOf(before, configured, replaySafe, hasIp, answer))
    && (r.Success? ==>
          && r.value.reused == (before.status == Delivered)
          && j in t'.jobs && r.value.job == t'.jobs[j]
          && r.value.job.state == after.terminalState
          && (UniqueLiveAllocations(t) ==> Finished(t', j)))
  }

  /** The same under a quantifier, so that only proofs that ask for it have to look at it. */
  ghost predicate DeliveredAs(
    t: Tables, t': Tables, sent: seq<Send>, sends: seq<Send>, j: JobId, configured: bool, replaySafe: bool,
    answer: Answer, r: Result<Delivery, Error>)
  {
    forall x {:trigger Asked(x)} :: Asked(x) ==>
      && j in t.results && j in t'.results
      && DeliversAs(t, t', sent, sends, j, configured, replaySafe, answer, r)
  }

  /** What the sending part leaves and answers: the row as far as it got, and nothing else; and why it was not
      acknowledged. */
  ghost predicate SentAs(
    t: Tables, t': Tables, sent: seq<Send>, sends: seq<Send>, j: JobId, configured: bool, replaySafe: bool,
    answer: Answer, r: Result<FinalResult, Error>)
  {
    forall x {:trigger Asked(x)} :: Asked(x) ==>
      && j in t.results && j in t'.results
      && t' == t.(results := t.results[j := t'.results[j]])
      && var before, hasIp := t.results[j], LiveOf(t, j).Some?;
         && DeliveryDone(before, t'.results[j], sent, sends, Reaches(before, configured, replaySafe, hasIp),
                         GateOpen(before, configured, replaySafe), replaySafe, answer, r.Success?)
         && (r.Failure? ==> r.error == RefusalOf(before, configured, replaySafe, hasIp, answer))
  }

  /** The sending part was stopped at the gate. */
  lemma StoppedAtTheGate(
    t: Tables, sent: seq<Send>, j: JobId, configured: bool, replaySafe: bool, answer: Answer,
    r: Result<FinalResult, Error>)
    requires j in t.results && t.results[j].status != Delivered && !GateOpen(t.results[j], configured, replaySafe)
    requires r == Failure(if configured then DeliveryUncertain else ResultNotConfigured)
    ensures SentAs(t, t, sent, sent, j, configured, replaySafe, answer, r)
  {
    assert t == t.(results := t.results[j := t.results[j]]);
  }

  /** It passed the gate, and no send was begun. */
  lemma StoppedBeforeTheSend(
    t: Tables, t1: Tables, sent: seq<Send>, j: JobId, configured: bool, replaySafe: bool, answer: Answer,
    r: Result<FinalResult, Error>)
    requires j in t.results && t.results[j].status != Delivered && GateOpen(t.results[j], configured, replaySafe)
    requires t1 == t.(results := t.results[j := Requeued(t.results[j])])
    requires LiveOf(t1, j).None? || t1.results[j].status != DeliveryPending
    requires r == Failure(FinalResultConflict)
    ensures SentAs(t, t1, sent, sent, j, configured, replaySafe, answer, r)
  {
    SameLiveOf(t, t1, j);
  }

  /** A send was begun and answered. */
  lemma SentAndAnswered(
    t: Tables, t1: Tables, t2: Tables, t': Tables, sent: seq<Send>, sends: seq<Send>, j: JobId, configured: bool,
    replaySafe: bool, answer: Answer, r: Result<FinalResult, Error>)
    requires j in t.results && t.results[j].status != Delivered && GateOpen(t.results[j], configured, replaySafe)
    requires t1 == t.(results := t.results[j := Requeued(t.results[j])])
    requires LiveOf(t1, j).Some? && t1.results[j].status == DeliveryPending
    requires t2 == t1.(results := t1.results[j := Begun(t1.results[j])])
    requires j in t'.results && t' == t2.(results := t2.results[j := t'.results[j]])
    requires sends == Answered(sent + [Open], answer)
    requires r.Success? <==> answer.Acknowledge? && ValidHttpStatus(answer.httpStatus)
    requires r.Success? ==>
               t'.results[j] == t2.results[j].(status := Delivered, deliveredAt := t'.results[j].deliveredAt,
                                               certainty := None, httpStatus := answer.httpStatus)
    requires r.Failure? ==>
               && r.error == (if answer.Fail? then PortalFailure(answer.certainty) else InvalidArgument)
               && t'.results[j] ==
                  Unacknowledged(t2.results[j], if answer.Fail? then answer.certainty else Ambiguous, replaySafe)
    ensures SentAs(t, t', sent, sends, j, configured, replaySafe, answer, r)
  {
    SameLiveOf(t, t1, j);
    assert t' == t.(results := t.results[j := t'.results[j]]);
  }

  lemma SentFacts(
    t: Tables, t': Tables, sent: seq<Send>, sends: seq<Send>, j: JobId, configured: bool, replaySafe: bool,
    answer: Answer, r: Result<FinalResult, Error>)
    requires j in t.results && t.results[j].status != Delivered
    requires SentAs(t, t', sent, sends, j, configured, replaySafe, answer, r)
    ensures j in t'.results && t' == t.(results := t.results[j := t'.results[j]])
    ensures r.Success? <==> t'.results[j].status == Delivered
    ensures r.Success? <==> Delivers(t.results[j], configured, replaySafe, LiveOf(t, j).Some?, answer)
    ensures DeliveryDone(t.results[j], t'.results[j], sent, sends,
                         Reaches(t.results[j], configured, replaySafe, LiveOf(t, j).Some?),
                         GateOpen(t.results[j], configured, replaySafe), replaySafe, answer, r.Success?)
  {
    assert Asked(0);
  }

  /** A result that was not acknowledged is not delivered, and that is the end of it. */
  lemma NotAcknowledged(
    t: Tables, t': Tables, sent: seq<Send>, sends: seq<Send>, j: JobId, configured: bool, replaySafe: bool,
    answer: Answer, r: Result<FinalResult, Error>)
    requires j in t.results && t.results[j].status != Delivered && r.Failure?
    requires SentAs(t, t', sent, sends, j, configured, replaySafe, answer, r)
    ensures DeliveredAs(t, t', sent, sends, j, configured, replaySafe, answer, Failure(r.error))
  {
    SentFacts(t, t', sent, sends, j, configured, replaySafe, answer, r);
    SameAllocationsKeepOthers(t, t', j);
  }

  lemma DeliveredFacts(
    t: Tables, t': Tables, sent: seq<Send>, sends: seq<Send>, j: JobId, configured: bool, replaySafe: bool,
    answer: Answer, r: Result<Delivery, Error>)
    requires DeliveredAs(t, t', sent, sends, j, configured, replaySafe, answer, r)
    ensures j in t.results && j in t'.results
    ensures DeliversAs(t, t', sent, sends, j, configured, replaySafe, answer, r)
  {
    assert Asked(0);
  }

  /** A delivery, told without the words above: a row is delivered afterwards iff it was, or there is a contract, the
      job has its IP, nothing ambiguous is in the way that may not be repeated, and the Portal acknowledges it with a
      status in range, if any. A send is one more attempt in the history; one that is not acknowledged leaves the row
      PENDING when it surely had no effect or may be repeated, and UNCERTAIN otherwise. */
  lemma DeliveryTold(
    t: Tables, t': Tables, sent: seq<Send>, sends: seq<Send>, j: JobId, configured: bool, replaySafe: bool,
    answer: Answer, r: Result<Delivery, Error>)
    requires DeliveredAs(t, t', sent, sends, j, configured, replaySafe, answer, r)
    ensures j in t.results && j in t'.results
    ensures var before, after := t.results[j], t'.results[j];
            var reaches :=
              && configured && (exists a :: LiveFor(t, a, j))
              && (|| (before.status == DeliveryPending && (replaySafe || before.certainty != Some(Ambiguous)))
                  || (before.status == Uncertain && replaySafe));
            var acknowledged := answer.Acknowledge? && (answer.httpStatus.None? || 100 <= answer.httpStatus.value <= 599);
            && (after.status == Delivered <==> before.status == Delivered || (reaches && acknowledged))
            && (!reaches || before.status == Delivered ==> sends == sent && after.attempts == before.attempts)
            && (reaches ==>
                  && after.attempts == before.attempts + 1
                  && sends == sent + [if answer.Acknowledge? then Accepted else NotAccepted(answer.certainty)])
            && (reaches && !acknowledged ==>
                  var surely := answer.Fail? && answer.certainty in {NotSent, Certainty.Rejected};
                  && after.status == (if surely || replaySafe then DeliveryPending else Uncertain)
                  && after.certainty == Some(if answer.Fail? then answer.certainty else Ambiguous))
  {
    DeliveredFacts(t, t', sent, sends, j, configured, replaySafe, answer, r);
    assert LiveOf(t, j).Some? <==> exists a :: LiveFor(t, a, j);
    var reply := if answer.Fail? then NotAccepted(answer.certainty) else Accepted;
    assert (sent + [Open])[|sent| := reply] == sent + [reply];
  }

  /** Where the result can be made final, delivering it is all that success takes. */
  lemma SucceedsWhenDelivered(
    t: Tables, t': Tables, sent: seq<Send>, sends: seq<Send>, j: JobId, configured: bool, replaySafe: bool,
    answer: Answer, r: Result<Delivery, Error>)
    requires DeliveredAs(t, t', sent, sends, j, configured, replaySafe, answer, r)
    requires j in t.results && CanFinish(t, j, t.results[j].terminalState)
    ensures r.Success? <==> Delivers(t.results[j], configured, replaySafe, LiveOf(t, j).Some?, answer)
  {
    assert Asked(0);
  }

  /** First the row is delivered, then it is made final. */
  lemma SentThenFinalized(
    t: Tables, t1: Tables, sent: seq<Send>, sends: seq<Send>, j: JobId, now: Time, configured: bool, replaySafe: bool,
    answer: Answer, r: Result<Delivery, Error>)
    requires j in t.results && j in t1.results && t1 == t.(results := t.results[j := t1.results[j]])
    requires t1.results[j].status == Delivered
    requires Delivers(t.results[j], configured, replaySafe, LiveOf(t, j).Some?, answer)
    requires DeliveryDone(t.results[j], t1.results[j], sent, sends,
                          Reaches(t.results[j], configured, replaySafe, LiveOf(t, j).Some?),
                          GateOpen(t.results[j], configured, replaySafe), replaySafe, answer, true)
    requires r.Success? <==> Finalizes(t1, j, now)
    requires r.Success? ==>
               && r.value.reused == (t.results[j].status == Delivered)
               && j in Finalized(t1, j, now).jobs && r.value.job == Finalized(t1, j, now).jobs[j]
    ensures DeliveredAs(t, Finalized(t1, j, now), sent, sends, j, configured, replaySafe, answer, r)
  {
    FinalizingKeepsLedger(t1, j, now);
    FinalizesWhenItCanFinish(t1, j, now);
    SameJobsSameFinish(t, t1, j, t.results[j].terminalState);
    SameAllocationsKeepOthers(t, t1, j);
    FinalizingKeepsOthers(t1, j, now);
    DeliveryKeepsTheResult(t.results[j], t1.results[j], sent, sends,
                           Reaches(t.results[j], configured, replaySafe, LiveOf(t, j).Some?),
                           GateOpen(t.results[j], configured, replaySafe), replaySafe, answer, true);
    if r.Success? {
      FinalizingFinishes(t1, j, now);
      if UniqueLiveAllocations(t) {
        SameLiveAllocations(t, t1);
      }
    }
  }

  /** Whether finalize gets a row to deliver: the payload is accepted, and it is recorded now or was recorded
      before with the same digest and terminal state. */
  predicate IsCaptured(t: Tables, j: JobId, outcome: FinalOutcome, code: Option<Code>, payload: Option<Json>) {
    && j in t.jobs && (IsTerminal(t.jobs[j].state) ==> j in t.results)
    && payload.Some?
    && CreateOrGetResult(t, j, Normalized(t.jobs[j].applicationId, outcome, code, payload.value)).Commit?
  }

  /** That row. */
  function CapturedRow(
    t: Tables, j: JobId, outcome: FinalOutcome, code: Option<Code>, payload: Option<Json>): FinalResult
    requires IsCaptured(t, j, outcome, code, payload)
  {
    if j in t.results then t.results[j]
    else NewRecord(Normalized(t.jobs[j].applicationId, outcome, code, payload.value))
  }

  /** What a finalization leaves, delivered or not: nothing without a row to deliver; otherwise that row, as far
      as its delivery got, and an untouched job unless it is delivered. It stands under a quantifier so that
      only proofs that ask for it have to look at it. */
  ghost predicate FinalizeDone(
    t: Tables, t': Tables, sent: seq<Send>, sends: seq<Send>, j: JobId, outcome: FinalOutcome, code: Option<Code>,
    payload: Option<Json>, configured: bool, replaySafe: bool, answer: Answer, success: bool)
  {
    forall x {:trigger Asked(x)} :: Asked(x) ==>
      FinalizeLeaves(t, t', sent, sends, j, outcome, code, payload, configured, replaySafe, answer, success)
  }

  ghost predicate FinalizeLeaves(
    t: Tables, t': Tables, sent: seq<Send>, sends: seq<Send>, j: JobId, outcome: FinalOutcome, code: Option<Code>,
    payload: Option<Json>, configured: bool, replaySafe: bool, answer: Answer, success: bool)
  {
    if !IsCaptured(t, j, outcome, code, payload) then
      t' == t && sends == sent && !success
    else
      var row, hasIp := CapturedRow(t, j, outcome, code, payload), LiveOf(t, j).Some?;
      var delivers := Delivers(row, configured, replaySafe, hasIp, answer);
      && j in t'.results && t'.results == t.results[j := t'.results[j]]
      && DeliveryDone(row, t'.results[j], sent, sends, Reaches(row, configured, replaySafe, hasIp),
                      GateOpen(row, configured, replaySafe), replaySafe, answer, delivers)
      && (t'.results[j].status == Delivered <==> delivers)
      && (success <==> delivers && CanFinish(t, j, row.terminalState))
      && (!delivers ==> t'.jobs == t.jobs)
  }

  /** A row to deliver, told without the words above: there is a payload, and the job is not terminal without a
      result; a result that is there has the same terminal state, and its payload is this one in canonical form. A new
      row is PENDING, never tried, with the outcome, its code and the canonical payload. */
  lemma CapturingTold(t: Tables, j: JobId, outcome: FinalOutcome, code: Option<Code>, payload: Option<Json>)
    requires j in t.results && j in t.jobs ==> t.results[j].applicationId == t.jobs[j].applicationId
    ensures IsCaptured(t, j, outcome, code, payload) <==>
            && j in t.jobs && payload.Some?
            && (t.jobs[j].state in {Completed, FailedFinal, Cancelled} ==> j in t.results)
            && (j in t.results ==>
                  && t.results[j].digest == Sha256(Canonicalize(payload.value))
                  && t.results[j].terminalState == if outcome == SuccessOutcome then Completed else FailedFinal)
    ensures IsCaptured(t, j, outcome, code, payload) && j !in t.results ==>
              CapturedRow(t, j, outcome, code, payload) ==
              FinalResult(t.jobs[j].applicationId, outcome, if outcome == SuccessOutcome then Completed else FailedFinal,
                          code, Canonicalize(payload.value), Sha256(Canonicalize(payload.value)), DeliveryPending, 0, None,
                          None, None)
  {
  }

  lemma NothingCaptured(
    t: Tables, sent: seq<Send>, j: JobId, outcome: FinalOutcome, code: Option<Code>, payload: Option<Json>,
    configured: bool, replaySafe: bool, answer: Answer)
    requires !IsCaptured(t, j, outcome, code, payload)
    ensures FinalizeDone(t, t, sent, sent, j, outcome, code, payload, configured, replaySafe, answer, false)
  {
  }

  /** First the row is recorded, then it is delivered. */
  lemma CapturedThenDelivered(
    t: Tables, t1: Tables, t': Tables, sent: seq<Send>, sends: seq<Send>, j: JobId, outcome: FinalOutcome,
    code: Option<Code>, payload: Option<Json>, configured: bool, replaySafe: bool, answer: Answer,
    r: Result<Delivery, Error>)
    requires IsCaptured(t, j, outcome, code, payload)
    requires t1 == t.(results := t.results[j := CapturedRow(t, j, outcome, code, payload)])
    requires DeliveredAs(t1, t', sent, sends, j, configured, replaySafe, answer, r)
    ensures FinalizeDone(t, t', sent, sends, j, outcome, code, payload, configured, replaySafe, answer, r.Success?)
    ensures j in t'.results && t'.results[j].digest == t1.results[j].digest
    ensures r.Success? ==>
              && t'.results[j].status == Delivered && r.value.job.state == t1.results[j].terminalState
              && j in t'.jobs && r.value.job == t'.jobs[j]
              && (r.value.reused <==> t1.results[j].status == Delivered)
              && (UniqueLiveAllocations(t) ==> Finished(t', j))
  {
    DeliveredFacts(t1, t', sent, sends, j, configured, replaySafe, answer, r);
    if UniqueLiveAllocations(t) {
      SameLiveAllocations(t, t1);
    }
    SameLiveOf(t, t1, j);
    SameJobsSameFinish(t, t1, j, t1.results[j].terminalState);
    assert t'.results == t.results[j := t'.results[j]];
    DeliveryKeepsTheResult(t1.results[j], t'.results[j], sent, sends,
                           Reaches(t1.results[j], configured, replaySafe, LiveOf(t1, j).Some?),
                           GateOpen(t1.results[j], configured, replaySafe), replaySafe, answer,
                           Delivers(t1.results[j], configured, replaySafe, LiveOf(t1, j).Some?, answer));
  }

  class FinalResultService {
    const runtime: Runtime
    const configured: bool
    const replaySafe: bool

    ghost predicate Valid()
      reads this, runtime, runtime.database
    {
      && runtime.Valid()
      && runtime.system.configured == configured
      && runtime.system.replaySafe == replaySafe
    }

    constructor (runtime: Runtime, configured: bool, replaySafe: bool)
      ensures this.runtime == runtime && this.configured == configured && this.replaySafe == replaySafe
    {
      this.runtime := runtime;
      this.configured := configured;
      this.replaySafe := replaySafe;
    }

    /** The job moves to the state that the result names; a job already there stays there. */
    method Terminalize(j: JobId, now: Time, ghost recovering: bool) returns (r: Result<Job, Error>)
      requires Valid() && PcOf(runtime.system, j) == Terminalizing(recovering)
      requires j in runtime.database.results
      modifies runtime, runtime.database
      ensures Valid() && Follows(old(runtime.log), runtime.log, j)
      ensures SameProcess(old(runtime.system), runtime.system, j)
      ensures runtime.system.contexts == old(runtime.system.contexts)
      ensures SendsOf(runtime.system, j) == old(SendsOf(runtime.system, j))
      ensures PcOf(runtime.system, j) == if r.Success? then Freeing(recovering) else Idle
      ensures var tx := Terminalized(old(runtime.database.Contents()), j, now);
              runtime.database.Contents() == tx.After(old(runtime.database.Contents())) && r == tx.Outcome()
    {
      ghost var t := runtime.database.Contents();
      var record := runtime.database.results[j];
      if j !in runtime.database.jobs {
        r := Failure(JobNotFound);
      } else {
        var job := runtime.database.jobs[j];
        if IsTerminal(job.state) {
          r := if job.state != record.terminalState then Failure(FinalResultConflict) else Success(job);
        } else {
          var code := if record.terminalState == FailedFinal then
            Some(if record.code.Some? then record.code.value else FinalResultFailure) else None;
          r := runtime.jobStore.Transition(j, record.terminalState, Patch(None, code), Some(job.version), now);
        }
      }
      NoteTerminalized(t, j, recovering, now);
    }

    /** The IP of a terminal job is released, for the reason that fits its state. */
    method FreeIp(j: JobId, now: Time, ghost recovering: bool) returns (r: Result<ReleaseOutcome, Error>)
      requires Valid() && PcOf(runtime.system, j) == Freeing(recovering)
      requires j in runtime.database.jobs && j in runtime.database.results
      modifies runtime, runtime.database
      ensures Valid() && Follows(old(runtime.log), runtime.log, j)
      ensures SameProcess(old(runtime.system), runtime.system, j)
      ensures runtime.system.contexts == old(runtime.system.contexts)
      ensures SendsOf(runtime.system, j) == old(SendsOf(runtime.system, j))
      ensures PcOf(runtime.system, j) ==
              if r.Success? then AfterFreeing(old(runtime.database.jobs)[j], recovering) else Idle
      ensures var tx := Freed(old(runtime.database.Contents()), j, now);
              runtime.database.Contents() == tx.After(old(runtime.database.Contents())) && r == tx.Outcome()
    {
      ghost var t := runtime.database.Contents();
      var record := runtime.database.results[j];
      var reason := if record.terminalState == Completed then JobCompleted else JobFailedFinal;
      r := runtime.allocator.ReleaseForJob(j, reason, now);
      NoteFreed(t, j, recovering, now);
    }

    /** finalizeDeliveredRecord: terminal state first, then the IP. */
    method FinalizeDeliveredRecord(j: JobId, now: Time, ghost recovering: bool) returns (r: Result<Job, Error>)
      requires Valid() && PcOf(runtime.system, j) == Terminalizing(recovering)
      requires j in runtime.database.results
      modifies runtime, runtime.database
      ensures Valid() && Follows(old(runtime.log), runtime.log, j)
      ensures SameProcess(old(runtime.system), runtime.system, j)
      ensures runtime.system.contexts == old(runtime.system.contexts)
      ensures SendsOf(runtime.system, j) == old(SendsOf(runtime.system, j))
      ensures runtime.database.Contents() == Finalized(old(runtime.database.Contents()), j, now)
      ensures r.Success? <==> Finalizes(old(runtime.database.Contents()), j, now)
      ensures r.Success? ==> j in runtime.database.jobs && r.value == runtime.database.jobs[j]
      ensures PcOf(runtime.system, j) == if r.Success? then AfterFreeing(r.value, recovering) else Idle
    {
      ghost var log, t := runtime.log, runtime.database.Contents();
      r := Terminalize(j, now, recovering);
      if r.Failure? {
        return r;
      }
      ghost var middle := runtime.log;
      TerminalizedIsTheJob(t, j, now);
      FreeingKeepsJobs(runtime.database.Contents(), j, now);
      var release := FreeIp(j, now, recovering);
      FollowsIsTransitive(log, middle, runtime.log, j);
      if release.Failure? {
        r := Failure(release.error);
      }
    }

    // The machine's side of each statement below.

    /** Delivery stops before a send, changing nothing. */
    ghost method StopDelivery(j: JobId, now: Time)
      requires Valid() && PcOf(runtime.system, j).Delivering?
      requires DeliverStep(runtime.system, j) == GoTo(Idle)
      modifies runtime`log, runtime`system
      ensures Valid() && Follows(old(runtime.log), runtime.log, j)
      ensures SameProcess(old(runtime.system), runtime.system, j)
      ensures runtime.system.contexts == old(runtime.system.contexts)
      ensures PcOf(runtime.system, j).Idle? && SendsOf(runtime.system, j) == old(SendsOf(runtime.system, j))
    {
      runtime.Advance(j, Tick(now), GoTo(Idle));
    }

    /** The stores are there, and the machine has not yet followed the last transaction. */
    ghost predicate Behind(t: Tables)
      reads this, runtime, runtime.database
    {
      && runtime.jobStore.database == runtime.database && runtime.allocator.database == runtime.database
      && runtime.ledger.database == runtime.database && runtime.recoveries.database == runtime.database
      && IsRun(runtime.origin, runtime.log, runtime.system)
      && runtime.system.tables == t
      && runtime.system.configured == configured
      && runtime.system.replaySafe == replaySafe
    }

    ghost method NoteTerminalized(t: Tables, j: JobId, recovering: bool, now: Time)
      requires Behind(t) && PcOf(runtime.system, j) == Terminalizing(recovering) && j in t.results
      requires runtime.database.Contents() == Terminalized(t, j, now).After(t)
      modifies runtime`log, runtime`system
      ensures Valid() && Follows(old(runtime.log), runtime.log, j)
      ensures SameProcess(old(runtime.system), runtime.system, j)
      ensures runtime.system.contexts == old(runtime.system.contexts)
      ensures SendsOf(runtime.system, j) == old(SendsOf(runtime.system, j))
      ensures PcOf(runtime.system, j) == if Terminalized(t, j, now).Commit? then Freeing(recovering) else Idle
    {
      runtime.Advance(j, Tick(now), TerminalizeStep(t, j, recovering, now));
    }

    ghost method NoteFreed(t: Tables, j: JobId, recovering: bool, now: Time)
      requires Behind(t) && PcOf(runtime.system, j) == Freeing(recovering) && j in t.jobs && j in t.results
      requires runtime.database.Contents() == Freed(t, j, now).After(t)
      modifies runtime`log, runtime`system
      ensures Valid() && Follows(old(runtime.log), runtime.log, j)
      ensures SameProcess(old(runtime.system), runtime.system, j)
      ensures runtime.system.contexts == old(runtime.system.contexts)
      ensures SendsOf(runtime.system, j) == old(SendsOf(runtime.system, j))
      ensures PcOf(runtime.system, j) == if Freed(t, j, now).Commit? then AfterFreeing(t.jobs[j], recovering) else Idle
    {
      runtime.Advance(j, Tick(now), FreeStep(t, j, recovering, now));
    }

    ghost method NoteRequeue(t: Tables, j: JobId, now: Time)
      requires Behind(t) && PcOf(runtime.system, j).Delivering?
      requires HasStatus(t, j, Uncertain) && configured && replaySafe
      requires runtime.database.Contents() == Requeue(t, j).After(t)
      modifies runtime`log, runtime`system
      ensures Valid() && Follows(old(runtime.log), runtime.log, j)
      ensures SameProcess(old(runtime.system), runtime.system, j)
      ensures runtime.system.contexts == old(runtime.system.contexts)
      ensures PcOf(runtime.system, j).Delivering? && SendsOf(runtime.system, j) == old(SendsOf(runtime.system, j))
    {
      assert DeliverStep(runtime.system, j) == Try(RequeueOp(j), Delivering, Idle);
      runtime.Advance(j, Tick(now), Try(RequeueOp(j), Delivering, Idle));
    }

    ghost method NoteBegin(t: Tables, j: JobId, now: Time)
      requires Behind(t) && PcOf(runtime.system, j).Delivering?
      requires DeliverStep(runtime.system, j) == Try(BeginOp(j), Sending, Idle)
      requires runtime.database.Contents() == BeginDelivery(t, j).After(t)
      modifies runtime`log, runtime`system
      ensures Valid() && Follows(old(runtime.log), runtime.log, j)
      ensures SameProcess(old(runtime.system), runtime.system, j)
      ensures runtime.system.contexts == old(runtime.system.contexts)
      ensures PcOf(runtime.system, j) == if BeginDelivery(t, j).Commit? then Sending else Idle
      ensures SendsOf(runtime.system, j) ==
              if BeginDelivery(t, j).Commit? then old(SendsOf(runtime.system, j)) + [Open]
              else old(SendsOf(runtime.system, j))
    {
      DeliveringTick(runtime.system, j, now);
      runtime.Advance(j, Tick(now), Try(BeginOp(j), Sending, Idle));
    }

    ghost method NoteAcknowledgement(j: JobId, httpStatus: Option<int>)
      requires Valid() && PcOf(runtime.system, j).Sending? && SendsOf(runtime.system, j) != []
      modifies runtime`log, runtime`system
      ensures Valid() && Follows(old(runtime.log), runtime.log, j)
      ensures SameProcess(old(runtime.system), runtime.system, j)
      ensures runtime.system.contexts == old(runtime.system.contexts)
      ensures PcOf(runtime.system, j) == Acknowledged(httpStatus)
      ensures SendsOf(runtime.system, j) == Answered(old(SendsOf(runtime.system, j)), Acknowledge(httpStatus))
    {
      runtime.Advance(j, SendAccepted(httpStatus), GoTo(Acknowledged(httpStatus)));
    }

    ghost method NoteFailedSend(j: JobId, certainty: Certainty)
      requires Valid() && PcOf(runtime.system, j).Sending? && SendsOf(runtime.system, j) != []
      modifies runtime`log, runtime`system
      ensures Valid() && Follows(old(runtime.log), runtime.log, j)
      ensures SameProcess(old(runtime.system), runtime.system, j)
      ensures runtime.system.contexts == old(runtime.system.contexts)
      ensures PcOf(runtime.system, j) == Undelivered(certainty)
      ensures SendsOf(runtime.system, j) == Answered(old(SendsOf(runtime.system, j)), Fail(certainty))
    {
      runtime.Advance(j, SendFailed(certainty), GoTo(Undelivered(certainty)));
    }

    ghost method NoteDelivered(t: Tables, j: JobId, httpStatus: Option<int>, now: Time)
      requires Behind(t) && PcOf(runtime.system, j) == Acknowledged(httpStatus)
      requires runtime.database.Contents() == MarkDelivered(t, j, httpStatus, now).After(t)
      modifies runtime`log, runtime`system
      ensures Valid() && Follows(old(runtime.log), runtime.log, j)
      ensures SameProcess(old(runtime.system), runtime.system, j)
      ensures runtime.system.contexts == old(runtime.system.contexts)
      ensures PcOf(runtime.system, j) ==
              if MarkDelivered(t, j, httpStatus, now).Commit? then Terminalizing(false) else Undelivered(Ambiguous)
      ensures SendsOf(runtime.system, j) == old(SendsOf(runtime.system, j))
    {
      runtime.Advance(j, Tick(now),
                      Try(MarkDeliveredOp(j, httpStatus, now), Terminalizing(false), Undelivered(Ambiguous)));
    }

    ghost method NotePending(t: Tables, j: JobId, certainty: Certainty, now: Time)
      requires Behind(t) && PcOf(runtime.system, j) == Undelivered(certainty)
      requires certainty != Ambiguous || replaySafe
      requires runtime.database.Contents() == MarkPending(t, j, certainty).After(t)
      modifies runtime`log, runtime`system
      ensures Valid() && Follows(old(runtime.log), runtime.log, j)
      ensures SameProcess(old(runtime.system), runtime.system, j)
      ensures runtime.system.contexts == old(runtime.system.contexts)
      ensures PcOf(runtime.system, j).Idle? && SendsOf(runtime.system, j) == old(SendsOf(runtime.system, j))
    {
      runtime.Advance(j, Tick(now), Try(MarkPendingOp(j, certainty), Idle, Idle));
    }

    ghost method NoteUncertain(t: Tables, j: JobId, now: Time)
      requires Behind(t) && PcOf(runtime.system, j) == Undelivered(Ambiguous) && !replaySafe
      requires runtime.database.Contents() == MarkUncertain(t, j).After(t)
      modifies runtime`log, runtime`system
      ensures Valid() && Follows(old(runtime.log), runtime.log, j)
      ensures SameProcess(old(runtime.system), runtime.system, j)
      ensures runtime.system.contexts == old(runtime.system.contexts)
      ensures PcOf(runtime.system, j).Idle? && SendsOf(runtime.system, j) == old(SendsOf(runtime.system, j))
    {
      runtime.Advance(j, Tick(now), Try(MarkUncertainOp(j), Idle, Idle));
    }

    /** Delivery is refused without a contract, and after an ambiguous send without idempotent replay;
        with it an uncertain result goes back to pending. */
    method PassGate(j: JobId, now: Time) returns (r: Result<FinalResult, Error>)
      requires Valid() && PcOf(runtime.system, j).Delivering?
      requires j in runtime.database.results && runtime.database.results[j].status != Delivered
      modifies runtime, runtime.database
      ensures Valid() && Follows(old(runtime.log), runtime.log, j)
      ensures SameProcess(old(runtime.system), runtime.system, j)
      ensures runtime.system.contexts == old(runtime.system.contexts)
      ensures SendsOf(runtime.system, j) == old(SendsOf(runtime.system, j))
      ensures r.Success? <==> GateOpen(old(runtime.database.results[j]), configured, replaySafe)
      ensures r.Success? <==>
                && configured
                && (replaySafe || old(runtime.database.results[j]).status == InFlight
                    || (old(runtime.database.results[j]).status == DeliveryPending
                        && old(runtime.database.results[j]).certainty != Some(Ambiguous)))
      ensures r.Success? ==>
                && PcOf(runtime.system, j).Delivering?
                && r.value == Requeued(old(runtime.database.results[j]))
                && runtime.database.Contents() ==
                   old(runtime.database.Contents()).(results := old(runtime.database.results)[j := r.value])
      ensures r.Failure? ==> PcOf(runtime.system, j).Idle? && runtime.database.Contents() == old(runtime.database.Contents())
      ensures r.Failure? ==> r.error == if configured then DeliveryUncertain else ResultNotConfigured
    {
      ghost var t := runtime.database.Contents();
      if !configured {
        StopDelivery(j, now);
        return Failure(ResultNotConfigured);
      }
      var record := runtime.database.results[j];
      if record.status == DeliveryPending && record.certainty == Some(Ambiguous) && !replaySafe {
        StopDelivery(j, now);
        return Failure(DeliveryUncertain);
      }
      if record.status == Uncertain {
        if !replaySafe {
          StopDelivery(j, now);
          return Failure(DeliveryUncertain);
        }
        r := runtime.ledger.RequeueUncertain(j);
        NoteRequeue(t, j, now);
        return r;
      }
      r := Success(record);
    }

    /** beginDelivery, for a job that still has its IP. */
    method BeginSend(j: JobId, now: Time) returns (r: Result<FinalResult, Error>)
      requires Valid() && PcOf(runtime.system, j).Delivering?
      requires j in runtime.database.results && GateOpen(runtime.database.results[j], configured, replaySafe)
      requires runtime.database.results[j].status in {DeliveryPending, InFlight}
      modifies runtime, runtime.database
      ensures Valid() && Follows(old(runtime.log), runtime.log, j)
      ensures SameProcess(old(runtime.system), runtime.system, j)
      ensures runtime.system.contexts == old(runtime.system.contexts)
      ensures r.Success? <==>
                && old(LiveOf(runtime.database.Contents(), j)).Some?
                && old(runtime.database.results[j]).status == DeliveryPending
      ensures r.Success? ==>
                && PcOf(runtime.system, j).Sending?
                && SendsOf(runtime.system, j) == old(SendsOf(runtime.system, j)) + [Open]
                && r.value == Begun(old(runtime.database.results[j]))
                && runtime.database.Contents() ==
                   old(runtime.database.Contents()).(results := old(runtime.database.results)[j := r.value])
      ensures r.Failure? ==>
                && PcOf(runtime.system, j).Idle?
                && SendsOf(runtime.system, j) == old(SendsOf(runtime.system, j))
                && runtime.database.Contents() == old(runtime.database.Contents())
                && r.error == FinalResultConflict
    {
      ghost var t := runtime.database.Contents();
      var allocation := runtime.database.LiveAllocation(j);
      if allocation.None? {
        StopDelivery(j, now);
        return Failure(FinalResultConflict);
      }
      var started := runtime.ledger.Begin(j);
      NoteBegin(t, j, now);
      r := if started.Success? then Success(started.value.record) else Failure(started.error);
    }

    /** The Portal's answer is recorded; whatever goes wrong after the request left counts as a failed
        send. */
    method RecordAnswer(j: JobId, answer: Answer, now: Time) returns (r: Result<FinalResult, Error>)
      requires Valid() && PcOf(runtime.system, j).Sending?
      requires j in runtime.database.results && runtime.database.results[j].status == InFlight
      requires SendsOf(runtime.system, j) != []
      modifies runtime, runtime.database
      ensures Valid() && Follows(old(runtime.log), runtime.log, j)
      ensures SameProcess(old(runtime.system), runtime.system, j)
      ensures runtime.system.contexts == old(runtime.system.contexts)
      ensures SendsOf(runtime.system, j) ==
              Answered(old(SendsOf(runtime.system, j)), answer)
      ensures r.Success? <==> answer.Acknowledge? && ValidHttpStatus(answer.httpStatus)
      ensures j in runtime.database.results
      ensures runtime.database.Contents() ==
              old(runtime.database.Contents()).(results :=
                old(runtime.database.results)[j := runtime.database.results[j]])
      ensures r.Success? ==>
                && PcOf(runtime.system, j) == Terminalizing(false)
                && r.value == runtime.database.results[j]
                && r.value == old(runtime.database.results[j]).(status := Delivered, deliveredAt := r.value.deliveredAt,
                                                               certainty := None, httpStatus := answer.httpStatus)
      ensures r.Failure? ==>
                && PcOf(runtime.system, j).Idle?
                && r.error == (if answer.Fail? then PortalFailure(answer.certainty) else InvalidArgument)
                && runtime.database.results[j] ==
                   Unacknowledged(old(runtime.database.results[j]),
                                  if answer.Fail? then answer.certainty else Ambiguous, replaySafe)
    {
      ghost var log, t := runtime.log, runtime.database.Contents();
      var certainty := Ambiguous;
      if answer.Acknowledge? {
        NoteAcknowledgement(j, answer.httpStatus);
        ghost var middle := runtime.log;
        r := runtime.ledger.MarkAsDelivered(j, answer.httpStatus, now);
        NoteDelivered(t, j, answer.httpStatus, now);
        FollowsIsTransitive(log, middle, runtime.log, j);
        if r.Success? {
          return r;
        }
      } else {
        NoteFailedSend(j, answer.certainty);
        certainty := answer.certainty;
        r := Failure(PortalFailure(certainty));
      }
      ghost var failed := runtime.log;
      MarkFailedSend(j, certainty, now);
      FollowsIsTransitive(log, failed, runtime.log, j);
    }

    /** A failed send goes back to pending when it surely had no effect or may be repeated. */
    method MarkFailedSend(j: JobId, certainty: Certainty, now: Time)
      requires Valid() && PcOf(runtime.system, j) == Undelivered(certainty)
      requires j in runtime.database.results && runtime.database.results[j].status == InFlight
      modifies runtime, runtime.database
      ensures Valid() && Follows(old(runtime.log), runtime.log, j)
      ensures SameProcess(old(runtime.system), runtime.system, j)
      ensures runtime.system.contexts == old(runtime.system.contexts)
      ensures PcOf(runtime.system, j).Idle? && SendsOf(runtime.system, j) == old(SendsOf(runtime.system, j))
      ensures runtime.database.Contents() ==
              old(runtime.database.Contents()).(results := old(runtime.database.results)[j :=
                Unacknowledged(old(runtime.database.results[j]), certainty, replaySafe)])
    {
      ghost var t := runtime.database.Contents();
      if certainty == NotSent || certainty == Rejected || replaySafe {
        var pending := runtime.ledger.MarkPendingAfterFailure(j, certainty);
        NotePending(t, j, certainty, now);
      } else {
        var uncertain := runtime.ledger.MarkAsUncertain(j);
        NoteUncertain(t, j, now);
      }
    }

    /** Sends a result that is not delivered yet and records the answer. */
    method Send(j: JobId, answer: Answer, now: Time) returns (r: Result<FinalResult, Error>)
      requires Valid() && PcOf(runtime.system, j).Delivering?
      requires j in runtime.database.results && runtime.database.results[j].status != Delivered
      modifies runtime, runtime.database
      ensures Valid() && Follows(old(runtime.log), runtime.log, j)
      ensures SameProcess(old(runtime.system), runtime.system, j)
      ensures runtime.system.contexts == old(runtime.system.contexts)
      ensures SentAs(old(runtime.database.Contents()), runtime.database.Contents(), old(SendsOf(runtime.system, j)),
                     SendsOf(runtime.system, j), j, configured, replaySafe, answer, r)
      ensures PcOf(runtime.system, j) == if r.Success? then Terminalizing(false) else Idle
    {
      ghost var log, t, sent := runtime.log, runtime.database.Contents(), SendsOf(runtime.system, j);
      r := PassGate(j, now);
      if r.Failure? {
        StoppedAtTheGate(t, sent, j, configured, replaySafe, answer, r);
        return r;
      }
      ghost var passed, t1 := runtime.log, runtime.database.Contents();
      r := BeginSend(j, now);
      FollowsIsTransitive(log, passed, runtime.log, j);
      if r.Failure? {
        StoppedBeforeTheSend(t, t1, sent, j, configured, replaySafe, answer, r);
        return r;
      }
      ghost var begun, t2 := runtime.log, runtime.database.Contents();
      r := RecordAnswer(j, answer, now);
      FollowsIsTransitive(log, begun, runtime.log, j);
      SentAndAnswered(t, t1, t2, runtime.database.Contents(), sent, SendsOf(runtime.system, j), j, configured, replaySafe,
                      answer, r);
    }

    /** In a process that began with empty tables every recorded result can be made final. */
    lemma BootCanFinish(j: JobId)
      requires Valid() && runtime.StartsAtBoot() && j in runtime.database.results
      ensures CanFinish(runtime.database.Contents(), j, runtime.database.results[j].terminalState)
    {
      ReachedCanFinish(runtime.origin.maxRetries, runtime.origin.uploadSteps, runtime.log, runtime.system, j);
    }

    /** The steps of deliverRecord. */
    method SendAndFinish(j: JobId, answer: Answer, now: Time) returns (r: Result<Delivery, Error>)
      requires Valid() && PcOf(runtime.system, j).Delivering?
      requires j in runtime.database.results
      modifies runtime, runtime.database
      ensures Valid() && Follows(old(runtime.log), runtime.log, j)
      ensures SameProcess(old(runtime.system), runtime.system, j)
      ensures runtime.system.contexts == old(runtime.system.contexts)
      ensures PcOf(runtime.system, j).Idle?
      ensures DeliveredAs(old(runtime.database.Contents()), runtime.database.Contents(),
                          old(SendsOf(runtime.system, j)), SendsOf(runtime.system, j), j, configured, replaySafe, answer, r)
    {
      ghost var log, t, sent := runtime.log, runtime.database.Contents(), SendsOf(runtime.system, j);
      var reused := runtime.database.results[j].status == Delivered;
      if reused {
        DeliveringTick(runtime.system, j, now);
        runtime.Advance(j, Tick(now), GoTo(Terminalizing(false)));
        assert t == t.(results := t.results[j := t.results[j]]);
      } else {
        var sending := Send(j, answer, now);
        SentFacts(t, runtime.database.Contents(), sent, SendsOf(runtime.system, j), j, configured, replaySafe, answer,
                  sending);
        if sending.Failure? {
          NotAcknowledged(t, runtime.database.Contents(), sent, SendsOf(runtime.system, j), j, configured, replaySafe,
                          answer, sending);
          return Failure(sending.error);
        }
      }
      ghost var middle, t1 := runtime.log, runtime.database.Contents();
      var job := FinalizeDeliveredRecord(j, now, false);
      FollowsIsTransitive(log, middle, runtime.log, j);
      r := if job.Success? then Success(Delivery(job.value, reused)) else Failure(job.error);
      SentThenFinalized(t, t1, sent, SendsOf(runtime.system, j), j, now, configured, replaySafe, answer, r);
    }

    /** deliverRecord: an acknowledged send, or a row delivered before, is made final; and in a process that began
        with empty tables nothing else is in the way of success. */
    method DeliverRecord(j: JobId, answer: Answer, now: Time) returns (r: Result<Delivery, Error>)
      requires Valid() && PcOf(runtime.system, j).Delivering?
      requires j in runtime.database.results
      modifies runtime, runtime.database
      ensures Valid() && Follows(old(runtime.log), runtime.log, j)
      ensures SameProcess(old(runtime.system), runtime.system, j)
      ensures runtime.system.contexts == old(runtime.system.contexts)
      ensures PcOf(runtime.system, j).Idle?
      ensures DeliveredAs(old(runtime.database.Contents()), runtime.database.Contents(),
                          old(SendsOf(runtime.system, j)), SendsOf(runtime.system, j), j, configured, replaySafe, answer, r)
      ensures runtime.StartsAtBoot() ==>
                (r.Success? <==>
                   Delivers(old(runtime.database.results)[j], configured, replaySafe,
                            old(LiveOf(runtime.database.Contents(), j)).Some?, answer))
    {
      ghost var t, sent := runtime.database.Contents(), SendsOf(runtime.system, j);
      if runtime.StartsAtBoot() {
        BootCanFinish(j);
      }
      r := SendAndFinish(j, answer, now);
      if runtime.StartsAtBoot() {
        SucceedsWhenDelivered(t, runtime.database.Contents(), sent, SendsOf(runtime.system, j), j, configured, replaySafe,
                              answer, r);
      }
    }

    /** resumeDelivery: the recorded result of an idle job, once more. */
    method ResumeDelivery(j: JobId, answer: Answer, now: Time) returns (r: Result<Delivery, Error>)
      requires Valid() && runtime.system.phase == Recovering && PcOf(runtime.system, j).Idle?
      modifies runtime, runtime.database
      ensures Valid()
      ensures Follows(old(runtime.log + if IsUnreported(runtime.database.Contents(), j) then [ResumeByHand(j)] else []),
                      runtime.log, j)
      ensures SameProcess(old(runtime.system), runtime.system, j)
      ensures runtime.system.contexts == old(runtime.system.contexts)
      ensures PcOf(runtime.system, j).Idle?
      ensures old(j !in runtime.database.jobs || j !in runtime.database.results) ==>
                && runtime.database.Contents() == old(runtime.database.Contents())
                && runtime.system == old(runtime.system)
                && r == Failure(if old(j in runtime.database.jobs) then FinalResultConflict else JobNotFound)
      ensures old(j in runtime.database.jobs && j in runtime.database.results) ==>
                && DeliveredAs(old(runtime.database.Contents()), runtime.database.Contents(),
                               old(SendsOf(runtime.system, j)), SendsOf(runtime.system, j), j, configured, replaySafe,
                               answer, r)
      ensures old(j in runtime.database.jobs && j in runtime.database.results) && runtime.StartsAtBoot() ==>
                (r.Success? <==>
                   Delivers(old(runtime.database.results)[j], configured, replaySafe,
                            old(LiveOf(runtime.database.Contents(), j)).Some?, answer))
    {
      if j !in runtime.database.jobs {
        return Failure(JobNotFound);
      }
      if j !in runtime.database.results {
        return Failure(FinalResultConflict);
      }
      ghost var log := runtime.log;
      runtime.NoteRedelivery(j);
      if IsUnreported(runtime.database.Contents(), j) {
        log := runtime.log;
      }
      ghost var middle := runtime.log;
      r := DeliverRecord(j, answer, now);
      FollowsIsTransitive(log, middle, runtime.log, j);
    }

    ghost method NoteFinalize(t: Tables, j: JobId, outcome: FinalOutcome, code: Option<Code>, payload: Json)
      requires Behind(t) && PcOf(runtime.system, j) == Finalizing(outcome)
      requires j in t.jobs && (IsTerminal(t.jobs[j].state) ==> j in t.results)
      requires var n := Normalized(t.jobs[j].applicationId, outcome, code, payload);
               runtime.database.Contents() == CreateOrGetResult(t, j, n).After(t)
      modifies runtime`log, runtime`system
      ensures Valid() && Follows(old(runtime.log), runtime.log, j)
      ensures SameProcess(old(runtime.system), runtime.system, j)
      ensures runtime.system.contexts == old(runtime.system.contexts)
      ensures SendsOf(runtime.system, j) == old(SendsOf(runtime.system, j))
      ensures var n := Normalized(t.jobs[j].applicationId, outcome, code, payload);
              PcOf(runtime.system, j) == if CreateOrGetResult(t, j, n).Commit? then Delivering else Idle
    {
      var n := Normalized(t.jobs[j].applicationId, outcome, code, payload);
      runtime.Advance(j, PayloadBuilt(code, payload), Try(CreateResultOp(j, n), Delivering, Idle));
    }

    ghost method NoteRejectedPayload(j: JobId)
      requires Valid() && PcOf(runtime.system, j).Finalizing?
      modifies runtime`log, runtime`system
      ensures Valid() && Follows(old(runtime.log), runtime.log, j)
      ensures SameProcess(old(runtime.system), runtime.system, j)
      ensures runtime.system.contexts == old(runtime.system.contexts)
      ensures PcOf(runtime.system, j).Idle? && SendsOf(runtime.system, j) == old(SendsOf(runtime.system, j))
    {
      runtime.Advance(j, PayloadRejected, GoTo(Idle));
    }

    /** The first half of finalize: the result is recorded, or found recorded with the same digest. */
    method Capture(j: JobId, outcome: FinalOutcome, code: Option<Code>, payload: Option<Json>)
      returns (r: Result<CreatedResult, Error>)
      requires Valid() && PcOf(runtime.system, j) == Finalizing(outcome)
      modifies runtime, runtime.database
      ensures Valid() && Follows(old(runtime.log), runtime.log, j)
      ensures SameProcess(old(runtime.system), runtime.system, j)
      ensures runtime.system.contexts == old(runtime.system.contexts)
      ensures SendsOf(runtime.system, j) == old(SendsOf(runtime.system, j))
      ensures r.Failure? ==> PcOf(runtime.system, j).Idle? && runtime.database.Contents() == old(runtime.database.Contents())
      ensures r.Success? ==>
                && PcOf(runtime.system, j).Delivering?
                && payload.Some?
                && j in runtime.database.results
                && runtime.database.results[j].digest == Sha256(Canonicalize(payload.value))
                && runtime.database.results[j].terminalState == TerminalStateOf(outcome)
                && runtime.database.Contents() ==
                   old(runtime.database.Contents()).(results :=
                     old(runtime.database.results)[j := runtime.database.results[j]])
                && (old(j in runtime.database.results) ==>
                      runtime.database.results[j] == old(runtime.database.results)[j])
                && (old(j !in runtime.database.results) ==>
                      runtime.database.results[j].status == DeliveryPending
                      && runtime.database.results[j].payload == Canonicalize(payload.value))
      ensures r.Success? <==> IsCaptured(old(runtime.database.Contents()), j, outcome, code, payload)
      ensures r.Success? ==>
                runtime.database.results[j] == CapturedRow(old(runtime.database.Contents()), j, outcome, code, payload)
    {
      ghost var t := runtime.database.Contents();
      if j !in runtime.database.jobs {
        NoteRejectedPayload(j);
        return Failure(JobNotFound);
      }
      var job := runtime.database.jobs[j];
      if IsTerminal(job.state) && j !in runtime.database.results {
        NoteRejectedPayload(j);
        return Failure(FinalResultConflict);
      }
      if payload.None? {
        NoteRejectedPayload(j);
        return Failure(InvalidArgument);
      }
      var canonical := CanonicalizeTree(payload.value);
      var normalized := NormalizedResult(job.applicationId, outcome, code, canonical, Sha256(canonical));
      r := runtime.ledger.CreateOrGet(j, normalized);
      NoteFinalize(t, j, outcome, code, payload.value);
    }

    /** finalize: record first, then deliver. */
    method Finalize(j: JobId, outcome: FinalOutcome, code: Option<Code>, payload: Option<Json>, answer: Answer, now: Time)
      returns (r: Result<Delivery, Error>)
      requires Valid() && PcOf(runtime.system, j) == Finalizing(outcome)
      modifies runtime, runtime.database
      ensures Valid() && Follows(old(runtime.log), runtime.log, j)
      ensures SameProcess(old(runtime.system), runtime.system, j)
      ensures runtime.system.contexts == old(runtime.system.contexts)
      ensures PcOf(runtime.system, j).Idle?
      ensures payload.None? ==> r.Failure? && runtime.database.Contents() == old(runtime.database.Contents())
      ensures old(j in runtime.database.results) && payload.Some?
              && old(runtime.database.results)[j].digest != Sha256(Canonicalize(payload.value)) ==>
                r.Failure? && runtime.database.Contents() == old(runtime.database.Contents())
      ensures r.Success? ==>
                && payload.Some?
                && j in runtime.database.results
                && runtime.database.results[j].status == Delivered
                && runtime.database.results[j].digest == Sha256(Canonicalize(payload.value))
                && r.value.job.state == TerminalStateOf(outcome)
                && j in runtime.database.jobs && r.value.job == runtime.database.jobs[j]
                && (r.value.reused <==>
                      old(j in runtime.database.results && runtime.database.results[j].status == Delivered))
                && (UniqueLiveAllocations(old(runtime.database.Contents())) ==>
                      Finished(runtime.database.Contents(), j))
      ensures FinalizeDone(old(runtime.database.Contents()), runtime.database.Contents(),
                           old(SendsOf(runtime.system, j)), SendsOf(runtime.system, j), j, outcome, code, payload,
                           configured, replaySafe, answer, r.Success?)
      ensures runtime.StartsAtBoot() ==>
                (r.Success? <==>
                   && IsCaptured(old(runtime.database.Contents()), j, outcome, code, payload)
                   && Delivers(CapturedRow(old(runtime.database.Contents()), j, outcome, code, payload), configured,
                               replaySafe, old(LiveOf(runtime.database.Contents(), j)).Some?, answer))
    {
      ghost var log, t := runtime.log, runtime.database.Contents();
      var captured := Capture(j, outcome, code, payload);
      if captured.Failure? {
        NothingCaptured(t, SendsOf(runtime.system, j), j, outcome, code, payload, configured, replaySafe, answer);
        return Failure(captured.error);
      }
      ghost var middle := runtime.log;
      ghost var t1, sent := runtime.database.Contents(), SendsOf(runtime.system, j);
      SameLiveOf(t, t1, j);
      r := DeliverRecord(j, answer, now);
      FollowsIsTransitive(log, middle, runtime.log, j);
      CapturedThenDelivered(t, t1, runtime.database.Contents(), sent, SendsOf(runtime.system, j), j, outcome, code,
                            payload, configured, replaySafe, answer, r);
    }
  }
}
