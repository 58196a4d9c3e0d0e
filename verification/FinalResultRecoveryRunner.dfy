/** Taking up deliveries again after a restart (src/runtime/final-result-recovery-runner.js). */
module FinalResultRecoveryRunners {
  import opened Wrappers
  import opened JobStates
  import opened Schema
  import opened LedgerTransactions
  import opened SystemModel
  import opened SystemInvariant
  import opened Runtimes
  import opened FinalResultServices

  /** What recovery reported for a job, as far as deliveries are concerned. */
  datatype RecoveryAction = ResultPending | ResultUncertain | OtherAction

  datatype RecoveryReport = RecoveryReport(jobId: JobId, action: RecoveryAction)

  /** The report is what recovery found in the ledger. */
  predicate Reports(report: RecoveryReport, t: Tables) {
    && (report.action.ResultPending? ==> HasStatus(t, report.jobId, DeliveryPending))
    && (report.action.ResultUncertain? ==> HasStatus(t, report.jobId, Uncertain))
  }

  /** Another job's delivery does not make a report untrue. */
  lemma ReportsStay(report: RecoveryReport, t: Tables, t': Tables, j: JobId)
    requires Reports(report, t) && report.jobId != j && t'.results - {j} == t.results - {j}
    ensures Reports(report, t')
  {
    assert report.jobId in t.results <==> report.jobId in t.results - {j};
    assert report.jobId in t'.results <==> report.jobId in t'.results - {j};
    if report.jobId in t.results {
      assert t'.results[report.jobId] == (t'.results - {j})[report.jobId] == (t.results - {j})[report.jobId];
    }
  }

  /** One report per job, as recovery makes them, and all of them true. */
  predicate IsReportOf(reports: seq<RecoveryReport>, t: Tables) {
    && (forall i, k :: 0 <= i < k < |reports| ==> reports[i].jobId != reports[k].jobId)
    && forall i :: 0 <= i < |reports| ==> Reports(reports[i], t)
  }

  lemma RemainingReportsStay(reports: seq<RecoveryReport>, t: Tables, t': Tables)
    requires reports != [] && IsReportOf(reports, t)
    requires t'.results - {reports[0].jobId} == t.results - {reports[0].jobId}
    ensures IsReportOf(reports[1..], t')
  {
    forall i | 0 <= i < |reports[1..]| ensures Reports(reports[1..][i], t') {
      assert reports[1..][i] == reports[i + 1];
      ReportsStay(reports[i + 1], t, t', reports[0].jobId);
    }
  }

  /** No result was resumed that no report named. */
  predicate NothingByHand(before: seq<Action>, after: seq<Action>) {
    |before| <= |after| && forall i :: |before| <= i < |after| ==> !after[i].ResumeByHand?
  }

  datatype Decision = Allowed | Refused(reason: Reason)

  datatype Reason = ContractNotConfigured | ReplayUnverified | NotDeliverable

  datatype Status = Skipped(reason: Reason) | DeliveredNow(terminalState: JobState) | Failed(error: Error)

  /** A delivery is attempted for a pending result, and for an uncertain one under idempotent replay. */
  predicate Attemptable(report: RecoveryReport, configured: bool, replaySafe: bool) {
    configured && (report.action.ResultPending? || (report.action.ResultUncertain? && replaySafe))
  }

  /** The job has a recorded result, which delivering it again leaves delivered. */
  ghost predicate IsDelivered(t: Tables, j: JobId, configured: bool, replaySafe: bool, answer: Answer) {
    && j in t.jobs && j in t.results
    && Delivers(t.results[j], configured, replaySafe, LiveOf(t, j).Some?, answer)
  }

  /** What becomes of a report: it is skipped exactly when no delivery may be attempted; an attempt reports the
      terminal state exactly when it leaves the result delivered and its job finished; and otherwise it says why. */
  ghost predicate RunAs(
    t: Tables, t': Tables, report: RecoveryReport, configured: bool, replaySafe: bool, answer: Answer, status: Status)
  {
    var j := report.jobId;
    && (status.Skipped? <==> !Attemptable(report, configured, replaySafe))
    && (status.DeliveredNow? <==>
          && Attemptable(report, configured, replaySafe)
          && IsDelivered(t, j, configured, replaySafe, answer)
          && CanFinish(t, j, t.results[j].terminalState))
    && (status.DeliveredNow? ==>
          HasStatus(t', j, Delivered) && t'.results[j].terminalState == status.terminalState)
    && (!status.Skipped? && j in t.jobs && j in t.results ==>
          (HasStatus(t', j, Delivered) <==> IsDelivered(t, j, configured, replaySafe, answer)))
    && (status.Failed? && !IsDelivered(t, j, configured, replaySafe, answer) ==>
          status.error ==
          if j !in t.jobs then JobNotFound
          else if j !in t.results then FinalResultConflict
          else RefusalOf(t.results[j], configured, replaySafe, LiveOf(t, j).Some?, answer))
  }

  /** What a delivery taken up again says about its report. */
  lemma ResumedRunsAs(
    t: Tables, t': Tables, sent: seq<Send>, sends: seq<Send>, report: RecoveryReport, configured: bool, replaySafe: bool,
    answer: Answer, r: Result<Delivery, Error>)
    requires Attemptable(report, configured, replaySafe)
    requires report.jobId !in t.jobs || report.jobId !in t.results ==>
               t' == t && sends == sent && r == Failure(if report.jobId in t.jobs then FinalResultConflict else JobNotFound)
    requires report.jobId in t.jobs && report.jobId in t.results ==>
               DeliveredAs(t, t', sent, sends, report.jobId, configured, replaySafe, answer, r)
    ensures RunAs(t, t', report, configured, replaySafe, answer,
                  if r.Success? then DeliveredNow(r.value.job.state) else Failed(r.error))
    ensures HasStatus(t, report.jobId, Uncertain) && !replaySafe ==> sends == sent && HasStatus(t', report.jobId, Uncertain)
    ensures |sends| <= |sent| + 1
    ensures t'.results - {report.jobId} == t.results - {report.jobId} && OthersKeepJobs(t, t', report.jobId)
  {
    var j := report.jobId;
    if j in t.jobs && j in t.results {
      DeliveredFacts(t, t', sent, sends, j, configured, replaySafe, answer, r);
      if r.Success? {
        DeliveryKeepsTheResult(t.results[j], t'.results[j], sent, sends,
                               Reaches(t.results[j], configured, replaySafe, LiveOf(t, j).Some?),
                               GateOpen(t.results[j], configured, replaySafe), replaySafe, answer, true);
      }
    }
  }

  /** After some of the reports: each of them is skipped exactly when no attempt is allowed, and, where every
      recorded result can be made final, ends delivered exactly when it was or is acknowledged; what becomes of the
      others does not depend on it. It stands under a quantifier so that only proofs that ask for it have to look
      at it. */
  ghost predicate RanSoFar(
    t: Tables, t': Tables, reports: seq<RecoveryReport>, statuses: seq<Status>, configured: bool, replaySafe: bool,
    answers: nat -> Answer, certain: bool)
  {
    forall x {:trigger Asked(x)} :: Asked(x) ==>
      && |statuses| <= |reports|
      && IsReportOf(reports[|statuses|..], t')
      && (forall i :: 0 <= i < |statuses| && certain ==>
            (statuses[i].DeliveredNow? <==>
               && Attemptable(reports[i], configured, replaySafe)
               && IsDelivered(t, reports[i].jobId, configured, replaySafe, answers(i))))
      && (forall i :: |statuses| <= i < |reports| ==>
            (IsDelivered(t', reports[i].jobId, configured, replaySafe, answers(i)) <==>
             IsDelivered(t, reports[i].jobId, configured, replaySafe, answers(i))))
  }

  lemma NoneRanYet(
    t: Tables, reports: seq<RecoveryReport>, configured: bool, replaySafe: bool, answers: nat -> Answer, certain: bool)
    requires IsReportOf(reports, t)
    ensures RanSoFar(t, t, reports, [], configured, replaySafe, answers, certain)
  {
    assert reports[0..] == reports;
  }

  lemma FirstIsReported(
    t: Tables, t': Tables, reports: seq<RecoveryReport>, statuses: seq<Status>, configured: bool, replaySafe: bool,
    answers: nat -> Answer, certain: bool)
    requires |statuses| < |reports| && RanSoFar(t, t', reports, statuses, configured, replaySafe, answers, certain)
    ensures Reports(reports[|statuses|], t')
  {
    assert Asked(0);
    assert reports[|statuses|..][0] == reports[|statuses|];
  }

  lemma OneMoreRan(
    t: Tables, t1: Tables, t': Tables, reports: seq<RecoveryReport>, statuses: seq<Status>, status: Status,
    configured: bool, replaySafe: bool, answers: nat -> Answer, certain: bool)
    requires |statuses| < |reports| && RanSoFar(t, t1, reports, statuses, configured, replaySafe, answers, certain)
    requires var report := reports[|statuses|];
             && t'.results - {report.jobId} == t1.results - {report.jobId} && OthersKeepJobs(t1, t', report.jobId)
             && (certain ==>
                   (status.DeliveredNow? <==>
                      && Attemptable(report, configured, replaySafe)
                      && IsDelivered(t1, report.jobId, configured, replaySafe, answers(|statuses|))))
    ensures RanSoFar(t, t', reports, statuses + [status], configured, replaySafe, answers, certain)
  {
    assert Asked(0);
    var n, left := |statuses|, reports[|statuses|..];
    assert left[0] == reports[n] && left[1..] == reports[n + 1..];
    RemainingReportsStay(left, t1, t');
    forall i | n < i < |reports|
      ensures IsDelivered(t', reports[i].jobId, configured, replaySafe, answers(i)) <==>
              IsDelivered(t1, reports[i].jobId, configured, replaySafe, answers(i))
    {
      var k := reports[i].jobId;
      assert left[i - n] == reports[i];
      assert k in t1.results <==> k in t1.results - {reports[n].jobId};
      assert k in t'.results <==> k in t'.results - {reports[n].jobId};
      if k in t1.results {
        assert t'.results[k] == (t'.results - {reports[n].jobId})[k] == (t1.results - {reports[n].jobId})[k];
      }
    }
  }

  lemma AllRan(
    t: Tables, t': Tables, reports: seq<RecoveryReport>, statuses: seq<Status>, configured: bool, replaySafe: bool,
    answers: nat -> Answer, certain: bool)
    requires |statuses| == |reports| && RanSoFar(t, t', reports, statuses, configured, replaySafe, answers, certain)
    ensures certain ==>
              forall i :: 0 <= i < |reports| ==>
                (statuses[i].DeliveredNow? <==>
                   && Attemptable(reports[i], configured, replaySafe)
                   && IsDelivered(t, reports[i].jobId, configured, replaySafe, answers(i)))
  {
    assert Asked(0);
  }

  class FinalResultRecoveryRunner {
    const results: FinalResultService

    ghost predicate Valid()
      reads this, results, results.runtime, results.runtime.database
    {
      results.Valid() && results.runtime.system.phase == Recovering
    }

    constructor (results: FinalResultService)
      ensures this.results == results
    {
      this.results := results;
    }

    /** canAttempt. */
    method CanAttempt(report: RecoveryReport) returns (decision: Decision)
      ensures decision.Allowed? <==> Attemptable(report, results.configured, results.replaySafe)
      ensures decision.Allowed? <==>
                && results.configured
                && (report.action == ResultPending || (report.action == ResultUncertain && results.replaySafe))
      ensures decision.Refused? ==>
                decision.reason == if !results.configured then ContractNotConfigured
                                   else if report.action.ResultUncertain? then ReplayUnverified
                                   else NotDeliverable
    {
      if !results.configured {
        return Refused(ContractNotConfigured);
      }
      if report.action == ResultPending {
        return Allowed;
      }
      if report.action == ResultUncertain {
        return if results.replaySafe then Allowed else Refused(ReplayUnverified);
      }
      decision := Refused(NotDeliverable);
    }

    /** runOne: never throws. An attempt goes through the whole delivery, with its own checks. */
    method RunOne(report: RecoveryReport, answer: Answer, now: Time) returns (status: Status)
      requires Valid() && PcOf(results.runtime.system, report.jobId).Idle?
      modifies results.runtime, results.runtime.database
      ensures Valid()
      ensures var log := old(results.runtime.log);
              || Follows(log, results.runtime.log, report.jobId)
              || (!old(Reports(report, results.runtime.database.Contents()))
                  && Follows(log + [ResumeByHand(report.jobId)], results.runtime.log, report.jobId))
      ensures SameProcess(old(results.runtime.system), results.runtime.system, report.jobId)
      ensures PcOf(results.runtime.system, report.jobId).Idle?
      ensures status.Skipped? <==> !Attemptable(report, results.configured, results.replaySafe)
      ensures status.Skipped? ==>
                && results.runtime.system == old(results.runtime.system)
                && results.runtime.database.Contents() == old(results.runtime.database.Contents())
      ensures RunAs(old(results.runtime.database.Contents()), results.runtime.database.Contents(), report,
                    results.configured, results.replaySafe, answer, status)
      ensures results.runtime.StartsAtBoot() ==>
                (status.DeliveredNow? <==>
                   && Attemptable(report, results.configured, results.replaySafe)
                   && IsDelivered(old(results.runtime.database.Contents()), report.jobId, results.configured,
                                  results.replaySafe, answer))
      ensures old(HasStatus(results.runtime.database.Contents(), report.jobId, Uncertain)) && !results.replaySafe ==>
                && SendsOf(results.runtime.system, report.jobId) == old(SendsOf(results.runtime.system, report.jobId))
                && HasStatus(results.runtime.database.Contents(), report.jobId, Uncertain)
      ensures |SendsOf(results.runtime.system, report.jobId)| <= |old(SendsOf(results.runtime.system, report.jobId))| + 1
      ensures results.runtime.database.results - {report.jobId} == old(results.runtime.database.results) - {report.jobId}
      ensures OthersKeepJobs(old(results.runtime.database.Contents()), results.runtime.database.Contents(), report.jobId)
    {
      var decision := CanAttempt(report);
      if decision.Refused? {
        return Skipped(decision.reason);
      }
      ghost var t, sent := results.runtime.database.Contents(), SendsOf(results.runtime.system, report.jobId);
      var delivery := results.ResumeDelivery(report.jobId, answer, now);
      ResumedRunsAs(t, results.runtime.database.Contents(), sent, SendsOf(results.runtime.system, report.jobId), report,
                    results.configured, results.replaySafe, answer, delivery);
      status := if delivery.Success? then DeliveredNow(delivery.value.job.state) else Failed(delivery.error);
    }

    /** run: one after the other, whatever becomes of each. In a process that began with empty tables a report ends
        delivered exactly when an attempt is allowed and its result was, or is now, acknowledged. */
    method RunAll(reports: seq<RecoveryReport>, answers: nat -> Answer, now: Time) returns (statuses: seq<Status>)
      requires Valid() && forall j :: PcOf(results.runtime.system, j).Idle?
      modifies results.runtime, results.runtime.database
      ensures Valid() && |statuses| == |reports|
      ensures forall i :: 0 <= i < |reports| ==>
                (statuses[i].Skipped? <==> !Attemptable(reports[i], results.configured, results.replaySafe))
      ensures forall j :: PcOf(results.runtime.system, j).Idle?
      ensures old(IsReportOf(reports, results.runtime.database.Contents())) ==>
                && NothingByHand(old(results.runtime.log), results.runtime.log)
                && (results.runtime.StartsAtBoot() ==>
                      forall i :: 0 <= i < |reports| ==>
                        (statuses[i].DeliveredNow? <==>
                           && Attemptable(reports[i], results.configured, results.replaySafe)
                           && IsDelivered(old(results.runtime.database.Contents()), reports[i].jobId, results.configured,
                                          results.replaySafe, answers(i))))
    {
      ghost var t, certain := results.runtime.database.Contents(), results.runtime.StartsAtBoot();
      ghost var reported := IsReportOf(reports, t);
      if reported {
        NoneRanYet(t, reports, results.configured, results.replaySafe, answers, certain);
      }
      statuses := [];
      while |statuses| < |reports|
        invariant Valid() && |statuses| <= |reports|
        invariant forall i :: 0 <= i < |statuses| ==>
                    (statuses[i].Skipped? <==> !Attemptable(reports[i], results.configured, results.replaySafe))
        invariant forall j :: PcOf(results.runtime.system, j).Idle?
        invariant reported ==>
                    && NothingByHand(old(results.runtime.log), results.runtime.log)
                    && RanSoFar(t, results.runtime.database.Contents(), reports, statuses, results.configured,
                                results.replaySafe, answers, certain)
      {
        ghost var before, t1 := results.runtime.system, results.runtime.database.Contents();
        if reported {
          FirstIsReported(t, t1, reports, statuses, results.configured, results.replaySafe, answers, certain);
        }
        var status := RunOne(reports[|statuses|], answers(|statuses|), now);
        OthersStay(before, results.runtime.system, reports[|statuses|].jobId);
        if reported {
          OneMoreRan(t, t1, results.runtime.database.Contents(), reports, statuses, status, results.configured,
                     results.replaySafe, answers, certain);
        }
        statuses := statuses + [status];
      }
      if reported {
        AllRan(t, results.runtime.database.Contents(), reports, statuses, results.configured, results.replaySafe, answers,
               certain);
      }
    }
  }
}
