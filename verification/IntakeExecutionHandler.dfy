/** Admitting jobs to execution, one runner per job, and counting what becomes of them
    (src/runtime/intake-execution-handler.js). The tasks of a cycle overlap: all are admitted before any of
    them ends, they end in any order, and stop() may come anywhere in between. */
module IntakeExecutionHandlers {
  import opened Wrappers
  import opened Schema
  import opened RetryPolicy

  type Controller = nat

  /** How the runner of an admitted job ends. */
  datatype TaskEnd = Finalized | Throws(error: ExecutionError)

  datatype Outcome = Completed | ManualChallenge | Aborted | Failed

  datatype Refusal = Stopped | AlreadyActive | DuplicateJob | Overlapping

  datatype Summary = Summary(
    admitted: nat, workflowCompleted: nat, failed: nat, manualChallenges: nat, aborted: nat, skippedAfterStop: nat)

  /** classifyExecutionError, for an error or for success. */
  function OutcomeOf(end: TaskEnd, stopped: bool): (r: Outcome)
    ensures r == Completed <==> end.Finalized?
    ensures r == ManualChallenge <==> end.Throws? && IsChallenge(end.error)
    ensures r == Aborted <==> end.Throws? && (IsInterruption(end.error) || (stopped && IsFailure(end.error)))
    ensures r == Failed <==> end.Throws? && IsFailure(end.error) && !stopped
  {
    match end
    case Finalized => Completed
    case Throws(error) =>
      if error.code == Some(ManualChallengeRequired) then ManualChallenge
      else if stopped || error.abortName || IsShutdownCode(error.code) then Aborted
      else Failed
  }

  function Count(outcomes: seq<Outcome>, kind: Outcome): nat {
    if outcomes == [] then 0
    else Count(outcomes[..|outcomes| - 1], kind) + if outcomes[|outcomes| - 1] == kind then 1 else 0
  }

  /** Every outcome is counted under exactly one heading. */
  lemma {:induction false} OutcomesAddUp(outcomes: seq<Outcome>)
    ensures Count(outcomes, Completed) + Count(outcomes, ManualChallenge) + Count(outcomes, Aborted)
            + Count(outcomes, Failed) == |outcomes|
  {
    if outcomes != [] {
      OutcomesAddUp(outcomes[..|outcomes| - 1]);
    }
  }

  /** The order in which the tasks of a cycle end. */
  predicate IsOrder(order: seq<nat>, n: nat) {
    && |order| == n
    && (forall k :: 0 <= k < n ==> order[k] < n)
    && (forall k, m :: 0 <= k < m < n ==> order[k] != order[m])
    && (forall i :: 0 <= i < n ==> i in order)
  }

  /** What becomes of the task that ends after k others, when stop() is called after stopAfter of them. */
  function OutcomeAt(ends: nat -> TaskEnd, order: seq<nat>, k: nat, stopAfter: nat): Outcome
    requires k < |order|
  {
    OutcomeOf(ends(order[k]), stopAfter <= k)
  }

  /** A stop turns failures into aborts, and nothing else: completed workflows and manual challenges stay what
      they are. */
  lemma StopOnlyAborts(end: TaskEnd)
    ensures OutcomeOf(end, true) == if OutcomeOf(end, false) == Failed then Aborted else OutcomeOf(end, false)
  {
  }

  /** The tasks with this outcome. */
  function WithOutcome(outcomes: seq<Outcome>, kind: Outcome): set<nat> {
    set i: nat | i < |outcomes| && outcomes[i] == kind
  }

  lemma {:induction false} CountIsSize(outcomes: seq<Outcome>, kind: Outcome)
    ensures Count(outcomes, kind) == |WithOutcome(outcomes, kind)|
  {
    if outcomes != [] {
      var init, last := outcomes[..|outcomes| - 1], |outcomes| - 1;
      CountIsSize(init, kind);
      assert WithOutcome(outcomes, kind) == WithOutcome(init, kind) + if outcomes[last] == kind then {last} else {};
    }
  }

  /** The tasks that finalize their job, that meet a challenge, that are interrupted, and that fail. */
  function Finalizing(ends: nat -> TaskEnd, n: nat): set<nat> {
    set i: nat | i < n && ends(i).Finalized?
  }

  function Challenged(ends: nat -> TaskEnd, n: nat): set<nat> {
    set i: nat | i < n && ends(i).Throws? && IsChallenge(ends(i).error)
  }

  function Interrupted(ends: nat -> TaskEnd, n: nat): set<nat> {
    set i: nat | i < n && ends(i).Throws? && IsInterruption(ends(i).error)
  }

  function Failing(ends: nat -> TaskEnd, n: nat): set<nat> {
    set i: nat | i < n && ends(i).Throws? && IsFailure(ends(i).error)
  }

  /** What a cycle counts, from how its tasks end: finalized jobs and challenges whatever the order and wherever
      stop() comes; interruptions as aborted; and of the failures some as aborted, none of them when stop() does not
      come, and all of them when it comes first. */
  lemma CountsAreThoseOfTheEnds(ends: nat -> TaskEnd, order: seq<nat>, stopAfter: nat, outcomes: seq<Outcome>)
    requires IsOrder(order, |outcomes|)
    requires forall k :: 0 <= k < |order| ==> outcomes[order[k]] == OutcomeAt(ends, order, k, stopAfter)
    ensures var n := |outcomes|;
            && Count(outcomes, Completed) == |Finalizing(ends, n)|
            && Count(outcomes, ManualChallenge) == |Challenged(ends, n)|
            && (stopAfter >= n ==>
                  Count(outcomes, Aborted) == |Interrupted(ends, n)| && Count(outcomes, Failed) == |Failing(ends, n)|)
            && (stopAfter == 0 ==> Count(outcomes, Failed) == 0)
  {
    var n := |outcomes|;
    forall i: nat | i < n
      ensures (outcomes[i] == Completed <==> i in Finalizing(ends, n))
              && (outcomes[i] == ManualChallenge <==> i in Challenged(ends, n))
              && (stopAfter >= n ==>
                    (outcomes[i] == Aborted <==> i in Interrupted(ends, n))
                    && (outcomes[i] == Failed <==> i in Failing(ends, n)))
              && (stopAfter == 0 ==> outcomes[i] != Failed)
    {
      assert i in order;
      var k :| 0 <= k < n && order[k] == i;
      assert outcomes[order[k]] == OutcomeAt(ends, order, k, stopAfter);
    }
    assert WithOutcome(outcomes, Completed) == Finalizing(ends, n);
    assert WithOutcome(outcomes, ManualChallenge) == Challenged(ends, n);
    if stopAfter >= n {
      assert WithOutcome(outcomes, Aborted) == Interrupted(ends, n);
      assert WithOutcome(outcomes, Failed) == Failing(ends, n);
    }
    if stopAfter == 0 {
      assert WithOutcome(outcomes, Failed) == {};
    }
    CountIsSize(outcomes, Completed);
    CountIsSize(outcomes, ManualChallenge);
    CountIsSize(outcomes, Aborted);
    CountIsSize(outcomes, Failed);
  }

  predicate Distinct(ids: seq<JobId>) {
    forall i, k :: 0 <= i < k < |ids| ==> ids[i] != ids[k]
  }

  predicate Controls(jobs: map<JobId, Controller>, j: JobId, c: Controller) {
    j in jobs && jobs[j] == c
  }

  /** Active jobs and controllers correspond one to one. */
  ghost predicate OnePerJob(jobs: map<JobId, Controller>, controllers: set<Controller>) {
    && (forall i, j, c :: Controls(jobs, i, c) && Controls(jobs, j, c) ==> i == j)
    && (forall j, c :: Controls(jobs, j, c) ==> c in controllers)
    && (forall c :: c in controllers ==> exists j :: Controls(jobs, j, c))
  }

  lemma AdmittingKeepsOnePerJob(jobs: map<JobId, Controller>, controllers: set<Controller>, j: JobId, c: Controller)
    requires OnePerJob(jobs, controllers) && j !in jobs && c !in controllers
    ensures OnePerJob(jobs[j := c], controllers + {c})
  {
    var later := jobs[j := c];
    assert forall i, d :: Controls(later, i, d) <==> Controls(jobs, i, d) || (i == j && d == c);
    forall d | d in controllers + {c} ensures exists i :: Controls(later, i, d) {
      if d == c {
        assert Controls(later, j, c);
      } else {
        var i :| Controls(jobs, i, d);
        assert Controls(later, i, d);
      }
    }
  }

  lemma SettlingKeepsOnePerJob(jobs: map<JobId, Controller>, controllers: set<Controller>, j: JobId, c: Controller)
    requires OnePerJob(jobs, controllers) && Controls(jobs, j, c)
    ensures OnePerJob(jobs - {j}, controllers - {c})
  {
    var later := jobs - {j};
    assert forall i, d :: Controls(later, i, d) <==> Controls(jobs, i, d) && i != j;
    forall d | d in controllers - {c} ensures exists i :: Controls(later, i, d) {
      var i :| Controls(jobs, i, d);
      assert Controls(later, i, d);
    }
  }

  function Members(ids: seq<JobId>): set<JobId> {
    set i | 0 <= i < |ids| :: ids[i]
  }

  lemma MembersGrow(ids: seq<JobId>, i: nat)
    requires i < |ids|
    ensures Members(ids[..i + 1]) == Members(ids[..i]) + {ids[i]}
  {
    var longer := ids[..i + 1];
    forall j | j in Members(longer) ensures j in Members(ids[..i]) + {ids[i]} {
      var k :| 0 <= k < |longer| && longer[k] == j;
      assert k < i ==> ids[..i][k] == j;
    }
    forall j | j in Members(ids[..i]) ensures j in Members(longer) {
      var k :| 0 <= k < i && ids[..i][k] == j;
      assert longer[k] == j;
    }
    assert longer[i] == ids[i];
  }

  lemma AddedAndTaken(jobs: map<JobId, Controller>, j: JobId, c: Controller, others: set<JobId>)
    requires j !in jobs
    ensures jobs[j := c] - (others + {j}) == jobs - others
  {
  }

  /** The first job that stands in the way of a cycle is there twice, or has a runner already. */
  predicate IsRefused(ids: seq<JobId>, active: map<JobId, Controller>, error: Refusal) {
    exists i :: 0 <= i < |ids|
      && Distinct(ids[..i]) && (forall j :: j in ids[..i] ==> j !in active)
      && if ids[i] in ids[..i] then error == DuplicateJob else ids[i] in active && error == AlreadyActive
  }

  /** The jobs of the first k tasks that end. */
  function Ended(ids: seq<JobId>, order: seq<nat>, k: nat): set<JobId>
    requires IsOrder(order, |ids|) && k <= |ids|
  {
    set m | 0 <= m < k :: ids[order[m]]
  }

  lemma EndedGrows(ids: seq<JobId>, order: seq<nat>, k: nat)
    requires IsOrder(order, |ids|) && k < |ids|
    ensures Ended(ids, order, k + 1) == Ended(ids, order, k) + {ids[order[k]]}
  {
  }

  lemma AllEnded(ids: seq<JobId>, order: seq<nat>)
    requires IsOrder(order, |ids|)
    ensures Ended(ids, order, |ids|) == Members(ids)
  {
    forall j | j in Members(ids) ensures j in Ended(ids, order, |ids|) {
      var i :| 0 <= i < |ids| && ids[i] == j;
      assert i in order;
    }
  }

  class IntakeExecutionHandler {
    var stopped: bool
    var handling: bool
    var activeJobs: map<JobId, Controller>
    var activeControllers: set<Controller>
    var nextController: Controller
    var completedCycles: nat
    var totalAdmitted: nat
    var totalWorkflowCompleted: nat
    var totalFailed: nat
    var totalManualChallenges: nat
    var totalManualResumes: nat
    var manualResumes: map<Outcome, nat>

    /** Every active job has its own controller, and there are no others: one runner per job. Resumes are
        counted by outcome. */
    ghost predicate Valid()
      reads this
    {
      && OnePerJob(activeJobs, activeControllers)
      && (forall c :: c in activeControllers ==> c < nextController)
      && Completed in manualResumes && ManualChallenge in manualResumes
      && Aborted in manualResumes && Failed in manualResumes
      && totalManualResumes ==
         manualResumes[Completed] + manualResumes[ManualChallenge] + manualResumes[Aborted] + manualResumes[Failed]
    }

    constructor ()
      ensures Valid() && activeJobs == map[] && !stopped && !handling
    {
      stopped, handling := false, false;
      activeJobs, activeControllers, nextController := map[], {}, 0;
      completedCycles, totalAdmitted, totalWorkflowCompleted, totalFailed := 0, 0, 0, 0;
      totalManualChallenges, totalManualResumes := 0, 0;
      manualResumes := map[Completed := 0, ManualChallenge := 0, Aborted := 0, Failed := 0];
    }

    /** The admission half of runManaged: refused while stopped and while the job has a runner. */
    method Admit(j: JobId) returns (r: Result<Controller, Refusal>)
      requires Valid()
      modifies `activeJobs, `activeControllers, `nextController
      ensures Valid()
      ensures r.Success? <==> !stopped && j !in old(activeJobs)
      ensures r.Success? ==> activeJobs == old(activeJobs)[j := r.value]
      ensures r.Failure? ==> activeJobs == old(activeJobs)
      ensures r.Failure? ==> r.error == if stopped then Stopped else AlreadyActive
    {
      if stopped {
        return Failure(Stopped);
      }
      if j in activeJobs {
        return Failure(AlreadyActive);
      }
      var controller := nextController;
      nextController := nextController + 1;
      AdmittingKeepsOnePerJob(activeJobs, activeControllers, j, controller);
      activeControllers := activeControllers + {controller};
      activeJobs := activeJobs[j := controller];
      r := Success(controller);
    }

    /** The finally block of runManaged: only the runner's own entry goes away. */
    method Settle(j: JobId, controller: Controller)
      requires Valid() && j in activeJobs && activeJobs[j] == controller
      modifies `activeJobs, `activeControllers
      ensures Valid() && activeJobs == old(activeJobs) - {j}
    {
      SettlingKeepsOnePerJob(activeJobs, activeControllers, j, controller);
      activeControllers := activeControllers - {controller};
      if j in activeJobs && activeJobs[j] == controller {
        activeJobs := activeJobs - {j};
      }
    }

    /** The checks before a cycle is admitted. */
    method CheckBatch(ids: seq<JobId>) returns (r: Result<(), Refusal>)
      requires Valid()
      ensures r.Success? <==> Distinct(ids) && forall j :: j in ids ==> j !in activeJobs
      ensures r.Failure? ==> IsRefused(ids, activeJobs, r.error)
    {
      var batch: set<JobId> := {};
      for i := 0 to |ids|
        invariant forall j :: j in batch <==> j in ids[..i]
        invariant Distinct(ids[..i])
        invariant forall j :: j in ids[..i] ==> j !in activeJobs
      {
        if ids[i] in batch {
          assert !Distinct(ids);
          return Failure(DuplicateJob);
        }
        if ids[i] in activeJobs {
          return Failure(AlreadyActive);
        }
        batch := batch + {ids[i]};
      }
      assert ids[..|ids|] == ids;
      r := Success(());
    }

    /** The first half of a cycle: its jobs are admitted one after the other, before any of them runs. */
    method AdmitAll(ids: seq<JobId>) returns (controllers: seq<Controller>)
      requires Valid() && !stopped && Distinct(ids) && forall j :: j in ids ==> j !in activeJobs
      modifies `activeJobs, `activeControllers, `nextController
      ensures Valid() && |controllers| == |ids|
      ensures forall i :: 0 <= i < |ids| ==> Controls(activeJobs, ids[i], controllers[i])
      ensures activeJobs - Members(ids) == old(activeJobs)
    {
      controllers := [];
      assert Members(ids[..0]) == {};
      assert activeJobs - {} == activeJobs;
      for i := 0 to |ids|
        invariant Valid() && |controllers| == i
        invariant forall k :: 0 <= k < i ==> Controls(activeJobs, ids[k], controllers[k])
        invariant forall j :: j in ids[i..] ==> j !in activeJobs
        invariant activeJobs - Members(ids[..i]) == old(activeJobs)
      {
        assert ids[i] in ids[i..];
        ghost var before := activeJobs;
        var controller := Admit(ids[i]);
        MembersGrow(ids, i);
        AddedAndTaken(before, ids[i], controller.value, Members(ids[..i]));
        controllers := controllers + [controller.value];
      }
      assert ids[..|ids|] == ids;
    }

    /** The second half: the tasks end in some order, and stop() is called after stopAfter of them, if there are
        so many. */
    method SettleAll(
      ids: seq<JobId>, controllers: seq<Controller>, ends: nat -> TaskEnd, order: seq<nat>, stopAfter: nat)
      returns (outcomes: seq<Outcome>)
      requires Valid() && !stopped && Distinct(ids) && |controllers| == |ids| && IsOrder(order, |ids|)
      requires forall i :: 0 <= i < |ids| ==> Controls(activeJobs, ids[i], controllers[i])
      modifies `activeJobs, `activeControllers, `stopped
      ensures Valid() && activeJobs == old(activeJobs) - Members(ids)
      ensures stopped == (stopAfter <= |ids|)
      ensures |outcomes| == |ids|
      ensures forall k :: 0 <= k < |order| ==> outcomes[order[k]] == OutcomeAt(ends, order, k, stopAfter)
    {
      outcomes := seq(|ids|, i => Failed);
      assert activeJobs - {} == activeJobs;
      for k := 0 to |ids|
        invariant Valid() && |outcomes| == |ids|
        invariant stopped == (stopAfter < k)
        invariant forall m :: k <= m < |ids| ==> Controls(activeJobs, ids[order[m]], controllers[order[m]])
        invariant activeJobs == old(activeJobs) - Ended(ids, order, k)
        invariant forall m :: 0 <= m < k ==> outcomes[order[m]] == OutcomeAt(ends, order, m, stopAfter)
      {
        if stopAfter == k {
          stopped := true;
        }
        var i := order[k];
        Settle(ids[i], controllers[i]);
        outcomes := outcomes[i := OutcomeOf(ends(i), stopped)];
        EndedGrows(ids, order, k);
        assert old(activeJobs) - Ended(ids, order, k) - {ids[i]} == old(activeJobs) - Ended(ids, order, k + 1);
      }
      if stopAfter == |ids| {
        stopped := true;
      }
      AllEnded(ids, order);
    }

    method RunAll(ids: seq<JobId>, ends: nat -> TaskEnd, order: seq<nat>, stopAfter: nat)
      returns (outcomes: seq<Outcome>)
      requires Valid() && !stopped && Distinct(ids) && forall j :: j in ids ==> j !in activeJobs
      requires IsOrder(order, |ids|)
      modifies `activeJobs, `activeControllers, `nextController, `stopped
      ensures Valid() && activeJobs == old(activeJobs)
      ensures stopped == (stopAfter <= |ids|)
      ensures |outcomes| == |ids|
      ensures forall k :: 0 <= k < |order| ==> outcomes[order[k]] == OutcomeAt(ends, order, k, stopAfter)
    {
      var controllers := AdmitAll(ids);
      outcomes := SettleAll(ids, controllers, ends, order, stopAfter);
    }

    /** handleCycleResult: all jobs of the cycle or none; the counters add up to what was admitted, and are those
        of the outcomes, whatever the order and wherever stop() comes. */
    method HandleCycleResult(ids: seq<JobId>, ends: nat -> TaskEnd, order: seq<nat>, stopAfter: nat)
      returns (r: Result<Summary, Refusal>, ghost outcomes: seq<Outcome>)
      requires Valid() && IsOrder(order, |ids|)
      modifies this
      ensures Valid() && activeJobs == old(activeJobs)
      ensures r.Success? <==>
                && !old(handling)
                && (old(stopped) || (Distinct(ids) && forall j :: j in ids ==> j !in old(activeJobs)))
      ensures r.Failure? ==> totalAdmitted == old(totalAdmitted) && completedCycles == old(completedCycles)
      ensures r.Success? && old(stopped) ==> r.value == Summary(0, 0, 0, 0, 0, |ids|) && totalAdmitted == old(totalAdmitted)
      ensures r.Success? && !old(stopped) ==>
                && r.value.admitted == |ids| && r.value.skippedAfterStop == 0
                && r.value.workflowCompleted + r.value.failed + r.value.manualChallenges + r.value.aborted == |ids|
                && totalAdmitted == old(totalAdmitted) + |ids|
                && totalWorkflowCompleted == old(totalWorkflowCompleted) + r.value.workflowCompleted
                && totalFailed == old(totalFailed) + r.value.failed
                && totalManualChallenges == old(totalManualChallenges) + r.value.manualChallenges
                && completedCycles == old(completedCycles) + 1
      ensures r.Success? && !old(stopped) ==>
                && |outcomes| == |ids|
                && (forall k :: 0 <= k < |order| ==> outcomes[order[k]] == OutcomeAt(ends, order, k, stopAfter))
                && r.value.workflowCompleted == Count(outcomes, Completed) && r.value.failed == Count(outcomes, Failed)
                && r.value.manualChallenges == Count(outcomes, ManualChallenge)
                && r.value.aborted == Count(outcomes, Aborted)
                && stopped == (stopAfter <= |ids|)
      ensures r.Success? && !old(stopped) ==>
                && r.value.workflowCompleted == |Finalizing(ends, |ids|)|
                && r.value.manualChallenges == |Challenged(ends, |ids|)|
                && (stopAfter >= |ids| ==>
                      r.value.aborted == |Interrupted(ends, |ids|)| && r.value.failed == |Failing(ends, |ids|)|)
                && (stopAfter == 0 ==> r.value.failed == 0)
      ensures r.Failure? || old(stopped) ==> stopped == old(stopped)
      ensures handling == old(handling)
      ensures r.Failure? ==>
                if old(handling) then r.error == Overlapping else IsRefused(ids, old(activeJobs), r.error)
    {
      if handling {
        return Failure(Overlapping), [];
      }
      if stopped {
        return Success(Summary(0, 0, 0, 0, 0, |ids|)), [];
      }
      var checked := CheckBatch(ids);
      if checked.Failure? {
        return Failure(checked.error), [];
      }
      handling := true;
      var settled := RunAll(ids, ends, order, stopAfter);
      outcomes := settled;
      OutcomesAddUp(settled);
      CountsAreThoseOfTheEnds(ends, order, stopAfter, settled);
      var completed, failed, challenges, aborted := Tally(settled);
      var summary := Summary(|ids|, completed, failed, challenges, aborted, 0);
      AddToTotals(summary);
      handling := false;
      r := Success(summary);
    }

    method AddToTotals(summary: Summary)
      requires Valid()
      modifies `completedCycles, `totalAdmitted, `totalWorkflowCompleted, `totalFailed, `totalManualChallenges
      ensures Valid()
      ensures completedCycles == old(completedCycles) + 1
      ensures totalAdmitted == old(totalAdmitted) + summary.admitted
      ensures totalWorkflowCompleted == old(totalWorkflowCompleted) + summary.workflowCompleted
      ensures totalFailed == old(totalFailed) + summary.failed
      ensures totalManualChallenges == old(totalManualChallenges) + summary.manualChallenges
    {
      completedCycles := completedCycles + 1;
      totalAdmitted := totalAdmitted + summary.admitted;
      totalWorkflowCompleted := totalWorkflowCompleted + summary.workflowCompleted;
      totalFailed := totalFailed + summary.failed;
      totalManualChallenges := totalManualChallenges + summary.manualChallenges;
    }

    /** The counting loop. */
    method Tally(outcomes: seq<Outcome>) returns (completed: nat, failed: nat, challenges: nat, aborted: nat)
      ensures completed == Count(outcomes, Completed) && failed == Count(outcomes, Failed)
      ensures challenges == Count(outcomes, ManualChallenge) && aborted == Count(outcomes, Aborted)
    {
      completed, failed, challenges, aborted := 0, 0, 0, 0;
      for i := 0 to |outcomes|
        invariant completed == Count(outcomes[..i], Completed) && failed == Count(outcomes[..i], Failed)
        invariant challenges == Count(outcomes[..i], ManualChallenge) && aborted == Count(outcomes[..i], Aborted)
      {
        assert outcomes[..i + 1][..i] == outcomes[..i];
        match outcomes[i] {
          case Completed => completed := completed + 1;
          case ManualChallenge => challenges := challenges + 1;
          case Aborted => aborted := aborted + 1;
          case Failed => failed := failed + 1;
        }
      }
      assert outcomes[..|outcomes|] == outcomes;
    }

    /** resumeManualChallenge: the same exclusivity, counted by outcome; stop() may come while it runs. */
    method ResumeManualChallenge(j: JobId, end: TaskEnd, stops: bool) returns (r: Result<Outcome, Refusal>)
      requires Valid()
      modifies this
      ensures Valid() && activeJobs == old(activeJobs)
      ensures r.Success? <==> !old(stopped) && j !in old(activeJobs)
      ensures r.Failure? ==> r.error == if old(stopped) then Stopped else AlreadyActive
      ensures r.Success? ==>
                && r.value == OutcomeOf(end, stops)
                && stopped == stops
                && totalManualResumes == old(totalManualResumes) + 1
                && manualResumes == old(manualResumes)[r.value := old(manualResumes)[r.value] + 1]
      ensures r.Failure? ==>
                && manualResumes == old(manualResumes) && totalManualResumes == old(totalManualResumes)
                && stopped == old(stopped)
    {
      var controller := Admit(j);
      if controller.Failure? {
        return Failure(controller.error);
      }
      stopped := stops;
      Settle(j, controller.value);
      assert old(activeJobs)[j := controller.value] - {j} == old(activeJobs);
      var outcome := OutcomeOf(end, stopped);
      totalManualResumes := totalManualResumes + 1;
      manualResumes := manualResumes[outcome := manualResumes[outcome] + 1];
      r := Success(outcome);
    }
  }
}
