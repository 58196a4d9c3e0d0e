/** Jobs and claims (src/jobs/job-store.js): what each transaction commits. */
module JobTransactions {
  import opened Wrappers
  import opened JobStates
  import opened Schema

  datatype CreatedJob = CreatedJob(created: bool, jobId: JobId)

  /** The optional columns a transition may set. */
  datatype Patch = Patch(currentStep: Option<StepId>, failureCode: Option<Code>)

  const NO_PATCH := Patch(None, None)

  /** The first job of an application; the unique index leaves at most one. */
  ghost predicate IsFirstJob(t: Tables, j: JobId, application: ApplicationId) {
    JobFor(t, j, application) && forall k :: JobFor(t, k, application) ==> j <= k
  }

  ghost function JobOf(t: Tables, application: ApplicationId): (r: Option<JobId>)
    ensures r.Some? ==> IsFirstJob(t, r.value, application)
    ensures r.None? ==> forall j :: !JobFor(t, j, application)
  {
    if exists j :: IsFirstJob(t, j, application) then
      var j :| IsFirstJob(t, j, application);
      Some(j)
    else
      NoFirstMeansNoJob(t, application);
      None
  }

  lemma NoFirstMeansNoJob(t: Tables, application: ApplicationId)
    requires forall j :: !IsFirstJob(t, j, application)
    ensures forall j :: !JobFor(t, j, application)
  {
    var jobs := set j | j in t.jobs && JobFor(t, j, application);
    assert forall j :: JobFor(t, j, application) ==> j in jobs;
    if jobs != {} {
      var first := SmallestExists(jobs);
      assert IsFirstJob(t, first, application);
    }
  }

  function NewJob(application: ApplicationId, user: Option<UserId>): Job {
    Job(application, user, Pending, None, 0, None, None, None, 1)
  }

  ghost function CreateOrGetJob(t: Tables, application: ApplicationId, user: Option<UserId>, jobId: JobId)
    : Tx<CreatedJob>
  {
    match JobOf(t, application)
    case Some(j) => Commit(t, CreatedJob(false, j))
    case None =>
      if jobId in t.jobs || jobId in t.claims
         || exists j :: ClaimFor(t, j, application) then
        Rollback(ConstraintViolation)
      else
        Commit(
          t.(jobs := t.jobs[jobId := NewJob(application, user)],
             claims := t.claims[jobId := Claim(application, true, None)]),
          CreatedJob(true, jobId))
  }

  predicate VersionAccepted(job: Job, expected: Option<nat>) {
    expected.Some? ==> job.version == expected.value
  }

  function Moved(job: Job, to: JobState, patch: Patch, now: Time): Job {
    job.(state := to,
         currentStep := patch.currentStep.Or(job.currentStep),
         startedAt := job.startedAt.Or(if to == Running then Some(now) else None),
         completedAt := if IsTerminal(to) then Some(now) else job.completedAt,
         failureCode := patch.failureCode.Or(job.failureCode),
         version := job.version + 1)
  }

  function ReleasedClaims(claims: map<JobId, Claim>, j: JobId, now: Time): map<JobId, Claim> {
    if j in claims && claims[j].active then
      claims[j := claims[j].(active := false, releasedAt := claims[j].releasedAt.Or(Some(now)))]
    else
      claims
  }

  function TransitionJob(t: Tables, j: JobId, to: JobState, patch: Patch, expected: Option<nat>, now: Time): Tx<Job> {
    if j !in t.jobs then
      Rollback(JobNotFound)
    else if !VersionAccepted(t.jobs[j], expected) then
      Rollback(JobConflict(true))
    else if !CanTransition(t.jobs[j].state, to) then
      Rollback(InvalidTransition)
    else
      var job := Moved(t.jobs[j], to, patch, now);
      Commit(
        t.(jobs := t.jobs[j := job],
           claims := if IsTerminal(to) then ReleasedClaims(t.claims, j, now) else t.claims),
        job)
  }

  function Incremented(job: Job): Job {
    job.(retryCount := job.retryCount + 1, version := job.version + 1)
  }

  function IncrementRetry(t: Tables, j: JobId, expected: Option<nat>): Tx<Job> {
    if j !in t.jobs then
      Rollback(JobNotFound)
    else if !VersionAccepted(t.jobs[j], expected) then
      Rollback(JobConflict(true))
    else if IsTerminal(t.jobs[j].state) then
      Rollback(JobConflict(false))
    else
      var job := t.jobs[j].(retryCount := t.jobs[j].retryCount + 1, version := t.jobs[j].version + 1);
      Commit(t.(jobs := t.jobs[j := job]), job)
  }

  lemma CreationKeepsApplicationsUnique(t: Tables, application: ApplicationId, user: Option<UserId>, jobId: JobId)
    requires UniqueApplications(t)
    ensures UniqueApplications(CreateOrGetJob(t, application, user, jobId).After(t))
  {
    var t' := CreateOrGetJob(t, application, user, jobId).After(t);
    if t' != t {
      assert forall i, x :: JobFor(t', i, x) <==> JobFor(t, i, x) || (i == jobId && x == application);
      assert forall i, x :: ClaimFor(t', i, x) <==> ClaimFor(t, i, x) || (i == jobId && x == application);
    }
  }

  predicate SameApplications(t: Tables, t': Tables) {
    && t'.jobs.Keys == t.jobs.Keys
    && t'.claims.Keys == t.claims.Keys
    && (forall j :: j in t.jobs ==> t'.jobs[j].applicationId == t.jobs[j].applicationId)
    && (forall j :: j in t.claims ==> t'.claims[j].applicationId == t.claims[j].applicationId)
  }

  lemma SameApplicationsStayUnique(t: Tables, t': Tables)
    requires UniqueApplications(t) && SameApplications(t, t')
    ensures UniqueApplications(t')
  {
    assert forall i, x :: JobFor(t', i, x) <==> JobFor(t, i, x);
    assert forall i, x :: ClaimFor(t', i, x) <==> ClaimFor(t, i, x);
  }
}

/** The store itself, statement by statement. */
module JobStores {
  import opened Wrappers
  import opened JobStates
  import opened Schema
  import opened JobTransactions

  /** What a transition changes of a job: the state; step and failure code where new ones are given; the start when
      it first runs; the end when it ends; and the version by one. */
  predicate IsMoved(before: Job, after: Job, to: JobState, patch: Patch, now: Time) {
    && after.applicationId == before.applicationId && after.userId == before.userId
    && after.retryCount == before.retryCount
    && after.state == to
    && after.version == before.version + 1
    && (patch.currentStep.None? ==> after.currentStep == before.currentStep)
    && (patch.currentStep.Some? ==> after.currentStep == patch.currentStep)
    && (patch.failureCode.None? ==> after.failureCode == before.failureCode)
    && (patch.failureCode.Some? ==> after.failureCode == patch.failureCode)
    && (before.startedAt.Some? || to != Running ==> after.startedAt == before.startedAt)
    && (before.startedAt.None? && to == Running ==> after.startedAt == Some(now))
    && (to in {JobState.Completed, FailedFinal, Cancelled} ==> after.completedAt == Some(now))
    && (to !in {JobState.Completed, FailedFinal, Cancelled} ==> after.completedAt == before.completedAt)
  }

  class JobStore {
    const database: Database

    constructor (database: Database)
      ensures this.database == database
    {
      this.database := database;
    }

    /** SELECT the job of an application. */
    method FindByApplication(application: ApplicationId) returns (r: Option<JobId>)
      ensures r == JobOf(database.Contents(), application)
    {
      var found := set j | j in database.jobs && JobFor(database.Contents(), j, application);
      var rest := found;
      r := None;
      while rest != {}
        invariant rest <= found
        invariant r.None? ==> rest == found
        invariant r.Some? ==> r.value in found
        invariant r.Some? ==> forall j :: j in found && j !in rest ==> r.value <= j
      {
        var j :| j in rest;
        if r.None? || j < r.value {
          r := Some(j);
        }
        rest := rest - {j};
      }
      assert forall j :: JobFor(database.Contents(), j, application) ==> j in found;
      if r.Some? {
        assert IsFirstJob(database.Contents(), r.value, application);
      }
    }

    method CreateOrGet(application: ApplicationId, user: Option<UserId>, jobId: JobId)
      returns (r: Result<CreatedJob, Error>)
      modifies database
      ensures var tx := CreateOrGetJob(old(database.Contents()), application, user, jobId);
              database.Contents() == tx.After(old(database.Contents())) && r == tx.Outcome()
      ensures r.Success? ==>
                && r.value.jobId in database.jobs && database.jobs[r.value.jobId].applicationId == application
                && (r.value.created <==> forall j :: !JobFor(old(database.Contents()), j, application))
      ensures r.Success? && r.value.created ==>
                && r.value.jobId == jobId && jobId !in old(database.jobs)
                && database.jobs == old(database.jobs)[jobId := Job(application, user, Pending, None, 0, None, None, None, 1)]
                && database.claims == old(database.claims)[jobId := Claim(application, true, None)]
      ensures r.Failure? || !r.value.created ==> database.Contents() == old(database.Contents())
    {
      var existing := FindByApplication(application);
      if existing.Some? {
        return Success(CreatedJob(false, existing.value));
      }
      var savepoint := database.Contents();
      if jobId in database.jobs {
        return Failure(ConstraintViolation);
      }
      database.jobs := database.jobs[jobId := NewJob(application, user)];
      if jobId in database.claims
         || exists j :: j in database.claims && ClaimFor(savepoint, j, application) {
        database.Restore(savepoint);
        return Failure(ConstraintViolation);
      }
      database.claims := database.claims[jobId := Claim(application, true, None)];
      r := Success(CreatedJob(true, jobId));
    }

    /** UPDATE jobs ... WHERE id = j AND version = expected; says how many rows changed. */
    method UpdateJob(j: JobId, expected: nat, job: Job) returns (changes: nat)
      modifies database`jobs
      ensures changes == if j in old(database.jobs) && old(database.jobs[j]).version == expected then 1 else 0
      ensures database.jobs == if changes == 1 then old(database.jobs)[j := job] else old(database.jobs)
    {
      changes := 0;
      if j in database.jobs && database.jobs[j].version == expected {
        database.jobs := database.jobs[j := job];
        changes := 1;
      }
    }

    /** UPDATE claims ... WHERE job_id = j AND status = 'ACTIVE'. */
    method ReleaseClaim(j: JobId, now: Time)
      modifies database`claims
      ensures database.claims == ReleasedClaims(old(database.claims), j, now)
    {
      if j in database.claims && database.claims[j].active {
        var claim := database.claims[j];
        var releasedAt := if claim.releasedAt.Some? then claim.releasedAt else Some(now);
        database.claims := database.claims[j := claim.(active := false, releasedAt := releasedAt)];
      }
    }

    method Transition(j: JobId, to: JobState, patch: Patch, expected: Option<nat>, now: Time)
      returns (r: Result<Job, Error>)
      modifies database
      ensures var tx := TransitionJob(old(database.Contents()), j, to, patch, expected, now);
              database.Contents() == tx.After(old(database.Contents())) && r == tx.Outcome()
      ensures r.Failure? ==> database.Contents() == old(database.Contents())
      ensures r.Success? ==>
                && old(j in database.jobs) && CanTransition(old(database.jobs)[j].state, to)
                && (expected.None? || expected.value == old(database.jobs)[j].version)
                && database.jobs == old(database.jobs)[j := r.value]
                && IsMoved(old(database.jobs)[j], r.value, to, patch, now)
    {
      if j !in database.jobs {
        return Failure(JobNotFound);
      }
      var current := database.jobs[j];
      if expected.Some? && current.version != expected.value {
        return Failure(JobConflict(true));
      }
      if !CanTransition(current.state, to) {
        return Failure(InvalidTransition);
      }
      var startedAt := current.startedAt;
      if startedAt.None? && to == Running {
        startedAt := Some(now);
      }
      var completedAt := current.completedAt;
      if IsTerminal(to) {
        completedAt := Some(now);
      }
      var step := if patch.currentStep.Some? then patch.currentStep else current.currentStep;
      var code := if patch.failureCode.Some? then patch.failureCode else current.failureCode;
      var job := current.(state := to, currentStep := step, startedAt := startedAt,
                          completedAt := completedAt, failureCode := code, version := current.version + 1);
      assert job == Moved(current, to, patch, now);
      var changes := UpdateJob(j, current.version, job);
      if changes != 1 {
        return Failure(JobConflict(true));
      }
      if IsTerminal(to) {
        ReleaseClaim(j, now);
      }
      r := Success(database.jobs[j]);
    }

    method Increment(j: JobId, expected: Option<nat>) returns (r: Result<Job, Error>)
      modifies database
      ensures var tx := IncrementRetry(old(database.Contents()), j, expected);
              database.Contents() == tx.After(old(database.Contents())) && r == tx.Outcome()
      ensures r.Failure? ==> database.Contents() == old(database.Contents())
      ensures r.Success? ==>
                && old(j in database.jobs) && old(database.jobs)[j].state !in {JobState.Completed, FailedFinal, Cancelled}
                && (expected.None? || expected.value == old(database.jobs)[j].version)
                && database.jobs == old(database.jobs)[j := r.value]
                && r.value == old(database.jobs)[j].(retryCount := old(database.jobs)[j].retryCount + 1,
                                                     version := old(database.jobs)[j].version + 1)
    {
      if j !in database.jobs {
        return Failure(JobNotFound);
      }
      var current := database.jobs[j];
      if expected.Some? && current.version != expected.value {
        return Failure(JobConflict(true));
      }
      if IsTerminal(current.state) {
        return Failure(JobConflict(false));
      }
      var counted := current.(retryCount := current.retryCount + 1, version := current.version + 1);
      var changes := UpdateJob(j, current.version, counted);
      if changes != 1 {
        return Failure(JobConflict(true));
      }
      r := Success(database.jobs[j]);
    }

    /** SELECT the ids of the jobs that are not terminal; no order is fixed here. */
    method ListIncomplete() returns (ids: seq<JobId>)
      ensures forall i, k :: 0 <= i < k < |ids| ==> ids[i] != ids[k]
      ensures forall j :: j in ids <==> j in database.jobs && !IsTerminal(database.jobs[j].state)
    {
      var rest := set j | j in database.jobs && !IsTerminal(database.jobs[j].state);
      ids := [];
      while rest != {}
        invariant forall i, k :: 0 <= i < k < |ids| ==> ids[i] != ids[k]
        invariant forall j :: j in database.jobs && !IsTerminal(database.jobs[j].state) <==> j in ids || j in rest
        invariant forall j :: j in ids ==> j !in rest
      {
        var j :| j in rest;
        ids := ids + [j];
        rest := rest - {j};
      }
    }
  }
}
