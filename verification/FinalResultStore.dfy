/** The final-result ledger (src/results/final-result-store.js): what each transaction commits. */
module LedgerTransactions {
  import opened Wrappers
  import opened JobStates
  import opened Schema
  import opened CanonicalJson

  /** A result after normalization (src/results/final-result.js): its canonical payload and digest. */
  datatype NormalizedResult = NormalizedResult(
    applicationId: ApplicationId,
    outcome: FinalOutcome,
    code: Option<Code>,
    payload: Json,
    digest: Digest)

  datatype CreatedResult = CreatedResult(created: bool, record: FinalResult)

  datatype StartedDelivery = StartedDelivery(started: bool, record: FinalResult)

  function TerminalStateOf(outcome: FinalOutcome): JobState {
    if outcome == SuccessOutcome then Completed else FailedFinal
  }

  function NewRecord(n: NormalizedResult): FinalResult {
    FinalResult(n.applicationId, n.outcome, TerminalStateOf(n.outcome), n.code, n.payload, n.digest,
                DeliveryPending, 0, None, None, None)
  }

  function CreateOrGetResult(t: Tables, j: JobId, n: NormalizedResult): Tx<CreatedResult> {
    if j !in t.jobs then
      Rollback(JobNotFound)
    else if t.jobs[j].applicationId != n.applicationId then
      Rollback(FinalResultConflict)
    else if j in t.results then
      if t.results[j].digest != n.digest || t.results[j].terminalState != TerminalStateOf(n.outcome) then
        Rollback(FinalResultConflict)
      else
        Commit(t, CreatedResult(false, t.results[j]))
    else
      Commit(t.(results := t.results[j := NewRecord(n)]), CreatedResult(true, NewRecord(n)))
  }

  /** A committed change of one ledger row. */
  function Rewrite(t: Tables, j: JobId, record: FinalResult): Tx<FinalResult> {
    Commit(t.(results := t.results[j := record]), record)
  }

  predicate HasStatus(t: Tables, j: JobId, status: DeliveryStatus) {
    j in t.results && t.results[j].status == status
  }

  function BeginDelivery(t: Tables, j: JobId): Tx<StartedDelivery> {
    if j !in t.results then
      Rollback(FinalResultConflict)
    else
      match t.results[j].status
      case Delivered => Commit(t, StartedDelivery(false, t.results[j]))
      case Uncertain => Rollback(DeliveryUncertain)
      case InFlight => Rollback(FinalResultConflict)
      case DeliveryPending =>
        var record := t.results[j].(status := InFlight, attempts := t.results[j].attempts + 1, certainty := None);
        Commit(t.(results := t.results[j := record]), StartedDelivery(true, record))
  }

  function MarkPending(t: Tables, j: JobId, certainty: Certainty): Tx<FinalResult> {
    if !HasStatus(t, j, InFlight) then
      Rollback(FinalResultConflict)
    else
      Rewrite(t, j, t.results[j].(status := DeliveryPending, certainty := Some(certainty)))
  }

  function MarkUncertain(t: Tables, j: JobId): Tx<FinalResult> {
    if !HasStatus(t, j, InFlight) then
      Rollback(FinalResultConflict)
    else
      Rewrite(t, j, t.results[j].(status := Uncertain, certainty := Some(Ambiguous)))
  }

  /** After a restart: IN_FLIGHT becomes UNCERTAIN, UNCERTAIN stays as it is. */
  function MarkInterrupted(t: Tables, j: JobId): Tx<FinalResult> {
    if HasStatus(t, j, Uncertain) then
      Commit(t, t.results[j])
    else
      MarkUncertain(t, j)
  }

  function Requeue(t: Tables, j: JobId): Tx<FinalResult> {
    if !HasStatus(t, j, Uncertain) then
      Rollback(FinalResultConflict)
    else
      Rewrite(t, j, t.results[j].(status := DeliveryPending))
  }

  predicate ValidHttpStatus(httpStatus: Option<int>) {
    httpStatus.Some? ==> 100 <= httpStatus.value <= 599
  }

  function MarkDelivered(t: Tables, j: JobId, httpStatus: Option<int>, now: Time): Tx<FinalResult> {
    if !ValidHttpStatus(httpStatus) then
      Rollback(InvalidArgument)
    else if !HasStatus(t, j, InFlight) then
      Rollback(FinalResultConflict)
    else
      Rewrite(t, j, t.results[j].(status := Delivered, deliveredAt := t.results[j].deliveredAt.Or(Some(now)),
                                  certainty := None, httpStatus := httpStatus))
  }
}

/** The store itself, statement by statement. */
module FinalResultStores {
  import opened Wrappers
  import opened JobStates
  import opened Schema
  import opened LedgerTransactions

  /** Only how far the delivery got changes, from one status to another. */
  predicate MovesOn(before: FinalResult, after: FinalResult, from: DeliveryStatus, to: DeliveryStatus) {
    && before.status == from && after.status == to
    && after == before.(status := to, attempts := after.attempts, certainty := after.certainty,
                        deliveredAt := after.deliveredAt, httpStatus := after.httpStatus)
    && after.attempts == before.attempts + (if from == DeliveryPending && to == InFlight then 1 else 0)
    && (to != Delivered ==> after.deliveredAt == before.deliveredAt && after.httpStatus == before.httpStatus)
  }

  class FinalResultStore {
    const database: Database

    constructor (database: Database)
      ensures this.database == database
    {
      this.database := database;
    }

    method CreateOrGet(j: JobId, n: NormalizedResult) returns (r: Result<CreatedResult, Error>)
      modifies database
      ensures var tx := CreateOrGetResult(old(database.Contents()), j, n);
              database.Contents() == tx.After(old(database.Contents())) && r == tx.Outcome()
      ensures r.Success? ==> j in database.results && r.value.record == database.results[j]
      ensures r.Success? && r.value.created ==>
                && old(j !in database.results)
                && database.results == old(database.results)[j := FinalResult(
                     n.applicationId, n.outcome, if n.outcome == SuccessOutcome then Completed else FailedFinal, n.code,
                     n.payload, n.digest, DeliveryPending, 0, None, None, None)]
      ensures r.Failure? || !r.value.created ==> database.Contents() == old(database.Contents())
    {
      if j !in database.jobs {
        return Failure(JobNotFound);
      }
      if database.jobs[j].applicationId != n.applicationId {
        return Failure(FinalResultConflict);
      }
      var terminalState := if n.outcome == SuccessOutcome then Completed else FailedFinal;
      if j in database.results {
        var existing := database.results[j];
        if existing.digest != n.digest || existing.terminalState != terminalState {
          return Failure(FinalResultConflict);
        }
        return Success(CreatedResult(false, existing));
      }
      database.results := database.results[j := FinalResult(
        n.applicationId, n.outcome, terminalState, n.code, n.payload, n.digest,
        DeliveryPending, 0, None, None, None)];
      r := Success(CreatedResult(true, database.results[j]));
    }

    /** UPDATE final_results SET row WHERE job_id = j AND delivery_status = status. */
    method UpdateWhere(j: JobId, status: DeliveryStatus, row: FinalResult) returns (changes: nat)
      modifies database`results
      ensures changes == if HasStatus(old(database.Contents()), j, status) then 1 else 0
      ensures database.results == if changes == 1 then old(database.results)[j := row] else old(database.results)
    {
      changes := 0;
      if j in database.results && database.results[j].status == status {
        database.results := database.results[j := row];
        changes := 1;
      }
    }

    method Begin(j: JobId) returns (r: Result<StartedDelivery, Error>)
      modifies database
      ensures var tx := BeginDelivery(old(database.Contents()), j);
              database.Contents() == tx.After(old(database.Contents())) && r == tx.Outcome()
      ensures r.Failure? || !r.value.started ==> database.Contents() == old(database.Contents())
      ensures r.Success? && r.value.started ==>
                && old(j in database.results) && database.results == old(database.results)[j := r.value.record]
                && MovesOn(old(database.results)[j], r.value.record, DeliveryPending, InFlight)
                && r.value.record.certainty.None?
    {
      if j !in database.results {
        return Failure(FinalResultConflict);
      }
      var current := database.results[j];
      if current.status == Delivered {
        return Success(StartedDelivery(false, current));
      }
      if current.status == Uncertain {
        return Failure(DeliveryUncertain);
      }
      if current.status == InFlight {
        return Failure(FinalResultConflict);
      }
      var changes := UpdateWhere(j, DeliveryPending,
        current.(status := InFlight, attempts := current.attempts + 1, certainty := None));
      if changes != 1 {
        return Failure(FinalResultConflict);
      }
      r := Success(StartedDelivery(true, database.results[j]));
    }

    method MarkPendingAfterFailure(j: JobId, certainty: Certainty) returns (r: Result<FinalResult, Error>)
      modifies database
      ensures var tx := MarkPending(old(database.Contents()), j, certainty);
              database.Contents() == tx.After(old(database.Contents())) && r == tx.Outcome()
      ensures r.Failure? ==> database.Contents() == old(database.Contents())
      ensures r.Success? ==>
                && old(j in database.results) && database.results == old(database.results)[j := r.value]
                && MovesOn(old(database.results)[j], r.value, InFlight, DeliveryPending)
                && r.value.certainty == Some(certainty)
    {
      if j !in database.results {
        return Failure(FinalResultConflict);
      }
      var row := database.results[j].(status := DeliveryPending, certainty := Some(certainty));
      var changes := UpdateWhere(j, InFlight, row);
      if changes != 1 {
        return Failure(FinalResultConflict);
      }
      r := Success(database.results[j]);
    }

    method MarkAsUncertain(j: JobId) returns (r: Result<FinalResult, Error>)
      modifies database
      ensures var tx := MarkUncertain(old(database.Contents()), j);
              database.Contents() == tx.After(old(database.Contents())) && r == tx.Outcome()
      ensures r.Failure? ==> database.Contents() == old(database.Contents())
      ensures r.Success? ==>
                && old(j in database.results) && database.results == old(database.results)[j := r.value]
                && MovesOn(old(database.results)[j], r.value, InFlight, Uncertain)
                && r.value.certainty == Some(Ambiguous)
    {
      if j !in database.results {
        return Failure(FinalResultConflict);
      }
      var row := database.results[j].(status := Uncertain, certainty := Some(Ambiguous));
      var changes := UpdateWhere(j, InFlight, row);
      if changes != 1 {
        return Failure(FinalResultConflict);
      }
      r := Success(database.results[j]);
    }

    method MarkInterruptedInFlightUncertain(j: JobId) returns (r: Result<FinalResult, Error>)
      modifies database
      ensures var tx := MarkInterrupted(old(database.Contents()), j);
              database.Contents() == tx.After(old(database.Contents())) && r == tx.Outcome()
      ensures r.Success? <==> old(j in database.results) && old(database.results)[j].status in {InFlight, Uncertain}
      ensures r.Success? ==>
                && j in database.results && database.results == old(database.results)[j := r.value]
                && (old(database.results)[j].status == Uncertain ==> r.value == old(database.results)[j])
                && (old(database.results)[j].status == InFlight ==>
                      MovesOn(old(database.results)[j], r.value, InFlight, Uncertain)
                      && r.value.certainty == Some(Ambiguous))
    {
      if j !in database.results {
        return Failure(FinalResultConflict);
      }
      var row := database.results[j].(status := Uncertain, certainty := Some(Ambiguous));
      var changes := UpdateWhere(j, InFlight, row);
      if changes == 0 && database.results[j].status != Uncertain {
        return Failure(FinalResultConflict);
      }
      r := Success(database.results[j]);
    }

    method RequeueUncertain(j: JobId) returns (r: Result<FinalResult, Error>)
      modifies database
      ensures var tx := Requeue(old(database.Contents()), j);
              database.Contents() == tx.After(old(database.Contents())) && r == tx.Outcome()
      ensures r.Failure? ==> database.Contents() == old(database.Contents())
      ensures r.Success? ==>
                && old(j in database.results) && database.results == old(database.results)[j := r.value]
                && MovesOn(old(database.results)[j], r.value, Uncertain, DeliveryPending)
                && r.value.certainty == old(database.results)[j].certainty
    {
      if j !in database.results {
        return Failure(FinalResultConflict);
      }
      var changes := UpdateWhere(j, Uncertain, database.results[j].(status := DeliveryPending));
      if changes != 1 {
        return Failure(FinalResultConflict);
      }
      r := Success(database.results[j]);
    }

    method MarkAsDelivered(j: JobId, httpStatus: Option<int>, now: Time) returns (r: Result<FinalResult, Error>)
      modifies database
      ensures var tx := MarkDelivered(old(database.Contents()), j, httpStatus, now);
              database.Contents() == tx.After(old(database.Contents())) && r == tx.Outcome()
      ensures r.Failure? ==> database.Contents() == old(database.Contents())
      ensures r.Success? ==>
                && (httpStatus.None? || 100 <= httpStatus.value <= 599)
                && old(j in database.results) && database.results == old(database.results)[j := r.value]
                && MovesOn(old(database.results)[j], r.value, InFlight, Delivered)
                && r.value.certainty.None? && r.value.httpStatus == httpStatus && r.value.deliveredAt.Some?
                && (old(database.results)[j].deliveredAt.None? ==> r.value.deliveredAt == Some(now))
    {
      if httpStatus.Some? && (httpStatus.value < 100 || httpStatus.value > 599) {
        return Failure(InvalidArgument);
      }
      if j !in database.results {
        return Failure(FinalResultConflict);
      }
      var current := database.results[j];
      var deliveredAt := if current.deliveredAt.Some? then current.deliveredAt else Some(now);
      var row := current.(status := Delivered, deliveredAt := deliveredAt, certainty := None, httpStatus := httpStatus);
      var changes := UpdateWhere(j, InFlight, row);
      if changes != 1 {
        return Failure(FinalResultConflict);
      }
      r := Success(database.results[j]);
    }
  }
}
