/** Restart bookkeeping per job (src/recovery/recovery-store.js). */
module RecoveryTransactions {
  import opened Wrappers
  import opened JobStates
  import opened Schema

  /** What a restart observation records about a job. */
  datatype Observation = Observation(
    status: RecoveryStatus,
    sessionLost: bool,
    lastState: JobState,
    lastStep: Option<StepId>,
    nextRetryAt: Option<Time>)

  /** The restart count grows once per boot that observes the job. */
  function RestartCount(t: Tables, j: JobId, boot: BootId): nat {
    if j !in t.recoveries then 1
    else if t.recoveries[j].bootId != boot then t.recoveries[j].restartCount + 1
    else t.recoveries[j].restartCount
  }

  function RecordRestart(t: Tables, j: JobId, boot: BootId, o: Observation): Tx<Recovery> {
    if j !in t.jobs then
      Rollback(JobNotFound)
    else
      var row := Recovery(RestartCount(t, j, boot), o.status, o.sessionLost, o.lastState, o.lastStep,
                          o.nextRetryAt, boot);
      Commit(t.(recoveries := t.recoveries[j := row]), row)
  }
}

module RecoveryStores {
  import opened Wrappers
  import opened JobStates
  import opened Schema
  import opened RecoveryTransactions

  class RecoveryStore {
    const database: Database

    constructor (database: Database)
      ensures this.database == database
    {
      this.database := database;
    }

    method Record(j: JobId, boot: BootId, o: Observation) returns (r: Result<Recovery, Error>)
      modifies database
      ensures var tx := RecordRestart(old(database.Contents()), j, boot, o);
              database.Contents() == tx.After(old(database.Contents())) && r == tx.Outcome()
    {
      if j !in database.jobs {
        return Failure(JobNotFound);
      }
      var restartCount := 1;
      if j in database.recoveries {
        var existing := database.recoveries[j];
        restartCount := existing.restartCount;
        if existing.bootId != boot {
          restartCount := restartCount + 1;
        }
      }
      var row := Recovery(restartCount, o.status, o.sessionLost, o.lastState, o.lastStep, o.nextRetryAt, boot);
      database.recoveries := database.recoveries[j := row];
      r := Success(row);
    }
  }
}
