/** When two attempts to record a result mean the same result (src/results/final-result.js,
    src/results/final-result-store.js). A payload is the whole tree that is hashed. */
module ResultIdentity {
  import opened Wrappers
  import opened Schema
  import opened CanonicalJson
  import opened LedgerTransactions
  import opened SystemModel

  /** A second attempt reuses the row of the first exactly when the outcome is the same and the payloads
      are equal up to the order of object keys at every depth; any other attempt is a conflict. */
  lemma SecondAttemptReusesOrConflicts(
    t: Tables, j: JobId, first: FinalOutcome, second: FinalOutcome,
    code: Option<Code>, again: Option<Code>, payload: Json, repeated: Json)
    requires j in t.jobs && j !in t.results
    requires WellFormed(payload) && WellFormed(repeated)
    ensures var application := t.jobs[j].applicationId;
            var once := CreateOrGetResult(t, j, Normalized(application, first, code, payload)).After(t);
            var twice := CreateOrGetResult(once, j, Normalized(application, second, again, repeated));
            if first == second && Same(payload, repeated) then
              twice == Commit(once, CreatedResult(false, once.results[j]))
            else
              twice == Rollback(FinalResultConflict)
  {
    CanonicalFormDecidesEquality(payload, repeated);
  }

  /** The recorded payload is the canonical one: the same data, and canonicalizing it again changes
      nothing. */
  lemma RecordedPayloadIsCanonical(
    t: Tables, j: JobId, outcome: FinalOutcome, code: Option<Code>, payload: Json)
    requires j in t.jobs && j !in t.results && WellFormed(payload)
    ensures var once := CreateOrGetResult(t, j, Normalized(t.jobs[j].applicationId, outcome, code, payload)).After(t);
            && j in once.results
            && Same(payload, once.results[j].payload)
            && Canonicalize(once.results[j].payload) == once.results[j].payload
            && once.results[j].digest == Sha256(once.results[j].payload)
  {
    CanonicalizeOnlyReorders(payload);
    CanonicalizeIsIdempotent(payload);
  }
}
