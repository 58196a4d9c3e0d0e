/** Which failures are retried, and how often (src/recovery/retry-policy.js). */
module RetryPolicy {
  import opened Wrappers
  import opened Schema

  const RETRY_BACKOFF_MS: seq<nat> := [1000, 5000, 15000]

  /** An error as the policy looks at it: its code, whether its name is AbortError, and whether it
      declares itself retryable. */
  datatype ExecutionError = ExecutionError(code: Option<Code>, abortName: bool, retryable: bool)

  /** An error without code, name or retryable flag of its own. */
  const PLAIN_ERROR := ExecutionError(None, false, false)

  datatype Decision = Retry | Exhausted | NonRetryable | ManualRequired | ShutdownInterrupted

  datatype Classification = Classification(
    decision: Decision,
    code: Code,
    countRetry: bool,
    retryNumber: Option<nat>,
    delayMs: Option<nat>)

  predicate IsShutdownCode(code: Option<Code>) {
    code in {Some(ProcessShutdown), Some(GracefulShutdown), Some(ShutdownAbort)}
  }

  /** The wait before a retry: one second, five, and fifteen from the third on. */
  function RetryDelayMs(retryNumber: nat): (r: nat)
    requires retryNumber >= 1
    ensures r == if retryNumber == 1 then 1000 else if retryNumber == 2 then 5000 else 15000
  {
    var index := if retryNumber - 1 < |RETRY_BACKOFF_MS| - 1 then retryNumber - 1 else |RETRY_BACKOFF_MS| - 1;
    RETRY_BACKOFF_MS[index]
  }

  lemma DelaysNeverShrink(m: nat, n: nat)
    requires 1 <= m <= n
    ensures RetryDelayMs(m) <= RetryDelayMs(n)
  {
    assert RETRY_BACKOFF_MS[0] <= RETRY_BACKOFF_MS[1] <= RETRY_BACKOFF_MS[2];
    var last := |RETRY_BACKOFF_MS| - 1;
    assert RetryDelayMs(m) == RETRY_BACKOFF_MS[if m - 1 < last then m - 1 else last];
    assert RetryDelayMs(n) == RETRY_BACKOFF_MS[if n - 1 < last then n - 1 else last];
  }

  /** A manual challenge is left to a human. */
  predicate IsChallenge(error: ExecutionError) {
    error.code == Some(ManualChallengeRequired)
  }

  /** A shutdown or an abort is left to recovery. */
  predicate IsInterruption(error: ExecutionError) {
    !IsChallenge(error) && (IsShutdownCode(error.code) || error.abortName)
  }

  /** A failure of the execution itself. */
  predicate IsFailure(error: ExecutionError) {
    !IsChallenge(error) && !IsInterruption(error)
  }

  function Uncounted(decision: Decision, code: Code): Classification {
    Classification(decision, code, false, None, None)
  }

  function CodeOr(code: Option<Code>, default: Code): Code {
    if code.Some? then code.value else default
  }

  function ClassifyRetry(error: ExecutionError, retryCount: nat, maxRetries: nat): (r: Classification)
    ensures r.decision == ManualRequired <==> error.code == Some(ManualChallengeRequired)
    ensures r.decision == ShutdownInterrupted <==>
              && error.code != Some(ManualChallengeRequired)
              && (error.code in {Some(ProcessShutdown), Some(GracefulShutdown), Some(ShutdownAbort)} || error.abortName)
    ensures r.decision == NonRetryable <==> IsFailure(error) && !error.retryable
    ensures r.decision == Exhausted <==> IsFailure(error) && error.retryable && retryCount >= maxRetries
    ensures r.decision == Retry <==>
              && error.retryable
              && error.code != Some(ManualChallengeRequired)
              && !IsShutdownCode(error.code) && !error.abortName
              && retryCount < maxRetries
    ensures error.code.Some? ==> r.code == error.code.value
    ensures error.code.None? ==>
              && (r.decision == ShutdownInterrupted ==> r.code == AbortedCode)
              && (r.decision == NonRetryable ==> r.code == NonRetryableError)
              && (r.decision == Exhausted ==> r.code == RetryExhaustedError)
              && (r.decision == Retry ==> r.code == RetryableError)
    ensures r.countRetry <==> r.decision == Retry
    ensures r.decision != Retry ==> r.retryNumber.None? && r.delayMs.None?
    ensures r.decision == Retry ==>
              && r.retryNumber == Some(retryCount + 1)
              && r.delayMs == Some(RetryDelayMs(retryCount + 1))
  {
    if error.code == Some(ManualChallengeRequired) then
      Uncounted(ManualRequired, ManualChallengeRequired)
    else if IsShutdownCode(error.code) || error.abortName then
      Uncounted(ShutdownInterrupted, CodeOr(error.code, AbortedCode))
    else if !error.retryable then
      Uncounted(NonRetryable, CodeOr(error.code, NonRetryableError))
    else if retryCount >= maxRetries then
      Uncounted(Exhausted, CodeOr(error.code, RetryExhaustedError))
    else
      Classification(Retry, CodeOr(error.code, RetryableError), true,
                     Some(retryCount + 1), Some(RetryDelayMs(retryCount + 1)))
  }
}
