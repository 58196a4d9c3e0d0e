/** The job life cycle: states, legal transitions and the terminal states (src/jobs/job-state.js). */
module JobStates {

  datatype JobState =
    | Pending
    | Claimed
    | WaitingForIp
    | Running
    | WaitingForOtp
    | WaitingForManualChallenge
    | RetryPending
    | Completed
    | FailedFinal
    | Cancelled

  predicate IsTerminal(state: JobState) {
    state in {Completed, FailedFinal, Cancelled}
  }

  /** The table of legal transitions. */
  function Successors(from: JobState): set<JobState> {
    match from
    case Pending => {Claimed, Cancelled}
    case Claimed => {WaitingForIp, Cancelled}
    case WaitingForIp => {Running, Cancelled}
    case Running =>
      {WaitingForOtp, WaitingForManualChallenge, RetryPending, Completed, FailedFinal, Cancelled}
    case WaitingForOtp => {Running, RetryPending, FailedFinal, Cancelled}
    case WaitingForManualChallenge => {Running, FailedFinal, Cancelled}
    case RetryPending => {Running, FailedFinal, Cancelled}
    case Completed => {}
    case FailedFinal => {}
    case Cancelled => {}
  }

  predicate CanTransition(from: JobState, to: JobState) {
    to in Successors(from)
  }

  /** The same table read from the other end: from where each state is entered. */
  lemma EnteredFrom(from: JobState, to: JobState)
    ensures CanTransition(from, to) <==>
            (match to
             case Pending => false
             case Claimed => from == Pending
             case WaitingForIp => from == Claimed
             case Running => from in {WaitingForIp, WaitingForOtp, WaitingForManualChallenge, RetryPending}
             case WaitingForOtp => from == Running
             case WaitingForManualChallenge => from == Running
             case RetryPending => from in {Running, WaitingForOtp}
             case Completed => from == Running
             case FailedFinal => from in {Running, WaitingForOtp, WaitingForManualChallenge, RetryPending}
             case Cancelled => from !in {Completed, FailedFinal, Cancelled})
  {
  }

  /** States a job can be in only after it has been RUNNING at least once. */
  predicate PastStart(state: JobState) {
    state in {Running, WaitingForOtp, WaitingForManualChallenge, RetryPending, Completed, FailedFinal}
  }

  /** A sequence of states in which every step is a legal transition. */
  predicate IsPath(path: seq<JobState>) {
    forall i :: 0 < i < |path| ==> CanTransition(path[i - 1], path[i])
  }

  /** Nothing is ever reached from a terminal state, and no path from PENDING meets a state of
      PastStart without passing through RUNNING first. */
  lemma {:induction false} PathsStartByRunning(path: seq<JobState>)
    requires IsPath(path) && |path| > 0 && path[0] == Pending
    ensures PastStart(path[|path| - 1]) ==> Running in path
    ensures forall i :: 0 <= i < |path| - 1 ==> !IsTerminal(path[i])
  {
    if |path| > 1 {
      var shorter := path[..|path| - 1];
      PathsStartByRunning(shorter);
      assert CanTransition(path[|path| - 2], path[|path| - 1]);
      assert forall i :: 0 <= i < |shorter| - 1 ==> shorter[i] == path[i];
      assert forall s :: s in shorter ==> s in path;
    }
  }
}
