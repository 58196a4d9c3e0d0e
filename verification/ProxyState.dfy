/** Proxy, allocation and release vocabularies (src/network/proxy-state.js). */
module ProxyStates {

  datatype ProxyState =
    | Available
    | Reserved
    | Active
    | RetryReserved
    | Cooldown
    | Disabled
    | Releasing

  datatype AllocationState =
    | AllocReserved
    | AllocActive
    | AllocRetryReserved
    | AllocReleasing
    | AllocReleased

  datatype ReservationState =
    | Held
    | Consumed
    | Returned

  datatype ReleaseReason =
    | JobCompleted
    | JobCancelled
    | JobExpired
    | JobFailedFinal
    | AdminRelease

  predicate IsOwned(state: ProxyState) {
    state in {Reserved, Active, RetryReserved, Releasing}
  }

  predicate IsLive(state: AllocationState) {
    state != AllocReleased
  }

  /** The proxy status that mirrors a live allocation. */
  function Mirror(state: AllocationState): ProxyState
    requires IsLive(state)
  {
    match state
    case AllocReserved => Reserved
    case AllocActive => Active
    case AllocRetryReserved => RetryReserved
    case AllocReleasing => Releasing
  }

  /** The status of a proxy that nobody owns. */
  function Resting(enabled: bool, healthOk: bool): ProxyState {
    if !enabled then Disabled else if healthOk then Available else Cooldown
  }
}
