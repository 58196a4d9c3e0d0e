/** How many applications one intake cycle may take (src/portal/capacity.js). */
module Capacity {
  import opened Wrappers
  import opened Schema

  /** n more jobs fit the cycle limit, the healthy proxies and the headroom under the bound. */
  predicate Fits(
    n: nat, configuredConcurrency: int, jobsPerCycle: int, healthyAvailableIpCount: int, liveAllocationCount: int)
  {
    && n <= jobsPerCycle
    && n <= healthyAvailableIpCount
    && (n == 0 || n + liveAllocationCount <= configuredConcurrency)
  }

  /** The largest number that fits the headroom under the concurrency bound, the cycle limit and the
      healthy proxies at once. */
  method CalculateEffectiveCapacity(
    configuredConcurrency: int, jobsPerCycle: int, healthyAvailableIpCount: int, liveAllocationCount: int)
    returns (r: Result<nat, Error>)
    ensures r.Failure? <==>
              configuredConcurrency < 1 || jobsPerCycle < 1 || healthyAvailableIpCount < 0 || liveAllocationCount < 0
    ensures r.Failure? ==> r.error == InvalidArgument
    ensures r.Success? ==>
              && r.value <= jobsPerCycle && r.value <= healthyAvailableIpCount
              && (r.value == 0 || r.value + liveAllocationCount <= configuredConcurrency)
              && (r.value == jobsPerCycle || r.value == healthyAvailableIpCount
                  || r.value + liveAllocationCount >= configuredConcurrency)
    ensures r.Success? ==> forall n: nat ::
              Fits(n, configuredConcurrency, jobsPerCycle, healthyAvailableIpCount, liveAllocationCount) <==>
                n <= r.value
  {
    if configuredConcurrency < 1 || jobsPerCycle < 1 || healthyAvailableIpCount < 0 || liveAllocationCount < 0 {
      return Failure(InvalidArgument);
    }
    var headroom := configuredConcurrency - liveAllocationCount;
    if headroom < 0 {
      headroom := 0;
    }
    var capacity := headroom;
    if jobsPerCycle < capacity {
      capacity := jobsPerCycle;
    }
    if healthyAvailableIpCount < capacity {
      capacity := healthyAvailableIpCount;
    }
    r := Success(capacity);
  }
}
