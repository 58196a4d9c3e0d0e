/** Proxy rows as the two allocating stores see them: choosing a proxy, and guarded updates. */
module ProxyRows {
  import opened Wrappers
  import opened ProxyStates
  import opened Schema

  predicate Selectable(proxy: Proxy) {
    proxy.enabled && proxy.status == Available && proxy.healthOk
  }

  /** ORDER BY failure_count ASC, success_count DESC, id ASC. */
  predicate RanksBefore(proxies: map<ProxyId, Proxy>, p: ProxyId, q: ProxyId)
    requires p in proxies && q in proxies
  {
    var x, y := proxies[p], proxies[q];
    || x.failureCount < y.failureCount
    || (x.failureCount == y.failureCount && x.successCount > y.successCount)
    || (x.failureCount == y.failureCount && x.successCount == y.successCount && p <= q)
  }

  predicate IsBest(proxies: map<ProxyId, Proxy>, p: ProxyId) {
    && p in proxies
    && Selectable(proxies[p])
    && forall q :: q in proxies && Selectable(proxies[q]) ==> RanksBefore(proxies, p, q)
  }

  /** The proxy that SELECT ... LIMIT 1 returns. */
  ghost function BestAvailable(proxies: map<ProxyId, Proxy>): (r: Option<ProxyId>)
    ensures r.Some? ==> IsBest(proxies, r.value)
    ensures r.None? ==> forall p :: p in proxies ==> !Selectable(proxies[p])
  {
    if exists p :: IsBest(proxies, p) then
      var p :| IsBest(proxies, p);
      Some(p)
    else
      NoBestMeansNoneSelectable(proxies);
      None
  }

  /** A non-empty set of proxies has a first one in the ORDER BY. */
  lemma {:induction false} FirstExists(proxies: map<ProxyId, Proxy>, ids: set<ProxyId>) returns (p: ProxyId)
    requires ids != {} && ids <= proxies.Keys
    ensures p in ids && forall q :: q in ids ==> RanksBefore(proxies, p, q)
    decreases |ids|
  {
    var x :| x in ids;
    if ids == {x} {
      p := x;
    } else {
      var y := FirstExists(proxies, ids - {x});
      p := if RanksBefore(proxies, x, y) then x else y;
      assert forall q :: q in ids ==> q == x || q in ids - {x};
    }
  }

  lemma NoBestMeansNoneSelectable(proxies: map<ProxyId, Proxy>)
    ensures (forall p :: !IsBest(proxies, p)) ==> forall p :: p in proxies ==> !Selectable(proxies[p])
  {
    var ids := set p | p in proxies && Selectable(proxies[p]);
    if ids != {} {
      var p := FirstExists(proxies, ids);
      assert IsBest(proxies, p);
    } else {
      assert forall p :: p in proxies && Selectable(proxies[p]) ==> p in ids;
    }
  }

  lemma BestIsUnique(proxies: map<ProxyId, Proxy>, p: ProxyId, q: ProxyId)
    requires IsBest(proxies, p) && IsBest(proxies, q)
    ensures p == q
  {
    assert RanksBefore(proxies, p, q) && RanksBefore(proxies, q, p);
  }

  /** UPDATE proxies SET status = to WHERE id = p AND status IN from. */
  function WithStatus(proxies: map<ProxyId, Proxy>, p: ProxyId, from: set<ProxyState>, to: ProxyState)
    : map<ProxyId, Proxy>
  {
    if p in proxies && proxies[p].status in from then proxies[p := proxies[p].(status := to)] else proxies
  }

  /** SELECT the best available proxy. */
  method SelectAvailable(database: Database) returns (r: Option<ProxyId>)
    ensures r == BestAvailable(database.proxies)
    ensures r.None? <==>
              forall p :: p in database.proxies ==>
                var x := database.proxies[p]; !(x.enabled && x.healthOk && x.status == Available)
    ensures r.Some? ==>
              && r.value in database.proxies
              && var best := database.proxies[r.value];
                 && best.enabled && best.healthOk && best.status == Available
                 && forall q :: q in database.proxies && database.proxies[q].enabled && database.proxies[q].healthOk
                                && database.proxies[q].status == Available ==>
                      var other := database.proxies[q];
                      if other.failureCount != best.failureCount then best.failureCount < other.failureCount
                      else if other.successCount != best.successCount then best.successCount > other.successCount
                      else r.value <= q
  {
    var candidates := set p | p in database.proxies && Selectable(database.proxies[p]);
    var rest := candidates;
    r := None;
    while rest != {}
      invariant rest <= candidates
      invariant r.None? ==> rest == candidates
      invariant r.Some? ==> r.value in candidates
      invariant r.Some? ==>
                  forall q :: q in candidates && q !in rest ==> RanksBefore(database.proxies, r.value, q)
    {
      var p :| p in rest;
      if r.None? || RanksBefore(database.proxies, p, r.value) {
        r := Some(p);
      }
      rest := rest - {p};
    }
    assert forall p :: p in database.proxies && Selectable(database.proxies[p]) ==> p in candidates;
    if r.Some? {
      assert IsBest(database.proxies, r.value);
      BestIsUnique(database.proxies, r.value, BestAvailable(database.proxies).value);
    } else {
      assert forall p :: !IsBest(database.proxies, p);
    }
  }
}

/** Exclusive per-job IP allocations (src/network/ip-allocator.js): what each transaction commits. */
module AllocationTransactions {
  import opened Wrappers
  import opened JobStates
  import opened ProxyStates
  import opened Schema
  import opened ProxyRows

  datatype Acquired = Acquired(reused: bool, allocationId: AllocationId)

  datatype ReleaseOutcome = ReleaseOutcome(released: bool, allocationId: Option<AllocationId>)

  function NewAllocation(j: JobId, p: ProxyId, endpoint: Endpoint): Allocation {
    Allocation(j, p, endpoint, AllocReserved, None, None, None, 0)
  }

  /** The INSERT fails on a used id and on either unique index of live allocations. */
  ghost predicate CanInsert(t: Tables, a: AllocationId, j: JobId, p: ProxyId) {
    a !in t.allocations && (forall b :: !LiveFor(t, b, j)) && (forall b :: !LiveOn(t, b, p))
  }

  ghost function Acquire(t: Tables, j: JobId, a: AllocationId): Tx<Acquired> {
    if j !in t.jobs then
      Rollback(JobNotFound)
    else if IsTerminal(t.jobs[j].state) then
      Rollback(JobConflict(false))
    else if LiveOf(t, j).Some? then
      Commit(t, Acquired(true, LiveOf(t, j).value))
    else
      match BestAvailable(t.proxies)
      case None => Rollback(ProxyUnavailable(true))
      case Some(p) =>
        if !CanInsert(t, a, j, p) then
          Rollback(ConstraintViolation)
        else
          Commit(
            t.(proxies := t.proxies[p := t.proxies[p].(status := Reserved)],
               allocations := t.allocations[a := NewAllocation(j, p, t.proxies[p].endpoint)]),
            Acquired(false, a))
  }

  function Activated(allocation: Allocation, now: Time): Allocation {
    if allocation.status in {AllocReserved, AllocRetryReserved} then
      allocation.(status := AllocActive, activatedAt := allocation.activatedAt.Or(Some(now)))
    else
      allocation
  }

  ghost function Activate(t: Tables, j: JobId, now: Time): Tx<AllocationId> {
    match LiveOf(t, j)
    case None => Rollback(ProxyUnavailable(true))
    case Some(a) =>
      if t.allocations[a].status == AllocActive then
        Commit(t, a)
      else
        Commit(
          t.(allocations := t.allocations[a := Activated(t.allocations[a], now)],
             proxies := WithStatus(t.proxies, t.allocations[a].proxyId, {Reserved, RetryReserved}, Active)),
          a)
  }

  function HeldForRetry(allocation: Allocation): Allocation {
    if allocation.status in {AllocReserved, AllocActive, AllocRetryReserved} then
      allocation.(status := AllocRetryReserved, failureCount := allocation.failureCount + 1)
    else
      allocation
  }

  ghost function ReserveForRetry(t: Tables, j: JobId): Tx<AllocationId> {
    match LiveOf(t, j)
    case None => Rollback(ProxyUnavailable(true))
    case Some(a) =>
      Commit(
        t.(allocations := t.allocations[a := HeldForRetry(t.allocations[a])],
           proxies := WithStatus(
             t.proxies, t.allocations[a].proxyId, {Reserved, Active, RetryReserved}, RetryReserved)),
        a)
  }

  /** Which release reasons fit which job states. */
  predicate ReleaseAllowed(state: JobState, reason: ReleaseReason) {
    match reason
    case JobCompleted => state == Completed
    case JobCancelled => state == Cancelled
    case JobFailedFinal => state == FailedFinal
    case JobExpired => true
    case AdminRelease => true
  }

  function Ended(allocation: Allocation, reason: ReleaseReason, now: Time): Allocation {
    allocation.(status := AllocReleased,
                releasedAt := allocation.releasedAt.Or(Some(now)),
                releaseReason := allocation.releaseReason.Or(Some(reason)))
  }

  /** The net effect of ending a live allocation: the RELEASING status of the two-step procedure is
      never visible. */
  function EndAllocation(t: Tables, a: AllocationId, reason: ReleaseReason, now: Time): Tx<ReleaseOutcome>
    requires a in t.allocations
  {
    var p := t.allocations[a].proxyId;
    if p !in t.proxies then
      Rollback(ProxyUnavailable(true))
    else
      Commit(
        t.(allocations := t.allocations[a := Ended(t.allocations[a], reason, now)],
           proxies := WithStatus(
             t.proxies, p, {Reserved, Active, RetryReserved, Releasing},
             Resting(t.proxies[p].enabled, t.proxies[p].healthOk))),
        ReleaseOutcome(true, Some(a)))
  }

  ghost function Release(t: Tables, j: JobId, reason: ReleaseReason, now: Time): Tx<ReleaseOutcome> {
    if j !in t.jobs then
      Rollback(JobNotFound)
    else if !ReleaseAllowed(t.jobs[j].state, reason) then
      Rollback(JobConflict(false))
    else
      match LiveOf(t, j)
      case None => Commit(t, ReleaseOutcome(false, None))
      case Some(a) => EndAllocation(t, a, reason, now)
  }

  lemma ReleasingIsTransient(proxies: map<ProxyId, Proxy>, p: ProxyId)
    requires p in proxies
    ensures var middle := WithStatus(proxies, p, {Reserved, Active, RetryReserved}, Releasing);
            && p in middle
            && WithStatus(middle, p, {Releasing}, Resting(middle[p].enabled, middle[p].healthOk))
               == WithStatus(proxies, p, {Reserved, Active, RetryReserved, Releasing},
                             Resting(proxies[p].enabled, proxies[p].healthOk))
  {
  }
}

/** The allocator itself, statement by statement. */
module IpAllocators {
  import opened Wrappers
  import opened JobStates
  import opened ProxyStates
  import opened Schema
  import opened ProxyRows
  import opened AllocationTransactions

  /** The proxy of an allocation follows it from these statuses to that one; nothing else of the pool changes. */
  predicate ProxyFollows(
    before: map<ProxyId, Proxy>, after: map<ProxyId, Proxy>, p: ProxyId, from: set<ProxyState>, to: ProxyState)
  {
    if p in before && before[p].status in from then after == before[p := before[p].(status := to)] else after == before
  }

  /** A released allocation says when and why, and is otherwise what it was. */
  predicate IsEnded(before: Allocation, after: Allocation, reason: ReleaseReason, now: Time) {
    && after == before.(status := AllocReleased, releasedAt := after.releasedAt, releaseReason := after.releaseReason)
    && after.releasedAt == (if before.releasedAt.Some? then before.releasedAt else Some(now))
    && after.releaseReason == (if before.releaseReason.Some? then before.releaseReason else Some(reason))
  }

  /** An owned proxy comes to rest: disabled, available or cooling down, as its flags say. */
  predicate RestsAgain(before: map<ProxyId, Proxy>, after: map<ProxyId, Proxy>, p: ProxyId) {
    && p in before && p in after && after == before[p := after[p]]
    && after[p] == before[p].(status := after[p].status)
    && (before[p].status in {Reserved, Active, RetryReserved, Releasing} ==>
          && (after[p].status == Disabled <==> !before[p].enabled)
          && (after[p].status == Available <==> before[p].enabled && before[p].healthOk)
          && (after[p].status == Cooldown <==> before[p].enabled && !before[p].healthOk))
  }

  class IpAllocator {
    const database: Database

    constructor (database: Database)
      ensures this.database == database
    {
      this.database := database;
    }

    /** UPDATE proxies SET status = to WHERE id = p AND status IN from. */
    method SetProxyStatus(p: ProxyId, from: set<ProxyState>, to: ProxyState)
      modifies database`proxies
      ensures database.proxies == WithStatus(old(database.proxies), p, from, to)
    {
      if p in database.proxies && database.proxies[p].status in from {
        database.proxies := database.proxies[p := database.proxies[p].(status := to)];
      }
    }

    method AcquireForJob(j: JobId, a: AllocationId) returns (r: Result<Acquired, Error>)
      modifies database
      ensures var tx := Acquire(old(database.Contents()), j, a);
              database.Contents() == tx.After(old(database.Contents())) && r == tx.Outcome()
      ensures r.Success? ==> LiveFor(database.Contents(), r.value.allocationId, j)
      ensures r.Success? && r.value.reused ==> database.Contents() == old(database.Contents())
      ensures r.Success? && !r.value.reused ==>
                && r.value.allocationId == a && a !in old(database.allocations)
                && var p := database.allocations[a].proxyId;
                   && p in old(database.proxies) && IsBest(old(database.proxies), p)
                   && database.proxies == old(database.proxies)[p := old(database.proxies)[p].(status := Reserved)]
                   && database.allocations ==
                      old(database.allocations)[a := Allocation(j, p, old(database.proxies)[p].endpoint, AllocReserved,
                                                                None, None, None, 0)]
    {
      if j !in database.jobs {
        return Failure(JobNotFound);
      }
      if IsTerminal(database.jobs[j].state) {
        return Failure(JobConflict(false));
      }
      var existing := database.LiveAllocation(j);
      if existing.Some? {
        return Success(Acquired(true, existing.value));
      }
      var candidate := SelectAvailable(database);
      if candidate.None? {
        return Failure(ProxyUnavailable(true));
      }
      var p := candidate.value;
      var savepoint := database.Contents();
      database.proxies := database.proxies[p := database.proxies[p].(status := Reserved)];
      if a in database.allocations
         || exists b :: b in database.allocations && LiveOn(savepoint, b, p) {
        database.Restore(savepoint);
        return Failure(ConstraintViolation);
      }
      var endpoint := database.proxies[p].endpoint;
      database.allocations := database.allocations[a := NewAllocation(j, p, endpoint)];
      r := Success(Acquired(false, a));
    }

    method ActivateForJob(j: JobId, now: Time) returns (r: Result<AllocationId, Error>)
      modifies database
      ensures var tx := Activate(old(database.Contents()), j, now);
              database.Contents() == tx.After(old(database.Contents())) && r == tx.Outcome()
      ensures r.Success? ==>
                && old(LiveFor(database.Contents(), r.value, j)) && r.value in database.allocations
                && var before, after := old(database.allocations)[r.value], database.allocations[r.value];
                   && database.allocations == old(database.allocations)[r.value := after]
                   && after == before.(status := after.status, activatedAt := after.activatedAt)
                   && (before.status in {AllocReserved, AllocRetryReserved} ==>
                         && after.status == AllocActive
                         && after.activatedAt == (if before.activatedAt.Some? then before.activatedAt else Some(now))
                         && ProxyFollows(old(database.proxies), database.proxies, before.proxyId, {Reserved, RetryReserved},
                                         Active))
                   && (before.status == AllocActive ==> after == before && database.proxies == old(database.proxies))
    {
      var live := database.LiveAllocation(j);
      if live.None? {
        return Failure(ProxyUnavailable(true));
      }
      var a := live.value;
      var allocation := database.allocations[a];
      if allocation.status == AllocActive {
        return Success(a);
      }
      if allocation.status == AllocReserved || allocation.status == AllocRetryReserved {
        var activatedAt := if allocation.activatedAt.Some? then allocation.activatedAt else Some(now);
        database.allocations :=
          database.allocations[a := allocation.(status := AllocActive, activatedAt := activatedAt)];
      }
      SetProxyStatus(allocation.proxyId, {Reserved, RetryReserved}, Active);
      r := Success(a);
    }

    method MarkRetryReserved(j: JobId) returns (r: Result<AllocationId, Error>)
      modifies database
      ensures var tx := ReserveForRetry(old(database.Contents()), j);
              database.Contents() == tx.After(old(database.Contents())) && r == tx.Outcome()
      ensures r.Success? ==>
                && old(LiveFor(database.Contents(), r.value, j)) && r.value in database.allocations
                && var before, after := old(database.allocations)[r.value], database.allocations[r.value];
                   && database.allocations == old(database.allocations)[r.value := after]
                   && after == before.(status := after.status, failureCount := after.failureCount)
                   && (before.status in {AllocReserved, AllocActive, AllocRetryReserved} ==>
                         && after.status == AllocRetryReserved && after.failureCount == before.failureCount + 1
                         && ProxyFollows(old(database.proxies), database.proxies, before.proxyId,
                                         {Reserved, Active, RetryReserved}, RetryReserved))
    {
      var live := database.LiveAllocation(j);
      if live.None? {
        return Failure(ProxyUnavailable(true));
      }
      var a := live.value;
      var allocation := database.allocations[a];
      if allocation.status != AllocReleasing {
        database.allocations := database.allocations[a :=
          allocation.(status := AllocRetryReserved, failureCount := allocation.failureCount + 1)];
      }
      SetProxyStatus(allocation.proxyId, {Reserved, Active, RetryReserved}, RetryReserved);
      r := Success(a);
    }

    method BeginRelease(a: AllocationId) returns (p: ProxyId)
      requires a in database.allocations && IsLive(database.allocations[a].status)
      modifies database`allocations, database`proxies
      ensures p == old(database.allocations[a]).proxyId
      ensures database.allocations ==
              old(database.allocations)[a := old(database.allocations[a]).(status := AllocReleasing)]
      ensures database.proxies ==
              WithStatus(old(database.proxies), p, {Reserved, Active, RetryReserved}, Releasing)
    {
      p := database.allocations[a].proxyId;
      if database.allocations[a].status in {AllocReserved, AllocActive, AllocRetryReserved} {
        database.allocations := database.allocations[a := database.allocations[a].(status := AllocReleasing)];
      }
      SetProxyStatus(p, {Reserved, Active, RetryReserved}, Releasing);
    }

    method FinishRelease(a: AllocationId, p: ProxyId, reason: ReleaseReason, now: Time)
      requires a in database.allocations && database.allocations[a].status == AllocReleasing
      requires p in database.proxies
      modifies database`allocations, database`proxies
      ensures database.allocations ==
              old(database.allocations)[a := Ended(old(database.allocations[a]), reason, now)]
      ensures database.proxies ==
              WithStatus(old(database.proxies), p, {Releasing},
                         Resting(old(database.proxies[p]).enabled, old(database.proxies[p]).healthOk))
    {
      var proxy := database.proxies[p];
      var next := if !proxy.enabled then Disabled else if proxy.healthOk then Available else Cooldown;
      var ended := database.allocations[a].(status := AllocReleased);
      if ended.releasedAt.None? {
        ended := ended.(releasedAt := Some(now));
      }
      if ended.releaseReason.None? {
        ended := ended.(releaseReason := Some(reason));
      }
      database.allocations := database.allocations[a := ended];
      SetProxyStatus(p, {Releasing}, next);
    }

    /** Takes a live allocation and its proxy to RELEASING, then to their resting states. */
    method ReleaseLive(a: AllocationId, reason: ReleaseReason, now: Time) returns (r: Result<ReleaseOutcome, Error>)
      requires a in database.allocations && IsLive(database.allocations[a].status)
      modifies database
      ensures var tx := EndAllocation(old(database.Contents()), a, reason, now);
              database.Contents() == tx.After(old(database.Contents())) && r == tx.Outcome()
    {
      var savepoint := database.Contents();
      var p := BeginRelease(a);
      if p !in database.proxies {
        database.Restore(savepoint);
        return Failure(ProxyUnavailable(true));
      }
      FinishRelease(a, p, reason, now);
      ReleasingIsTransient(savepoint.proxies, p);
      var allocation := savepoint.allocations[a];
      assert Ended(allocation.(status := AllocReleasing), reason, now) == Ended(allocation, reason, now);
      r := Success(ReleaseOutcome(true, Some(a)));
    }

    method ReleaseForJob(j: JobId, reason: ReleaseReason, now: Time) returns (r: Result<ReleaseOutcome, Error>)
      modifies database
      ensures var tx := Release(old(database.Contents()), j, reason, now);
              database.Contents() == tx.After(old(database.Contents())) && r == tx.Outcome()
      ensures r.Success? ==>
                && old(j in database.jobs)
                && (reason == JobCompleted ==> old(database.jobs)[j].state == Completed)
                && (reason == JobCancelled ==> old(database.jobs)[j].state == Cancelled)
                && (reason == JobFailedFinal ==> old(database.jobs)[j].state == FailedFinal)
      ensures r.Failure? ==>
                || old(j !in database.jobs)
                || (reason == JobCompleted && old(database.jobs)[j].state != Completed)
                || (reason == JobCancelled && old(database.jobs)[j].state != Cancelled)
                || (reason == JobFailedFinal && old(database.jobs)[j].state != FailedFinal)
                || r.error == ProxyUnavailable(true)
      ensures r.Success? && !r.value.released ==> old(LiveOf(database.Contents(), j)).None?
      ensures r.Failure? || !r.value.released ==> database.Contents() == old(database.Contents())
      ensures r.Success? && r.value.released ==>
                && r.value.allocationId.Some?
                && var a := r.value.allocationId.value;
                   && old(LiveFor(database.Contents(), a, j)) && a in database.allocations
                   && database.allocations == old(database.allocations)[a := database.allocations[a]]
                   && IsEnded(old(database.allocations)[a], database.allocations[a], reason, now)
                   && RestsAgain(old(database.proxies), database.proxies, old(database.allocations)[a].proxyId)
    {
      if j !in database.jobs {
        return Failure(JobNotFound);
      }
      if !ReleaseAllowed(database.jobs[j].state, reason) {
        return Failure(JobConflict(false));
      }
      var live := database.LiveAllocation(j);
      if live.None? {
        return Success(ReleaseOutcome(false, None));
      }
      r := ReleaseLive(live.value, reason, now);
    }
  }
}
