/** Proxies reserved ahead of intake (src/network/intake-reservation-store.js): what each transaction
    commits. */
module ReservationTransactions {
  import opened Wrappers
  import opened JobStates
  import opened ProxyStates
  import opened Schema
  import opened ProxyRows
  import opened AllocationTransactions

  function LiveAllocations(t: Tables): set<AllocationId> {
    set a | a in t.allocations && IsLive(t.allocations[a].status)
  }

  function HeldReservations(t: Tables): set<ReservationId> {
    set r | r in t.reservations && t.reservations[r].status == Held
  }

  /** Live allocations plus reservations still held. */
  function OccupiedSlots(t: Tables): nat {
    |LiveAllocations(t)| + |HeldReservations(t)|
  }

  ghost function Reserve(t: Tables, maxConcurrent: int, r: ReservationId): Tx<Option<ReservationId>> {
    if maxConcurrent < 1 then
      Rollback(InvalidArgument)
    else if OccupiedSlots(t) >= maxConcurrent then
      Commit(t, None)
    else
      match BestAvailable(t.proxies)
      case None => Commit(t, None)
      case Some(p) =>
        if r in t.reservations || exists q :: HeldOn(t, q, p) then
          Rollback(ConstraintViolation)
        else
          Commit(
            t.(proxies := t.proxies[p := t.proxies[p].(status := Reserved)],
               reservations := t.reservations[r := Reservation(p, t.proxies[p].endpoint, Held, None)]),
            Some(r))
  }

  ghost function Bind(t: Tables, r: ReservationId, j: JobId, a: AllocationId): Tx<AllocationId> {
    if r !in t.reservations || t.reservations[r].status != Held then
      Rollback(ProxyUnavailable(false))
    else if j !in t.jobs then
      Rollback(JobNotFound)
    else if IsTerminal(t.jobs[j].state) || LiveOf(t, j).Some? then
      Rollback(JobConflict(false))
    else if !CanInsert(t, a, j, t.reservations[r].proxyId) then
      Rollback(ConstraintViolation)
    else
      var held := t.reservations[r];
      Commit(
        t.(allocations := t.allocations[a := NewAllocation(j, held.proxyId, held.endpoint)],
           reservations := t.reservations[r := held.(status := Consumed, jobId := Some(j))]),
        a)
  }

  function GiveBack(t: Tables, r: ReservationId): Tx<bool> {
    if r !in t.reservations then
      Rollback(ProxyUnavailable(false))
    else if t.reservations[r].status == Returned then
      Commit(t, false)
    else if t.reservations[r].status == Consumed then
      Rollback(JobConflict(false))
    else
      var p := t.reservations[r].proxyId;
      if p !in t.proxies then
        Rollback(ProxyUnavailable(false))
      else
        Commit(
          t.(reservations := t.reservations[r := t.reservations[r].(status := Returned)],
             proxies := WithStatus(t.proxies, p, {Reserved}, Resting(t.proxies[p].enabled, t.proxies[p].healthOk))),
          true)
  }
}

/** The store itself, statement by statement. */
module IntakeReservationStores {
  import opened Wrappers
  import opened JobStates
  import opened ProxyStates
  import opened Schema
  import opened ProxyRows
  import opened AllocationTransactions
  import opened ReservationTransactions

  class IntakeReservationStore {
    const database: Database

    constructor (database: Database)
      ensures this.database == database
    {
      this.database := database;
    }

    method ReserveOne(maxConcurrent: int, r: ReservationId) returns (result: Result<Option<ReservationId>, Error>)
      modifies database
      ensures var tx := Reserve(old(database.Contents()), maxConcurrent, r);
              database.Contents() == tx.After(old(database.Contents())) && result == tx.Outcome()
      ensures result != Success(Some(r)) ==> database.Contents() == old(database.Contents())
      ensures result == Success(None) <==>
                && maxConcurrent >= 1
                && (|| old(OccupiedSlots(database.Contents())) >= maxConcurrent
                    || forall p :: p in old(database.proxies) ==>
                         var x := old(database.proxies)[p]; !(x.enabled && x.healthOk && x.status == Available))
      ensures result == Success(Some(r)) ==>
                && old(OccupiedSlots(database.Contents())) < maxConcurrent
                && r !in old(database.reservations) && r in database.reservations
                && var p := database.reservations[r].proxyId;
                   && p in old(database.proxies) && IsBest(old(database.proxies), p)
                   && database.proxies == old(database.proxies)[p := old(database.proxies)[p].(status := Reserved)]
                   && database.reservations ==
                      old(database.reservations)[r := Reservation(p, old(database.proxies)[p].endpoint, Held, None)]
    {
      if maxConcurrent < 1 {
        return Failure(InvalidArgument);
      }
      var occupied := OccupiedSlots(database.Contents());
      if occupied >= maxConcurrent {
        return Success(None);
      }
      var candidate := SelectAvailable(database);
      if candidate.None? {
        return Success(None);
      }
      var p := candidate.value;
      var savepoint := database.Contents();
      database.proxies := database.proxies[p := database.proxies[p].(status := Reserved)];
      if r in database.reservations
         || exists q :: q in database.reservations && HeldOn(savepoint, q, p) {
        database.Restore(savepoint);
        return Failure(ConstraintViolation);
      }
      var endpoint := database.proxies[p].endpoint;
      database.reservations := database.reservations[r := Reservation(p, endpoint, Held, None)];
      result := Success(Some(r));
    }

    method BindToJob(r: ReservationId, j: JobId, a: AllocationId) returns (result: Result<AllocationId, Error>)
      modifies database
      ensures var tx := Bind(old(database.Contents()), r, j, a);
              database.Contents() == tx.After(old(database.Contents())) && result == tx.Outcome()
      ensures result.Failure? ==> database.Contents() == old(database.Contents())
      ensures result.Success? ==>
                && old(r in database.reservations && database.reservations[r].status == Held)
                && var held := old(database.reservations)[r];
                   && a !in old(database.allocations)
                   && database.allocations ==
                      old(database.allocations)[a := Allocation(j, held.proxyId, held.endpoint, AllocReserved, None, None,
                                                                None, 0)]
                   && database.reservations ==
                      old(database.reservations)[r := Reservation(held.proxyId, held.endpoint, Consumed, Some(j))]
                   && database.proxies == old(database.proxies)
    {
      if r !in database.reservations || database.reservations[r].status != Held {
        return Failure(ProxyUnavailable(false));
      }
      var reservation := database.reservations[r];
      if j !in database.jobs {
        return Failure(JobNotFound);
      }
      if IsTerminal(database.jobs[j].state) {
        return Failure(JobConflict(false));
      }
      var existing := database.LiveAllocation(j);
      if existing.Some? {
        return Failure(JobConflict(false));
      }
      result := InsertAndConsume(r, j, a);
    }

    /** INSERT the allocation, then mark the reservation consumed. */
    method InsertAndConsume(r: ReservationId, j: JobId, a: AllocationId) returns (result: Result<AllocationId, Error>)
      requires r in database.reservations && database.reservations[r].status == Held
      requires forall b :: !LiveFor(database.Contents(), b, j)
      modifies database`allocations, database`reservations
      ensures var held := old(database.reservations[r]);
              if CanInsert(old(database.Contents()), a, j, held.proxyId) then
                && result == Success(a)
                && database.allocations ==
                   old(database.allocations)[a := NewAllocation(j, held.proxyId, held.endpoint)]
                && database.reservations ==
                   old(database.reservations)[r := held.(status := Consumed, jobId := Some(j))]
              else
                && result == Failure(ConstraintViolation)
                && database.Contents() == old(database.Contents())
    {
      var held := database.reservations[r];
      if a in database.allocations
         || exists b :: b in database.allocations && LiveOn(database.Contents(), b, held.proxyId) {
        return Failure(ConstraintViolation);
      }
      database.allocations := database.allocations[a := NewAllocation(j, held.proxyId, held.endpoint)];
      if database.reservations[r].status == Held {
        database.reservations := database.reservations[r := held.(status := Consumed, jobId := Some(j))];
      }
      result := Success(a);
    }

    method ReleaseReservation(r: ReservationId) returns (result: Result<bool, Error>)
      modifies database
      ensures var tx := GiveBack(old(database.Contents()), r);
              database.Contents() == tx.After(old(database.Contents())) && result == tx.Outcome()
      ensures result != Success(true) ==> database.Contents() == old(database.Contents())
      ensures result == Success(true) ==>
                && old(r in database.reservations && database.reservations[r].status == Held)
                && var held := old(database.reservations)[r];
                   && database.reservations ==
                      old(database.reservations)[r := Reservation(held.proxyId, held.endpoint, Returned, held.jobId)]
                   && held.proxyId in old(database.proxies)
                   && var p, before := held.proxyId, old(database.proxies)[held.proxyId];
                      if before.status == Reserved then
                        p in database.proxies
                        && database.proxies == old(database.proxies)[p := before.(status := database.proxies[p].status)]
                        && (database.proxies[p].status == Disabled <==> !before.enabled)
                        && (database.proxies[p].status == Available <==> before.enabled && before.healthOk)
                        && (database.proxies[p].status == Cooldown <==> before.enabled && !before.healthOk)
                      else
                        database.proxies == old(database.proxies)
    {
      if r !in database.reservations {
        return Failure(ProxyUnavailable(false));
      }
      var reservation := database.reservations[r];
      if reservation.status == Returned {
        return Success(false);
      }
      if reservation.status == Consumed {
        return Failure(JobConflict(false));
      }
      var p := reservation.proxyId;
      if p !in database.proxies {
        return Failure(ProxyUnavailable(false));
      }
      var proxy := database.proxies[p];
      var next := if !proxy.enabled then Disabled else if proxy.healthOk then Available else Cooldown;
      database.reservations := database.reservations[r := reservation.(status := Returned)];
      if proxy.status == Reserved {
        database.proxies := database.proxies[p := proxy.(status := next)];
      }
      result := Success(true);
    }
  }
}
