/** Who owns which proxy. Three stores write the proxy rows; here every transaction of all three is
    shown to keep proxies, live allocations and held reservations in agreement. */
module Ownership {
  import opened Wrappers
  import opened JobStates
  import opened ProxyStates
  import opened Schema
  import opened ProxyRows
  import opened AllocationTransactions
  import opened ReservationTransactions
  import opened PoolTransactions
  import opened Transactions

  /** A live allocation agrees with its proxy, and RELEASING is never committed. */
  ghost predicate AllocationsMirrored(t: Tables) {
    forall a :: a in t.allocations && IsLive(t.allocations[a].status) ==> AllocationMirrored(t, t.allocations[a])
  }

  predicate AllocationMirrored(t: Tables, x: Allocation)
    requires IsLive(x.status)
  {
    && x.status != AllocReleasing
    && x.proxyId in t.proxies
    && t.proxies[x.proxyId].status == Mirror(x.status)
    && t.proxies[x.proxyId].endpoint == x.endpoint
  }

  ghost predicate ReservationsMirrored(t: Tables) {
    forall r :: r in t.reservations && t.reservations[r].status == Held ==>
      ReservationMirrored(t, t.reservations[r])
  }

  predicate ReservationMirrored(t: Tables, x: Reservation) {
    && x.proxyId in t.proxies
    && t.proxies[x.proxyId].status == Reserved
    && t.proxies[x.proxyId].endpoint == x.endpoint
  }

  ghost predicate HoldersDisjoint(t: Tables) {
    forall a, r, p :: LiveOn(t, a, p) ==> !HeldOn(t, r, p)
  }

  ghost predicate HasHolder(t: Tables, p: ProxyId) {
    (exists a :: LiveOn(t, a, p)) || (exists r :: HeldOn(t, r, p))
  }

  /** Owned rows have a holder; the status of all other rows is a function of their two flags. */
  ghost predicate ProxiesAccounted(t: Tables) {
    forall p :: p in t.proxies ==>
      if IsOwned(t.proxies[p].status) then HasHolder(t, p)
      else t.proxies[p].status == Resting(t.proxies[p].enabled, t.proxies[p].healthOk)
  }

  ghost predicate Consistent(t: Tables) {
    && UniqueEndpoints(t.proxies)
    && UniqueLiveAllocations(t)
    && UniqueHeldReservations(t)
    && AllocationsMirrored(t)
    && ReservationsMirrored(t)
    && HoldersDisjoint(t)
    && ProxiesAccounted(t)
  }

  lemma SamePoolKeepsConsistent(t: Tables, t': Tables)
    requires Consistent(t) && SamePool(t, t')
    ensures Consistent(t')
  {
    SamePoolSameHolders(t, t');
    forall a | a in t'.allocations && IsLive(t'.allocations[a].status)
      ensures AllocationMirrored(t', t'.allocations[a])
    {
      assert AllocationMirrored(t, t.allocations[a]);
    }
    forall p | p in t'.proxies && IsOwned(t'.proxies[p].status) ensures HasHolder(t', p) {
      assert HasHolder(t, p);
    }
  }

  lemma SamePoolSameHolders(t: Tables, t': Tables)
    requires SamePool(t, t')
    ensures forall a, j :: LiveFor(t', a, j) <==> LiveFor(t, a, j)
    ensures forall a, p :: LiveOn(t', a, p) <==> LiveOn(t, a, p)
    ensures forall r, p :: HeldOn(t', r, p) <==> HeldOn(t, r, p)
  {
  }

  /** A live allocation and its proxy change status together. */
  lemma StatusChangeKeepsConsistent(t: Tables, t': Tables, a: AllocationId, status: AllocationState)
    requires Consistent(t)
    requires a in t.allocations && IsLive(t.allocations[a].status)
    requires IsLive(status) && status != AllocReleasing
    requires a in t'.allocations && t'.allocations == t.allocations[a := t'.allocations[a]]
    requires var x, y := t.allocations[a], t'.allocations[a];
             y.jobId == x.jobId && y.proxyId == x.proxyId && y.endpoint == x.endpoint && y.status == status
    requires var p := t.allocations[a].proxyId;
             p in t.proxies && t'.proxies == t.proxies[p := t.proxies[p].(status := Mirror(status))]
    requires t'.reservations == t.reservations
    ensures Consistent(t')
  {
    var p := t.allocations[a].proxyId;
    assert AllocationMirrored(t, t.allocations[a]) && LiveOn(t, a, p);
    assert forall b, j :: LiveFor(t', b, j) <==> LiveFor(t, b, j);
    assert forall b, q :: LiveOn(t', b, q) <==> LiveOn(t, b, q);
    assert forall r, q :: HeldOn(t', r, q) <==> HeldOn(t, r, q);
    forall b | b in t'.allocations && IsLive(t'.allocations[b].status)
      ensures AllocationMirrored(t', t'.allocations[b])
    {
      assert AllocationMirrored(t, t.allocations[b]) && LiveOn(t, b, t.allocations[b].proxyId);
    }
    forall r | r in t'.reservations && t'.reservations[r].status == Held
      ensures ReservationMirrored(t', t'.reservations[r])
    {
      assert ReservationMirrored(t, t.reservations[r]) && HeldOn(t, r, t.reservations[r].proxyId);
    }
    forall q | q in t'.proxies && IsOwned(t'.proxies[q].status) ensures HasHolder(t', q) {
      assert q != p ==> HasHolder(t, q);
      assert LiveOn(t', a, p);
    }
  }

  lemma ActivateKeepsConsistent(t: Tables, j: JobId, now: Time)
    requires Consistent(t)
    ensures Consistent(Activate(t, j, now).After(t))
  {
    match LiveOf(t, j)
    case None =>
    case Some(a) =>
      assert AllocationMirrored(t, t.allocations[a]);
      if t.allocations[a].status != AllocActive {
        StatusChangeKeepsConsistent(t, Activate(t, j, now).After(t), a, AllocActive);
      }
  }

  lemma ReserveForRetryKeepsConsistent(t: Tables, j: JobId)
    requires Consistent(t)
    ensures Consistent(ReserveForRetry(t, j).After(t))
  {
    match LiveOf(t, j)
    case None =>
    case Some(a) =>
      assert AllocationMirrored(t, t.allocations[a]);
      StatusChangeKeepsConsistent(t, ReserveForRetry(t, j).After(t), a, AllocRetryReserved);
  }

  /** A holder goes away and its proxy comes to rest. */
  lemma HolderLeavesKeepsConsistent(t: Tables, t': Tables, p: ProxyId)
    requires Consistent(t)
    requires p in t.proxies
    requires t'.proxies ==
             t.proxies[p := t.proxies[p].(status := Resting(t.proxies[p].enabled, t.proxies[p].healthOk))]
    requires forall a, j :: LiveFor(t', a, j) ==> LiveFor(t, a, j)
    requires forall a, q :: LiveOn(t', a, q) <==> LiveOn(t, a, q) && q != p
    requires forall r, q :: HeldOn(t', r, q) <==> HeldOn(t, r, q) && q != p
    requires forall a :: a in t'.allocations && IsLive(t'.allocations[a].status) ==>
               a in t.allocations && t'.allocations[a] == t.allocations[a]
    requires forall r :: r in t'.reservations && t'.reservations[r].status == Held ==>
               r in t.reservations && t'.reservations[r] == t.reservations[r]
    ensures Consistent(t')
  {
    forall a | a in t'.allocations && IsLive(t'.allocations[a].status)
      ensures AllocationMirrored(t', t'.allocations[a])
    {
      assert AllocationMirrored(t, t.allocations[a]) && LiveOn(t', a, t.allocations[a].proxyId);
    }
    forall r | r in t'.reservations && t'.reservations[r].status == Held
      ensures ReservationMirrored(t', t'.reservations[r])
    {
      assert ReservationMirrored(t, t.reservations[r]) && HeldOn(t', r, t.reservations[r].proxyId);
    }
    forall q | q in t'.proxies && IsOwned(t'.proxies[q].status) ensures HasHolder(t', q) {
      assert q != p && HasHolder(t, q);
    }
  }

  lemma ReleaseKeepsConsistent(t: Tables, j: JobId, reason: ReleaseReason, now: Time)
    requires Consistent(t)
    ensures Consistent(Release(t, j, reason, now).After(t))
  {
    var t' := Release(t, j, reason, now).After(t);
    if t' != t {
      var a := LiveOf(t, j).value;
      var p := t.allocations[a].proxyId;
      assert AllocationMirrored(t, t.allocations[a]) && LiveOn(t, a, p);
      HolderLeavesKeepsConsistent(t, t', p);
    }
  }

  lemma GiveBackKeepsConsistent(t: Tables, r: ReservationId)
    requires Consistent(t)
    ensures Consistent(GiveBack(t, r).After(t))
  {
    var t' := GiveBack(t, r).After(t);
    if t' != t {
      var p := t.reservations[r].proxyId;
      assert ReservationMirrored(t, t.reservations[r]) && HeldOn(t, r, p);
      HolderLeavesKeepsConsistent(t, t', p);
    }
  }

  /** An available proxy has no holder at all. */
  lemma UnownedHasNoHolder(t: Tables, p: ProxyId)
    requires Consistent(t) && p in t.proxies && !IsOwned(t.proxies[p].status)
    ensures forall a :: !LiveOn(t, a, p)
    ensures forall r :: !HeldOn(t, r, p)
  {
  }

  /** An unowned proxy becomes RESERVED and gets one new holder. */
  lemma HolderArrivesKeepsConsistent(t: Tables, t': Tables, p: ProxyId)
    requires Consistent(t)
    requires p in t.proxies && !IsOwned(t.proxies[p].status)
    requires t'.proxies == t.proxies[p := t.proxies[p].(status := Reserved)]
    requires UniqueLiveAllocations(t') && UniqueHeldReservations(t')
    requires HasHolder(t', p) && forall a, r :: LiveOn(t', a, p) ==> !HeldOn(t', r, p)
    requires forall a, q :: q != p ==> (LiveOn(t', a, q) <==> LiveOn(t, a, q))
    requires forall r, q :: q != p ==> (HeldOn(t', r, q) <==> HeldOn(t, r, q))
    requires forall a :: a in t'.allocations && IsLive(t'.allocations[a].status) ==>
               || (a in t.allocations && t'.allocations[a] == t.allocations[a])
               || AllocationMirrored(t', t'.allocations[a])
    requires forall r :: r in t'.reservations && t'.reservations[r].status == Held ==>
               || (r in t.reservations && t'.reservations[r] == t.reservations[r])
               || ReservationMirrored(t', t'.reservations[r])
    ensures Consistent(t')
  {
    UnownedHasNoHolder(t, p);
    forall a | a in t'.allocations && IsLive(t'.allocations[a].status)
      ensures AllocationMirrored(t', t'.allocations[a])
    {
      if !AllocationMirrored(t', t'.allocations[a]) {
        assert AllocationMirrored(t, t.allocations[a]) && LiveOn(t, a, t.allocations[a].proxyId);
      }
    }
    forall r | r in t'.reservations && t'.reservations[r].status == Held
      ensures ReservationMirrored(t', t'.reservations[r])
    {
      if !ReservationMirrored(t', t'.reservations[r]) {
        assert ReservationMirrored(t, t.reservations[r]) && HeldOn(t, r, t.reservations[r].proxyId);
      }
    }
    forall q | q in t'.proxies && IsOwned(t'.proxies[q].status) ensures HasHolder(t', q) {
      assert q != p ==> HasHolder(t, q);
    }
    forall a, r, q | LiveOn(t', a, q) ensures !HeldOn(t', r, q) {
      if q != p { assert LiveOn(t, a, q); }
    }
  }

  lemma AcquireKeepsConsistent(t: Tables, j: JobId, a: AllocationId)
    requires Consistent(t)
    ensures Consistent(Acquire(t, j, a).After(t))
  {
    var t' := Acquire(t, j, a).After(t);
    if t' != t {
      var p := BestAvailable(t.proxies).value;
      UnownedHasNoHolder(t, p);
      assert LiveOn(t', a, p) && AllocationMirrored(t', t'.allocations[a]);
      assert forall b, k :: LiveFor(t', b, k) <==> LiveFor(t, b, k) || (b == a && k == j);
      assert forall b, q :: LiveOn(t', b, q) <==> LiveOn(t, b, q) || (b == a && q == p);
      assert forall r, q :: HeldOn(t', r, q) <==> HeldOn(t, r, q);
      HolderArrivesKeepsConsistent(t, t', p);
    }
  }

  lemma ReserveKeepsConsistent(t: Tables, maxConcurrent: int, r: ReservationId)
    requires Consistent(t)
    ensures Consistent(Reserve(t, maxConcurrent, r).After(t))
  {
    var t' := Reserve(t, maxConcurrent, r).After(t);
    if t' != t {
      var p := BestAvailable(t.proxies).value;
      UnownedHasNoHolder(t, p);
      assert HeldOn(t', r, p) && ReservationMirrored(t', t'.reservations[r]);
      assert forall b, k :: LiveFor(t', b, k) <==> LiveFor(t, b, k);
      assert forall b, q :: LiveOn(t', b, q) <==> LiveOn(t, b, q);
      assert forall s, q :: HeldOn(t', s, q) <==> HeldOn(t, s, q) || (s == r && q == p);
      HolderArrivesKeepsConsistent(t, t', p);
    }
  }

  /** Binding hands the proxy over from the reservation to the allocation. */
  lemma BindKeepsConsistent(t: Tables, r: ReservationId, j: JobId, a: AllocationId)
    requires Consistent(t)
    ensures Consistent(Bind(t, r, j, a).After(t))
  {
    var t' := Bind(t, r, j, a).After(t);
    if t' != t {
      var p := t.reservations[r].proxyId;
      assert HeldOn(t, r, p) && ReservationMirrored(t, t.reservations[r]);
      assert LiveOn(t', a, p) && AllocationMirrored(t', t'.allocations[a]);
      assert forall b, k :: LiveFor(t', b, k) <==> LiveFor(t, b, k) || (b == a && k == j);
      assert forall b, q :: LiveOn(t', b, q) <==> LiveOn(t, b, q) || (b == a && q == p);
      assert forall s, q :: HeldOn(t', s, q) <==> HeldOn(t, s, q) && s != r;
      forall b | b in t'.allocations && IsLive(t'.allocations[b].status)
        ensures AllocationMirrored(t', t'.allocations[b])
      {
        if b != a { assert AllocationMirrored(t, t.allocations[b]); }
      }
      forall q | q in t'.proxies && IsOwned(t'.proxies[q].status) ensures HasHolder(t', q) {
        assert HasHolder(t, q);
        if q != p && exists s :: HeldOn(t, s, q) {
          var s :| HeldOn(t, s, q);
          assert HeldOn(t', s, q);
        }
      }
    }
  }

  /** What a pool operation may do to the rows: owned rows keep status and endpoint, the others rest. */
  ghost predicate PoolStep(before: map<ProxyId, Proxy>, after: map<ProxyId, Proxy>) {
    && UniqueEndpoints(after)
    && (forall p :: p in before ==> p in after)
    && (forall p :: p in after ==>
          if p in before && IsOwned(before[p].status) then
            after[p].status == before[p].status && after[p].endpoint == before[p].endpoint
          else
            after[p].status == Resting(after[p].enabled, after[p].healthOk))
  }

  lemma PoolStepKeepsConsistent(t: Tables, t': Tables)
    requires Consistent(t)
    requires t' == t.(proxies := t'.proxies) && PoolStep(t.proxies, t'.proxies)
    ensures Consistent(t')
  {
    assert forall b, k :: LiveFor(t', b, k) <==> LiveFor(t, b, k);
    assert forall b, q :: LiveOn(t', b, q) <==> LiveOn(t, b, q);
    assert forall s, q :: HeldOn(t', s, q) <==> HeldOn(t, s, q);
    forall a | a in t'.allocations && IsLive(t'.allocations[a].status)
      ensures AllocationMirrored(t', t'.allocations[a])
    {
      assert AllocationMirrored(t, t.allocations[a]);
    }
    forall r | r in t'.reservations && t'.reservations[r].status == Held
      ensures ReservationMirrored(t', t'.reservations[r])
    {
      assert ReservationMirrored(t, t.reservations[r]);
    }
    forall q | q in t'.proxies && IsOwned(t'.proxies[q].status) ensures HasHolder(t', q) {
      assert HasHolder(t, q);
    }
  }

  /** Unowned rows rest: the part of consistency that a single pool statement needs. */
  ghost predicate AllRest(proxies: map<ProxyId, Proxy>) {
    && UniqueEndpoints(proxies)
    && forall p :: p in proxies && !IsOwned(proxies[p].status) ==>
         proxies[p].status == Resting(proxies[p].enabled, proxies[p].healthOk)
  }

  lemma {:induction false} DefinitionsArePoolSteps(proxies: map<ProxyId, Proxy>, definitions: seq<Definition>)
    requires AllRest(proxies) && ApplyDefinitions(proxies, definitions).Some?
    ensures PoolStep(proxies, ApplyDefinitions(proxies, definitions).value)
  {
    if definitions != [] {
      DefinitionsArePoolSteps(proxies, definitions[..|definitions| - 1]);
      var middle := ApplyDefinitions(proxies, definitions[..|definitions| - 1]).value;
      var d := definitions[|definitions| - 1];
      var after := ApplyDefinition(middle, d).value;
      forall p, q | p in after && q in after && after[p].endpoint == after[q].endpoint ensures p == q {
        assert p == d.id || q == d.id || (p in middle && q in middle);
      }
    }
  }

  lemma DisablingMissingIsAPoolStep(before: map<ProxyId, Proxy>, middle: map<ProxyId, Proxy>, configured: set<ProxyId>)
    requires PoolStep(before, middle)
    ensures PoolStep(before, DisableMissing(middle, configured))
  {
    var after := DisableMissing(middle, configured);
    forall p, q | p in after && q in after && after[p].endpoint == after[q].endpoint ensures p == q {
      assert middle[p].endpoint == middle[q].endpoint;
    }
  }

  lemma SyncKeepsConsistent(t: Tables, definitions: seq<Definition>)
    requires Consistent(t)
    ensures Consistent(Sync(t, definitions).After(t))
  {
    var next := ApplyDefinitions(t.proxies, definitions);
    if next.Some? {
      DefinitionsArePoolSteps(t.proxies, definitions);
      DisablingMissingIsAPoolStep(t.proxies, next.value, ConfiguredIds(definitions));
      PoolStepKeepsConsistent(t, Sync(t, definitions).After(t));
    }
  }

  lemma ChangeProxyKeepsConsistent(t: Tables, p: ProxyId, change: Change)
    requires Consistent(t)
    ensures Consistent(ChangeProxy(t, p, change).After(t))
  {
    if p in t.proxies {
      PoolStepKeepsConsistent(t, ChangeProxy(t, p, change).After(t));
    }
  }

  /** Every transaction of every store keeps the ownership discipline. */
  lemma TransactionsKeepConsistent(t: Tables, op: Op)
    requires Consistent(t)
    ensures Consistent(Apply(t, op))
  {
    match op
    case AcquireOp(j, a) => AcquireKeepsConsistent(t, j, a);
    case ActivateOp(j, now) => ActivateKeepsConsistent(t, j, now);
    case RetryOp(j) => ReserveForRetryKeepsConsistent(t, j);
    case ReleaseOp(j, reason, now) => ReleaseKeepsConsistent(t, j, reason, now);
    case ReserveOp(maxConcurrent, r) => ReserveKeepsConsistent(t, maxConcurrent, r);
    case BindOp(r, j, a) => BindKeepsConsistent(t, r, j, a);
    case GiveBackOp(r) => GiveBackKeepsConsistent(t, r);
    case SyncOp(definitions) => SyncKeepsConsistent(t, definitions);
    case ChangeOp(p, change) => ChangeProxyKeepsConsistent(t, p, change);
    case _ =>
      PoolIsLeftAlone(t, op);
      SamePoolKeepsConsistent(t, Apply(t, op));
  }

  lemma {:induction false} RunsAreConsistent(ops: seq<Op>)
    ensures Consistent(ApplyAll(EMPTY_TABLES, ops))
  {
    if ops != [] {
      RunsAreConsistent(ops[..|ops| - 1]);
      TransactionsKeepConsistent(ApplyAll(EMPTY_TABLES, ops[..|ops| - 1]), ops[|ops| - 1]);
    }
  }

  // -------------------------------------------------------------------------------------------
  // Ownership is a bijection, and it bounds concurrency
  // -------------------------------------------------------------------------------------------

  function OwnedProxies(t: Tables): set<ProxyId> {
    set p | p in t.proxies && IsOwned(t.proxies[p].status)
  }

  lemma {:induction false} ImageSize<A, B>(f: map<A, B>)
    requires forall x, y :: x in f && y in f && f[x] == f[y] ==> x == y
    ensures |f.Values| == |f|
    decreases |f|
  {
    if f == map[] {
      assert f.Values == {};
    } else {
      var x :| x in f;
      var rest := f - {x};
      ImageSize(rest);
      assert f.Values == rest.Values + {f[x]} by {
        forall v | v in f.Values ensures v in rest.Values + {f[x]} {
          var y :| y in f && f[y] == v;
          assert y == x || y in rest;
        }
        assert forall v :: v in rest.Values ==> v in f.Values;
        assert x in f;
      }
      assert f[x] !in rest.Values;
      assert f.Keys == rest.Keys + {x} && |f| == |f.Keys| && |rest| == |rest.Keys|;
    }
  }

  function AllocationProxies(t: Tables): map<AllocationId, ProxyId> {
    map a | a in LiveAllocations(t) :: t.allocations[a].proxyId
  }

  function ReservationProxies(t: Tables): map<ReservationId, ProxyId> {
    map r | r in HeldReservations(t) :: t.reservations[r].proxyId
  }

  lemma HoldersAreCounted(t: Tables)
    requires UniqueLiveAllocations(t) && UniqueHeldReservations(t)
    ensures |AllocationProxies(t).Values| == |LiveAllocations(t)|
    ensures |ReservationProxies(t).Values| == |HeldReservations(t)|
  {
    var f, g := AllocationProxies(t), ReservationProxies(t);
    forall a, b | a in f && b in f && f[a] == f[b] ensures a == b {
      assert LiveOn(t, a, f[a]) && LiveOn(t, b, f[a]);
    }
    forall r, q | r in g && q in g && g[r] == g[q] ensures r == q {
      assert HeldOn(t, r, g[r]) && HeldOn(t, q, g[r]);
    }
    ImageSize(f);
    ImageSize(g);
    assert f.Keys == LiveAllocations(t) && g.Keys == HeldReservations(t);
  }

  lemma HeldByAllocation(t: Tables, p: ProxyId)
    ensures p in AllocationProxies(t).Values <==> exists a :: LiveOn(t, a, p)
  {
    var f := AllocationProxies(t);
    if p in f.Values {
      var a :| a in f && f[a] == p;
      assert LiveOn(t, a, p);
    }
    if a :| LiveOn(t, a, p) {
      assert a in f && f[a] == p;
    }
  }

  lemma HeldByReservation(t: Tables, p: ProxyId)
    ensures p in ReservationProxies(t).Values <==> exists r :: HeldOn(t, r, p)
  {
    var g := ReservationProxies(t);
    if p in g.Values {
      var r :| r in g && g[r] == p;
      assert HeldOn(t, r, p);
    }
    if r :| HeldOn(t, r, p) {
      assert r in g && g[r] == p;
    }
  }

  lemma OwnedIffHeld(t: Tables, p: ProxyId)
    requires Consistent(t)
    ensures p in OwnedProxies(t) <==> HasHolder(t, p)
  {
    if a :| LiveOn(t, a, p) {
      assert AllocationMirrored(t, t.allocations[a]);
    }
    if r :| HeldOn(t, r, p) {
      assert ReservationMirrored(t, t.reservations[r]);
    }
  }

  lemma OwnedProxiesAreHeld(t: Tables)
    requires Consistent(t)
    ensures OwnedProxies(t) == AllocationProxies(t).Values + ReservationProxies(t).Values
  {
    forall p
      ensures p in OwnedProxies(t) <==> p in AllocationProxies(t).Values + ReservationProxies(t).Values
    {
      OwnedIffHeld(t, p);
      HeldByAllocation(t, p);
      HeldByReservation(t, p);
    }
  }

  lemma HoldersHaveDistinctProxies(t: Tables)
    requires HoldersDisjoint(t)
    ensures AllocationProxies(t).Values !! ReservationProxies(t).Values
  {
    forall p ensures !(p in AllocationProxies(t).Values && p in ReservationProxies(t).Values) {
      HeldByAllocation(t, p);
      HeldByReservation(t, p);
    }
  }

  lemma DisjointUnionSize<T>(a: set<T>, b: set<T>)
    requires a !! b
    ensures |a + b| == |a| + |b|
  {
  }

  /** Occupied slots are counted by owned proxies. */
  lemma SlotsAreOwnedProxies(t: Tables)
    requires Consistent(t)
    ensures OccupiedSlots(t) == |OwnedProxies(t)|
  {
    HoldersAreCounted(t);
    OwnedProxiesAreHeld(t);
    HoldersHaveDistinctProxies(t);
    DisjointUnionSize(AllocationProxies(t).Values, ReservationProxies(t).Values);
  }

  /** After any sequence of transactions of the three stores: a proxy is owned exactly when one live
      allocation or one held reservation, and never both or two of either, holds it; holder and proxy
      agree on status and endpoint; distinct holders have distinct endpoints; RELEASING never shows;
      and the status of an unowned proxy is a function of its two flags. */
  lemma ProxyOwnershipIsABijection(ops: seq<Op>)
    ensures var t := ApplyAll(EMPTY_TABLES, ops);
            && (forall p :: p in t.proxies ==> (IsOwned(t.proxies[p].status) <==> HasHolder(t, p)))
            && (forall a, b, p :: LiveOn(t, a, p) && LiveOn(t, b, p) ==> a == b)
            && (forall r, q, p :: HeldOn(t, r, p) && HeldOn(t, q, p) ==> r == q)
            && (forall a, r, p :: LiveOn(t, a, p) ==> !HeldOn(t, r, p))
    ensures var t := ApplyAll(EMPTY_TABLES, ops);
            && (forall a, p :: LiveOn(t, a, p) ==>
                  && p in t.proxies
                  && t.proxies[p].status == Mirror(t.allocations[a].status)
                  && t.proxies[p].status != Releasing
                  && t.proxies[p].endpoint == t.allocations[a].endpoint)
            && (forall r, p :: HeldOn(t, r, p) ==>
                  && p in t.proxies
                  && t.proxies[p].status == Reserved
                  && t.proxies[p].endpoint == t.reservations[r].endpoint)
    ensures var t := ApplyAll(EMPTY_TABLES, ops);
            forall a, b :: a in LiveAllocations(t) && b in LiveAllocations(t) && a != b ==>
              t.allocations[a].endpoint != t.allocations[b].endpoint
    ensures var t := ApplyAll(EMPTY_TABLES, ops);
            OccupiedSlots(t) == |OwnedProxies(t)|
  {
    var t := ApplyAll(EMPTY_TABLES, ops);
    RunsAreConsistent(ops);
    SlotsAreOwnedProxies(t);
    forall a, p | LiveOn(t, a, p) ensures AllocationMirrored(t, t.allocations[a]) {
    }
    forall r, p | HeldOn(t, r, p) ensures ReservationMirrored(t, t.reservations[r]) {
    }
    forall a, b | a in LiveAllocations(t) && b in LiveAllocations(t) && a != b
      ensures t.allocations[a].endpoint != t.allocations[b].endpoint
    {
      var p, q := t.allocations[a].proxyId, t.allocations[b].proxyId;
      assert LiveOn(t, a, p) && LiveOn(t, b, q);
    }
  }

  /** After any sequence of transactions, an unowned proxy is DISABLED iff not enabled, AVAILABLE iff
      enabled and last seen healthy, and COOLDOWN otherwise. */
  lemma UnownedStatusFollowsFlags(ops: seq<Op>, p: ProxyId)
    requires p in ApplyAll(EMPTY_TABLES, ops).proxies
    requires !IsOwned(ApplyAll(EMPTY_TABLES, ops).proxies[p].status)
    ensures var x := ApplyAll(EMPTY_TABLES, ops).proxies[p];
            && (x.status == Disabled <==> !x.enabled)
            && (x.status == Available <==> x.enabled && x.healthOk)
            && (x.status == Cooldown <==> x.enabled && !x.healthOk)
  {
    RunsAreConsistent(ops);
  }

  /** Proxies that become owned although they were not. */
  predicate TakesNoProxy(before: map<ProxyId, Proxy>, after: map<ProxyId, Proxy>) {
    forall p :: p in after && IsOwned(after[p].status) ==> p in before && IsOwned(before[p].status)
  }

  lemma PoolStepTakesNoProxy(before: map<ProxyId, Proxy>, after: map<ProxyId, Proxy>)
    requires PoolStep(before, after)
    ensures TakesNoProxy(before, after)
  {
  }

  lemma SyncTakesNoProxy(t: Tables, definitions: seq<Definition>)
    requires AllRest(t.proxies)
    ensures TakesNoProxy(t.proxies, Sync(t, definitions).After(t).proxies)
  {
    var next := ApplyDefinitions(t.proxies, definitions);
    if next.Some? {
      DefinitionsArePoolSteps(t.proxies, definitions);
      DisablingMissingIsAPoolStep(t.proxies, next.value, ConfiguredIds(definitions));
      PoolStepTakesNoProxy(t.proxies, DisableMissing(next.value, ConfiguredIds(definitions)));
    }
  }

  lemma AllocatorTakesNoProxy(t: Tables, j: JobId, reason: ReleaseReason, now: Time)
    ensures TakesNoProxy(t.proxies, Activate(t, j, now).After(t).proxies)
    ensures TakesNoProxy(t.proxies, ReserveForRetry(t, j).After(t).proxies)
    ensures TakesNoProxy(t.proxies, Release(t, j, reason, now).After(t).proxies)
  {
  }

  lemma ReservationStoreTakesNoProxy(t: Tables, r: ReservationId, j: JobId, a: AllocationId)
    ensures TakesNoProxy(t.proxies, Bind(t, r, j, a).After(t).proxies)
    ensures TakesNoProxy(t.proxies, GiveBack(t, r).After(t).proxies)
  {
  }

  lemma ChangeTakesNoProxy(t: Tables, p: ProxyId, change: Change)
    ensures TakesNoProxy(t.proxies, ChangeProxy(t, p, change).After(t).proxies)
  {
  }

  /** Only reserving and acquiring take proxies; binding takes none. */
  lemma OthersTakeNoProxy(t: Tables, op: Op)
    requires !op.AcquireOp? && !op.ReserveOp?
    requires AllRest(t.proxies)
    ensures TakesNoProxy(t.proxies, Apply(t, op).proxies)
  {
    match op
    case SyncOp(definitions) => SyncTakesNoProxy(t, definitions);
    case ActivateOp(j, now) => AllocatorTakesNoProxy(t, j, AdminRelease, now);
    case RetryOp(j) => AllocatorTakesNoProxy(t, j, AdminRelease, 0);
    case ReleaseOp(j, reason, now) => AllocatorTakesNoProxy(t, j, reason, now);
    case BindOp(r, j, a) => ReservationStoreTakesNoProxy(t, r, j, a);
    case GiveBackOp(r) => ReservationStoreTakesNoProxy(t, r, 0, 0);
    case ChangeOp(p, change) => ChangeTakesNoProxy(t, p, change);
    case _ => PoolIsLeftAlone(t, op);
  }

  lemma BindKeepsSlots(t: Tables, r: ReservationId, j: JobId, a: AllocationId)
    requires Consistent(t)
    ensures OccupiedSlots(Bind(t, r, j, a).After(t)) == OccupiedSlots(t)
  {
    BindKeepsConsistent(t, r, j, a);
    SlotsAreOwnedProxies(t);
    SlotsAreOwnedProxies(Bind(t, r, j, a).After(t));
  }

  lemma OneProxyTaken(t: Tables, t': Tables, p: ProxyId)
    requires p in t.proxies && t'.proxies == t.proxies[p := t.proxies[p].(status := Reserved)]
    ensures |OwnedProxies(t')| <= |OwnedProxies(t)| + 1
  {
    assert OwnedProxies(t') == OwnedProxies(t) + {p};
  }

  lemma ReserveRespectsBound(t: Tables, maxConcurrent: int, r: ReservationId)
    requires Consistent(t)
    ensures var t' := Reserve(t, maxConcurrent, r).After(t);
            OccupiedSlots(t') <= if t' == t then OccupiedSlots(t) else maxConcurrent
  {
    var t' := Reserve(t, maxConcurrent, r).After(t);
    if t' != t {
      ReserveKeepsConsistent(t, maxConcurrent, r);
      SlotsAreOwnedProxies(t);
      SlotsAreOwnedProxies(t');
      OneProxyTaken(t, t', BestAvailable(t.proxies).value);
    }
  }

  /** When allocations come only from reserve and bind, with one bound, live allocations plus held
      reservations never exceed it. */
  lemma {:induction false} ConcurrencyIsBounded(ops: seq<Op>, maxConcurrent: nat)
    requires forall i :: 0 <= i < |ops| ==> !ops[i].AcquireOp?
    requires forall i :: 0 <= i < |ops| && ops[i].ReserveOp? ==> ops[i].maxConcurrent <= maxConcurrent
    ensures OccupiedSlots(ApplyAll(EMPTY_TABLES, ops)) <= maxConcurrent
  {
    if ops == [] {
      assert LiveAllocations(EMPTY_TABLES) == {} && HeldReservations(EMPTY_TABLES) == {};
    } else {
      var init, op := ops[..|ops| - 1], ops[|ops| - 1];
      var t := ApplyAll(EMPTY_TABLES, init);
      ConcurrencyIsBounded(init, maxConcurrent);
      RunsAreConsistent(init);
      if op.ReserveOp? {
        ReserveRespectsBound(t, op.maxConcurrent, op.r);
      } else {
        TransactionsKeepConsistent(t, op);
        OthersTakeNoProxy(t, op);
        SlotsAreOwnedProxies(t);
        SlotsAreOwnedProxies(Apply(t, op));
        assert OwnedProxies(Apply(t, op)) <= OwnedProxies(t);
        SubsetSize(OwnedProxies(Apply(t, op)), OwnedProxies(t));
      }
    }
  }

  lemma SubsetSize<T>(a: set<T>, b: set<T>)
    requires a <= b
    ensures |a| <= |b|
  {
    assert b == a + (b - a);
  }
}
