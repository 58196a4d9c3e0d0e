/** Matching and waiting for one-time passwords (src/otp/otp-matcher.js, src/otp/otp-service.js). */
module Otp {
  import opened Wrappers

  type Phone = nat
  type Fingerprint = nat
  type Code = nat

  datatype Record = Record(phone: Phone, code: Option<Code>, createdAt: nat, fingerprint: Fingerprint)

  /** The rows of a phone that were there before the password was requested. */
  datatype Watch = Watch(phone: Phone, baselineFingerprints: seq<Fingerprint>)

  datatype OtpError = MultipleMatches | TimedOut | Cancelled | FetchFailed

  /** A row that may carry the awaited password. */
  predicate IsCandidate(record: Record, watch: Watch) {
    record.phone == watch.phone && record.fingerprint !in watch.baselineFingerprints && record.code.Some?
  }

  function NewFingerprints(records: seq<Record>, watch: Watch): set<Fingerprint> {
    set record | record in records && IsCandidate(record, watch) :: record.fingerprint
  }

  // -------------------------------------------------------------------------------------------
  // OtpMatcher
  // -------------------------------------------------------------------------------------------

  /** createWatch: the fingerprints of the phone's rows, each once. */
  method CreateWatch(records: seq<Record>, phone: Phone) returns (watch: Watch)
    ensures watch.phone == phone
    ensures forall f :: f in watch.baselineFingerprints <==>
              exists i :: 0 <= i < |records| && records[i].phone == phone && records[i].fingerprint == f
    ensures forall i, k :: 0 <= i < k < |watch.baselineFingerprints| ==>
              watch.baselineFingerprints[i] != watch.baselineFingerprints[k]
  {
    var baseline: seq<Fingerprint> := [];
    for n := 0 to |records|
      invariant forall f :: f in baseline <==>
                  exists i :: 0 <= i < n && records[i].phone == phone && records[i].fingerprint == f
      invariant forall i, k :: 0 <= i < k < |baseline| ==> baseline[i] != baseline[k]
    {
      if records[n].phone == phone && records[n].fingerprint !in baseline {
        baseline := baseline + [records[n].fingerprint];
      }
    }
    watch := Watch(phone, baseline);
  }

  /** No row that was there when the watch was created is a candidate later. */
  lemma BaselineIsNeverNew(before: seq<Record>, watch: Watch, record: Record)
    requires forall f :: f in watch.baselineFingerprints <==>
               exists i :: 0 <= i < |before| && before[i].phone == watch.phone && before[i].fingerprint == f
    requires record in before
    ensures !IsCandidate(record, watch)
  {
    var i :| 0 <= i < |before| && before[i] == record;
    if record.phone == watch.phone {
      assert before[i].fingerprint in watch.baselineFingerprints;
    }
  }

  /** The last candidate with this fingerprint among the first n records. */
  predicate IsLastOf(records: seq<Record>, n: nat, watch: Watch, f: Fingerprint, record: Record)
    requires n <= |records|
  {
    exists i :: 0 <= i < n && records[i] == record
                && forall k :: i < k < n && records[k].fingerprint == f ==> !IsCandidate(records[k], watch)
  }

  /** No candidate comes after it. */
  predicate IsLastCandidate(records: seq<Record>, watch: Watch, record: Record) {
    exists i :: 0 <= i < |records| && records[i] == record
                && forall k :: i < k < |records| ==> !IsCandidate(records[k], watch)
  }

  /** What the loop has collected after n records: the last candidate of each fingerprint. */
  ghost predicate Collects(records: seq<Record>, n: nat, watch: Watch, candidates: map<Fingerprint, Record>) {
    && n <= |records|
    && candidates.Keys == NewFingerprints(records[..n], watch)
    && forall f :: f in candidates ==>
         && candidates[f] in records[..n] && IsCandidate(candidates[f], watch) && candidates[f].fingerprint == f
         && IsLastOf(records, n, watch, f, candidates[f])
  }

  lemma StaysLast(records: seq<Record>, n: nat, watch: Watch, f: Fingerprint, record: Record)
    requires n < |records| && IsLastOf(records, n, watch, f, record)
    requires IsCandidate(records[n], watch) ==> records[n].fingerprint != f
    ensures IsLastOf(records, n + 1, watch, f, record)
  {
    var i :| 0 <= i < n && records[i] == record
             && forall k :: i < k < n && records[k].fingerprint == f ==> !IsCandidate(records[k], watch);
    assert records[i] == record && i < n + 1;
  }

  lemma OneMoreRecord(records: seq<Record>, n: nat, watch: Watch, candidates: map<Fingerprint, Record>)
    requires n < |records| && Collects(records, n, watch, candidates)
    ensures Collects(records, n + 1, watch,
                     if IsCandidate(records[n], watch) then candidates[records[n].fingerprint := records[n]]
                     else candidates)
  {
    var record := records[n];
    assert records[..n + 1] == records[..n] + [record];
    var later := if IsCandidate(record, watch) then candidates[record.fingerprint := record] else candidates;
    forall f | f in later ensures IsLastOf(records, n + 1, watch, f, later[f]) {
      if IsCandidate(record, watch) && f == record.fingerprint {
        assert records[n] == later[f];
      } else {
        StaysLast(records, n, watch, f, candidates[f]);
      }
    }
  }

  lemma OnlyFingerprintIsLast(records: seq<Record>, watch: Watch, f: Fingerprint, record: Record)
    requires IsLastOf(records, |records|, watch, f, record) && NewFingerprints(records, watch) == {f}
    ensures IsLastCandidate(records, watch, record)
  {
    var i :| 0 <= i < |records| && records[i] == record
             && forall k :: i < k < |records| && records[k].fingerprint == f ==> !IsCandidate(records[k], watch);
    assert forall k :: i < k < |records| && IsCandidate(records[k], watch) ==>
        records[k].fingerprint in NewFingerprints(records, watch);
  }

  /** findNewOtp: a password only when a single new fingerprint is there; several are refused. */
  method FindNewOtp(records: seq<Record>, watch: Watch) returns (r: Result<Option<Record>, OtpError>)
    ensures r.Failure? <==> |NewFingerprints(records, watch)| > 1
    ensures r.Failure? ==> r.error == MultipleMatches
    ensures r.Success? && r.value.None? ==> NewFingerprints(records, watch) == {}
    ensures r == Success(None) <==>
              forall i :: 0 <= i < |records| && records[i].phone == watch.phone && records[i].code.Some? ==>
                records[i].fingerprint in watch.baselineFingerprints
    ensures r.Success? && r.value.Some? ==>
              && r.value.value.phone == watch.phone && r.value.value.code.Some?
              && r.value.value.fingerprint !in watch.baselineFingerprints
    ensures r.Success? && r.value.Some? ==>
              && r.value.value in records && IsCandidate(r.value.value, watch)
              && NewFingerprints(records, watch) == {r.value.value.fingerprint}
              && IsLastCandidate(records, watch, r.value.value)
  {
    var candidates: map<Fingerprint, Record> := map[];
    for n := 0 to |records|
      invariant Collects(records, n, watch, candidates)
    {
      var record := records[n];
      OneMoreRecord(records, n, watch, candidates);
      if record.phone != watch.phone {
        continue;
      }
      if record.fingerprint in watch.baselineFingerprints {
        continue;
      }
      if record.code.None? {
        continue;
      }
      candidates := candidates[record.fingerprint := record];
    }
    assert records[..|records|] == records;
    assert forall i :: 0 <= i < |records| && IsCandidate(records[i], watch) ==>
        records[i].fingerprint in NewFingerprints(records, watch);
    if |candidates| == 0 {
      return Success(None);
    }
    KeysCount(candidates);
    if |candidates| > 1 {
      return Failure(MultipleMatches);
    }
    var f :| f in candidates;
    OnlyElement(candidates.Keys, f);
    OnlyFingerprintIsLast(records, watch, f, candidates[f]);
    r := Success(Some(candidates[f]));
  }

  lemma KeysCount<K, V>(m: map<K, V>)
    ensures |m| == |m.Keys|
  {
  }

  lemma OnlyElement<T>(s: set<T>, x: T)
    requires x in s && |s| == 1
    ensures s == {x}
  {
    assert |s - {x}| == 0;
  }

  // -------------------------------------------------------------------------------------------
  // OtpService
  // -------------------------------------------------------------------------------------------

  /** The length of n intervals. */
  function Span(n: nat, interval: nat): nat {
    if n == 0 then 0 else Span(n - 1, interval) + interval
  }

  /** ceil(timeout / interval): the least number of intervals that reaches the timeout. */
  function CeilDiv(timeout: nat, interval: nat): nat
    requires interval > 0
  {
    if timeout == 0 then 0 else if timeout <= interval then 1 else 1 + CeilDiv(timeout - interval, interval)
  }

  /** n intervals reach the timeout exactly from ceil(timeout / interval) on. */
  lemma {:induction false} IntervalsReachTimeout(n: nat, timeout: nat, interval: nat)
    requires interval > 0
    ensures Span(n, interval) >= timeout <==> n >= CeilDiv(timeout, interval)
    decreases n
  {
    if n > 0 && timeout > interval {
      IntervalsReachTimeout(n - 1, timeout - interval, interval);
    }
  }

  /** What the world does during one wait: how long each fetch takes and what it returns, how much longer
      than asked each sleep lasts, and when the job is cancelled. */
  datatype World = World(
    fetches: nat -> Option<seq<Record>>,
    fetchTime: nat -> nat,
    oversleep: nat -> nat,
    cancelledBefore: nat -> bool,
    cancelledAsleep: nat -> bool)

  /** How much longer than the intervals a wait takes: its fetches, and what its sleeps last longer than asked. */
  function Delays(world: World, n: nat): nat {
    if n == 0 then 0 else Delays(world, n - 1) + world.fetchTime(n - 1) + world.oversleep(n)
  }

  /** The found row is the single new one of its fetch, or there is no new one. */
  predicate IsOnlyNew(found: Option<Record>, records: seq<Record>, watch: Watch) {
    if found.None? then NewFingerprints(records, watch) == {}
    else
      && found.value in records && IsCandidate(found.value, watch)
      && NewFingerprints(records, watch) == {found.value.fingerprint}
  }

  class OtpService {
    const pollIntervalMs: nat
    const timeoutMs: nat
    /** The clock that nowFn reads. */
    var now: nat

    constructor (pollIntervalMs: nat, timeoutMs: nat, now: nat)
      requires pollIntervalMs >= 1 && timeoutMs >= 1
      ensures this.pollIntervalMs == pollIntervalMs && this.timeoutMs == timeoutMs
    {
      this.pollIntervalMs, this.timeoutMs, this.now := pollIntervalMs, timeoutMs, now;
    }

    /** One fetch and its match. */
    method Poll(watch: Watch, world: World, n: nat) returns (r: Result<Option<Record>, OtpError>)
      modifies `now
      ensures now == old(now) + world.fetchTime(n)
      ensures r == Failure(FetchFailed) <==> world.fetches(n).None?
      ensures r == Failure(MultipleMatches) <==>
                world.fetches(n).Some? && |NewFingerprints(world.fetches(n).value, watch)| > 1
      ensures r.Failure? ==> r.error in {FetchFailed, MultipleMatches}
      ensures r.Success? ==>
                && world.fetches(n).Some?
                && IsOnlyNew(r.value, world.fetches(n).value, watch)
    {
      now := now + world.fetchTime(n);
      if world.fetches(n).None? {
        return Failure(FetchFailed);
      }
      r := FindNewOtp(world.fetches(n).value, watch);
    }

    /** The wait before the next fetch: an interval, or what is left of the time, and what the sleep lasts longer. */
    method Sleep(deadline: nat, world: World, n: nat)
      requires now < deadline
      modifies `now
      ensures now >= deadline || now >= old(now) + pollIntervalMs
      ensures now <= old(now) + pollIntervalMs + world.oversleep(n)
    {
      var pause := deadline - now;
      if pollIntervalMs < pause {
        pause := pollIntervalMs;
      }
      now := now + pause + world.oversleep(n);
    }

    /** waitForOtp: polls until a password is found, the time is up, or something goes wrong. If every
        sleep lasts at least as long as asked, there are at most ceil(timeout / interval) fetches, and a
        returned password is the only new one of the watched phone in the last of them. It ends for a reason: the
        last fetch failed or brought several passwords, the job was cancelled, or the time is up; and it goes on
        after at most an interval of sleep. */
    method WaitForOtp(watch: Watch, world: World) returns (r: Result<Record, OtpError>, polls: nat)
      requires pollIntervalMs >= 1 && timeoutMs >= 1
      modifies `now
      ensures polls <= CeilDiv(timeoutMs, pollIntervalMs)
      ensures r.Success? ==>
                && polls > 0 && world.fetches(polls - 1).Some?
                && IsOnlyNew(Some(r.value), world.fetches(polls - 1).value, watch)
      ensures r == Failure(TimedOut) ==> now >= old(now) + timeoutMs && polls > 0
      ensures r == Failure(FetchFailed) ==> polls > 0 && world.fetches(polls - 1).None?
      ensures r == Failure(MultipleMatches) ==>
                && polls > 0 && world.fetches(polls - 1).Some?
                && |NewFingerprints(world.fetches(polls - 1).value, watch)| > 1
      ensures r == Failure(Cancelled) ==>
                || world.cancelledBefore(polls)
                || (polls > 0 && world.cancelledAsleep(polls) && now < old(now) + timeoutMs)
      ensures forall i :: 0 <= i < polls ==> !world.cancelledBefore(i)
      ensures forall i :: 0 < i < polls ==> !world.cancelledAsleep(i)
      ensures now <= old(now) + Span(polls, pollIntervalMs) + Delays(world, polls)
      ensures forall i :: 0 <= i < polls - 1 ==>
                world.fetches(i).Some? && IsOnlyNew(None, world.fetches(i).value, watch)
    {
      var startedAt := now;
      var deadline := startedAt + timeoutMs;
      polls := 0;
      while true
        invariant startedAt <= now
        invariant polls <= CeilDiv(timeoutMs, pollIntervalMs)
        invariant polls > 0 && now < deadline ==> startedAt + Span(polls, pollIntervalMs) <= now
        invariant forall i :: 0 <= i < polls ==>
                    world.fetches(i).Some? && IsOnlyNew(None, world.fetches(i).value, watch)
        invariant forall i :: 0 <= i < polls ==> !world.cancelledBefore(i)
        invariant forall i :: 0 < i <= polls ==> !world.cancelledAsleep(i)
        invariant now <= startedAt + Span(polls, pollIntervalMs) + Delays(world, polls)
        decreases CeilDiv(timeoutMs, pollIntervalMs) - polls
      {
        if world.cancelledBefore(polls) {
          return Failure(Cancelled), polls;
        }
        if polls > 0 && now >= deadline {
          return Failure(TimedOut), polls;
        }
        IntervalsReachTimeout(polls, timeoutMs, pollIntervalMs);
        var matched := Poll(watch, world, polls);
        polls := polls + 1;
        if matched.Failure? {
          return Failure(matched.error), polls;
        }
        if matched.value.Some? {
          return Success(matched.value.value), polls;
        }
        if now >= deadline {
          return Failure(TimedOut), polls;
        }
        if world.cancelledAsleep(polls) {
          return Failure(Cancelled), polls;
        }
        Sleep(deadline, world, polls);
      }
    }
  }
}
