/** The running process: the database with its stores, and, as a ghost, the state of the system
    machine that the process is in. Every runner method below keeps the two in step, so that the
    theorems about the machine are theorems about the runners. */
module Runtimes {
  import opened Wrappers
  import opened JobStates
  import opened ProxyStates
  import opened Schema
  import opened JobTransactions
  import opened JobStores
  import opened AllocationTransactions
  import opened IpAllocators
  import opened LedgerTransactions
  import opened FinalResultStores
  import opened RecoveryTransactions
  import opened RecoveryStores
  import opened RetryPolicy
  import opened Transactions
  import opened SystemModel
  import opened SystemInvariant
  import opened SystemSteps

  /** An action of the runner of j, or of the code that starts it. */
  predicate IsAbout(a: Action, j: JobId) {
    && (a.Advance? || a.Recover? || a.Redeliver? || a.Admit? || a.Resume?)
    && a.j == j
  }

  /** The machine went on from one log to the other by actions about j alone. */
  predicate Follows(before: seq<Action>, after: seq<Action>, j: JobId) {
    && |before| <= |after|
    && after[..|before|] == before
    && forall i :: |before| <= i < |after| ==> IsAbout(after[i], j)
  }

  lemma FollowsIsTransitive(a: seq<Action>, b: seq<Action>, c: seq<Action>, j: JobId)
    requires Follows(a, b, j) && Follows(b, c, j)
    ensures Follows(a, c, j)
  {
    assert c[..|a|] == c[..|b|][..|a|];
  }

  /** Configuration, other runners and everything else that the runner of j leaves alone. */
  predicate SameProcess(s: System, s': System, j: JobId) {
    && s'.maxRetries == s.maxRetries && s'.uploadSteps == s.uploadSteps && s'.boot == s.boot
    && s'.configured == s.configured && s'.replaySafe == s.replaySafe && s'.everReplaySafe == s.everReplaySafe
    && s'.phase == s.phase && s'.intake == s.intake
    && s'.pcs - {j} == s.pcs - {j}
  }

  lemma OthersStay(s: System, s': System, j: JobId)
    requires SameProcess(s, s', j)
    ensures forall k :: k != j ==> PcOf(s', k) == PcOf(s, k)
  {
    forall k | k != j ensures PcOf(s', k) == PcOf(s, k) {
      assert k in s'.pcs - {j} <==> k in s'.pcs;
      assert k in s.pcs - {j} <==> k in s.pcs;
      if k in s.pcs {
        assert (s'.pcs - {j})[k] == (s.pcs - {j})[k];
      }
    }
  }

  class Runtime {
    const database: Database
    const jobStore: JobStore
    const allocator: IpAllocator
    const ledger: FinalResultStore
    const recoveries: RecoveryStore
    ghost const origin: System
    ghost var log: seq<Action>
    ghost var system: System

    ghost predicate Valid()
      reads this, database
    {
      && jobStore.database == database && allocator.database == database
      && ledger.database == database && recoveries.database == database
      && IsRun(origin, log, system)
      && system.tables == database.Contents()
    }

    /** The process began with empty tables. */
    ghost predicate StartsAtBoot() {
      origin == Initial(origin.maxRetries, origin.uploadSteps)
    }

    constructor (maxRetries: nat, uploadSteps: set<StepId>)
      ensures Valid() && fresh(database)
      ensures origin == Initial(maxRetries, uploadSteps) && log == [] && StartsAtBoot()
    {
      var tables := new Database();
      database := tables;
      jobStore := new JobStore(tables);
      allocator := new IpAllocator(tables);
      ledger := new FinalResultStore(tables);
      recoveries := new RecoveryStore(tables);
      origin := Initial(maxRetries, uploadSteps);
      log := [];
      system := Initial(maxRetries, uploadSteps);
    }

    /** The machine takes the step that the code has just performed on the database. */
    ghost method Step(a: Action)
      requires IsRun(origin, log, system)
      requires Next(system, a).tables == database.Contents()
      requires jobStore.database == database && allocator.database == database
      requires ledger.database == database && recoveries.database == database
      modifies this`log, this`system
      ensures Valid()
      ensures system == Next(old(system), a) && log == old(log) + [a]
    {
      RunGoesOn(origin, log, system, a);
      system := Next(system, a);
      log := log + [a];
    }

    /** A step of the runner of j whose effect is known. */
    ghost method Advance(j: JobId, event: Event, effect: Effect)
      requires IsRun(origin, log, system)
      requires PcOf(system, j) != Idle && StepOf(system, j, event) == effect
      requires effect.op.None? ==> database.Contents() == system.tables
      requires effect.op.Some? ==> database.Contents() == Apply(system.tables, effect.op.value)
      requires jobStore.database == database && allocator.database == database
      requires ledger.database == database && recoveries.database == database
      modifies this`log, this`system
      ensures Valid() && SameProcess(old(system), system, j)
      ensures Follows(old(log), log, j)
      ensures PcOf(system, j) ==
              if effect.op.None? || Commits(old(system).tables, effect.op.value) then effect.committed
              else effect.failed
      ensures SendsOf(system, j) == SendsAfter(old(SendsOf(system, j)), old(PcOf(system, j)), PcOf(system, j), event)
      ensures system.contexts ==
              if old(PcOf(system, j)).Executing? && (event.WorkflowCompleted? || event.WorkflowFailed?) then
                old(system.contexts) + {j}
              else old(system.contexts)
    {
      Step(SystemModel.Advance(j, event));
    }

    /** Delivery of a recorded result is taken up again after a restart. */
    ghost method NoteRedelivery(j: JobId)
      requires Valid() && system.phase == Recovering && PcOf(system, j).Idle? && j in system.tables.results
      modifies this`log, this`system
      ensures Valid() && SameProcess(old(system), system, j)
      ensures log == old(log) + [if old(IsReportable(system.tables, j)) then Redeliver(j) else ResumeByHand(j)]
      ensures PcOf(system, j).Delivering? && SendsOf(system, j) == old(SendsOf(system, j))
      ensures system.contexts == old(system.contexts)
    {
      Step(if IsReportable(system.tables, j) then Redeliver(j) else ResumeByHand(j));
    }

    /** The first step of recovering an idle job, whose effect is known. */
    ghost method NoteRecovery(j: JobId, now: Time, effect: Effect)
      requires IsRun(origin, log, system)
      requires system.phase == Recovering && PcOf(system, j).Idle? && RecoverStep(system, j, now) == effect
      requires effect.op.None? ==> database.Contents() == system.tables
      requires effect.op.Some? ==> database.Contents() == Apply(system.tables, effect.op.value)
      requires jobStore.database == database && allocator.database == database
      requires ledger.database == database && recoveries.database == database
      modifies this`log, this`system
      ensures Valid() && SameProcess(old(system), system, j) && Follows(old(log), log, j)
      ensures PcOf(system, j) ==
              if effect.op.None? || Commits(old(system).tables, effect.op.value) then effect.committed
              else effect.failed
      ensures SendsOf(system, j) == old(SendsOf(system, j)) && system.contexts == old(system.contexts)
    {
      Step(Recover(j, now));
    }
  }
}
