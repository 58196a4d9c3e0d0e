/** The configured proxies (src/network/proxy-pool.js): what each statement and the sync transaction
    commit. */
module PoolTransactions {
  import opened Wrappers
  import opened ProxyStates
  import opened Schema

  datatype Definition = Definition(id: ProxyId, endpoint: Endpoint, protocol: Protocol, enabled: bool)

  /** A row after one of the CASE updates: owned rows keep their status, the others rest. */
  function Refreshed(proxy: Proxy): Proxy {
    if IsOwned(proxy.status) then proxy else proxy.(status := Resting(proxy.enabled, proxy.healthOk))
  }

  function Redefined(proxy: Proxy, d: Definition): Proxy {
    Refreshed(proxy.(endpoint := d.endpoint, protocol := d.protocol, enabled := d.enabled))
  }

  function Inserted(d: Definition): Proxy {
    Proxy(d.endpoint, d.protocol, d.enabled, Resting(d.enabled, false), false, 0, 0)
  }

  predicate EndpointTaken(proxies: map<ProxyId, Proxy>, id: ProxyId, endpoint: Endpoint) {
    exists p :: p in proxies && p != id && proxies[p].endpoint == endpoint
  }

  /** Applies one definition; None when it breaks an owned endpoint or the UNIQUE(ip, port) index. */
  function ApplyDefinition(proxies: map<ProxyId, Proxy>, d: Definition): Option<map<ProxyId, Proxy>> {
    if d.id in proxies then
      var existing := proxies[d.id];
      if (existing.endpoint != d.endpoint || existing.protocol != d.protocol) && IsOwned(existing.status) then
        None
      else if EndpointTaken(proxies, d.id, d.endpoint) then
        None
      else
        Some(proxies[d.id := Redefined(existing, d)])
    else if EndpointTaken(proxies, d.id, d.endpoint) then
      None
    else
      Some(proxies[d.id := Inserted(d)])
  }

  function ApplyDefinitions(proxies: map<ProxyId, Proxy>, definitions: seq<Definition>): Option<map<ProxyId, Proxy>> {
    if definitions == [] then
      Some(proxies)
    else
      match ApplyDefinitions(proxies, definitions[..|definitions| - 1])
      case None => None
      case Some(next) => ApplyDefinition(next, definitions[|definitions| - 1])
  }

  function ConfiguredIds(definitions: seq<Definition>): set<ProxyId> {
    set i | 0 <= i < |definitions| :: definitions[i].id
  }

  /** Rows no definition mentions are disabled, not deleted. */
  function DisableMissing(proxies: map<ProxyId, Proxy>, configured: set<ProxyId>): map<ProxyId, Proxy> {
    map p | p in proxies ::
      if p in configured then proxies[p] else Refreshed(proxies[p].(enabled := false))
  }

  function Sync(t: Tables, definitions: seq<Definition>): Tx<()> {
    match ApplyDefinitions(t.proxies, definitions)
    case None => Rollback(ProxyConfiguration)
    case Some(next) => Commit(t.(proxies := DisableMissing(next, ConfiguredIds(definitions))), ())
  }

  /** An unowned proxy shows its flags in its status; an owned one keeps its status. */
  predicate StatusFits(before: Proxy, after: Proxy) {
    if before.status in {Reserved, Active, RetryReserved, Releasing} then after.status == before.status
    else
      && (after.status == Disabled <==> !after.enabled)
      && (after.status == Available <==> after.enabled && after.healthOk)
      && (after.status == Cooldown <==> after.enabled && !after.healthOk)
  }

  /** A configured proxy is as its definition says; health, counters and an owned status are those it had, and a new
      one has none of them. */
  predicate IsDefined(proxies: map<ProxyId, Proxy>, d: Definition, row: Proxy) {
    && row.endpoint == d.endpoint && row.protocol == d.protocol && row.enabled == d.enabled
    && if d.id in proxies then
         var before := proxies[d.id];
         && row.healthOk == before.healthOk
         && row.successCount == before.successCount && row.failureCount == before.failureCount
         && StatusFits(before, row)
         && (before.status in {Reserved, Active, RetryReserved, Releasing} ==>
               row.endpoint == before.endpoint && row.protocol == before.protocol)
       else
         && !row.healthOk && row.successCount == 0 && row.failureCount == 0
         && row.status == (if d.enabled then Cooldown else Disabled)
  }

  /** No later definition has the same id. */
  predicate IsLastDefinition(definitions: seq<Definition>, i: nat) {
    i < |definitions| && forall k :: i < k < |definitions| ==> definitions[k].id != definitions[i].id
  }

  lemma {:induction false} LastDefinitionExists(definitions: seq<Definition>, id: ProxyId) returns (i: nat)
    requires id in ConfiguredIds(definitions)
    ensures IsLastDefinition(definitions, i) && definitions[i].id == id
  {
    if definitions[|definitions| - 1].id == id {
      i := |definitions| - 1;
    } else {
      var init := definitions[..|definitions| - 1];
      var k :| 0 <= k < |definitions| && definitions[k].id == id;
      assert init[k].id == id;
      i := LastDefinitionExists(init, id);
    }
  }

  /** Every definition ends up in the table, the last one of each id; other rows stay. */
  ghost predicate AreStored(proxies: map<ProxyId, Proxy>, definitions: seq<Definition>, next: map<ProxyId, Proxy>) {
    && next.Keys == proxies.Keys + ConfiguredIds(definitions)
    && (forall p :: p in proxies && p !in ConfiguredIds(definitions) ==> next[p] == proxies[p])
    && (forall i: nat :: IsLastDefinition(definitions, i) ==>
          IsDefined(proxies, definitions[i], next[definitions[i].id]))
  }

  /** The row of the last definition, however often its id was defined before. */
  lemma RedefinedRow(proxies: map<ProxyId, Proxy>, definitions: seq<Definition>, next: map<ProxyId, Proxy>, d: Definition)
    requires AreStored(proxies, definitions, next) && ApplyDefinition(next, d).Some?
    ensures IsDefined(proxies, d, ApplyDefinition(next, d).value[d.id])
  {
    if d.id in ConfiguredIds(definitions) {
      var i := LastDefinitionExists(definitions, d.id);
      assert IsDefined(proxies, definitions[i], next[definitions[i].id]);
    }
  }

  lemma {:induction false} DefinitionsAreStored(proxies: map<ProxyId, Proxy>, definitions: seq<Definition>)
    requires ApplyDefinitions(proxies, definitions).Some?
    ensures AreStored(proxies, definitions, ApplyDefinitions(proxies, definitions).value)
  {
    if definitions != [] {
      var init, d := definitions[..|definitions| - 1], definitions[|definitions| - 1];
      var earlier, next := ApplyDefinitions(proxies, init).value, ApplyDefinitions(proxies, definitions).value;
      DefinitionsAreStored(proxies, init);
      OneMoreId(definitions);
      RedefinedRow(proxies, init, earlier, d);
      forall i: nat | IsLastDefinition(definitions, i)
        ensures IsDefined(proxies, definitions[i], next[definitions[i].id])
      {
        if i < |init| {
          assert IsLastDefinition(init, i);
        }
      }
    }
  }

  lemma OneMoreId(definitions: seq<Definition>)
    requires definitions != []
    ensures ConfiguredIds(definitions) ==
            ConfiguredIds(definitions[..|definitions| - 1]) + {definitions[|definitions| - 1].id}
  {
    var init, last := definitions[..|definitions| - 1], |definitions| - 1;
    forall id | id in ConfiguredIds(definitions) ensures id in ConfiguredIds(init) + {definitions[last].id} {
      var k :| 0 <= k < |definitions| && definitions[k].id == id;
      assert k < last ==> init[k].id == id;
    }
    forall id | id in ConfiguredIds(init) ensures id in ConfiguredIds(definitions) {
      var k :| 0 <= k < last && init[k].id == id;
      assert definitions[k].id == id;
    }
    assert definitions[last].id in ConfiguredIds(definitions);
  }

  datatype Change = HealthSucceeded | HealthFailed | Disable | Enable

  function Changed(proxy: Proxy, change: Change): Proxy {
    match change
    case HealthSucceeded => Refreshed(proxy.(healthOk := true, successCount := proxy.successCount + 1))
    case HealthFailed => Refreshed(proxy.(healthOk := false, failureCount := proxy.failureCount + 1))
    case Disable => Refreshed(proxy.(enabled := false))
    case Enable => Refreshed(proxy.(enabled := true))
  }

  function ChangeProxy(t: Tables, p: ProxyId, change: Change): Tx<()> {
    if p !in t.proxies then
      Rollback(ProxyNotFound)
    else
      Commit(t.(proxies := t.proxies[p := Changed(t.proxies[p], change)]), ())
  }
}

/** The pool itself. */
module ProxyPools {
  import opened Wrappers
  import opened ProxyStates
  import opened Schema
  import opened PoolTransactions

  class ProxyPool {
    const database: Database
    var connectionSettings: map<ProxyId, Definition>

    constructor (database: Database)
      ensures this.database == database && connectionSettings == map[]
    {
      this.database := database;
      connectionSettings := map[];
    }

    /** UPDATE of a definition, or INSERT of a new row. */
    method StoreDefinition(d: Definition) returns (ok: bool)
      modifies database`proxies
      ensures var next := ApplyDefinition(old(database.proxies), d);
              ok == next.Some? && database.proxies == if ok then next.value else old(database.proxies)
      ensures ok <==>
                && (forall p :: p in old(database.proxies) && p != d.id ==> old(database.proxies)[p].endpoint != d.endpoint)
                && (d.id in old(database.proxies)
                    && old(database.proxies)[d.id].status in {Reserved, Active, RetryReserved, Releasing} ==>
                      && old(database.proxies)[d.id].endpoint == d.endpoint
                      && old(database.proxies)[d.id].protocol == d.protocol)
      ensures ok ==>
                && d.id in database.proxies
                && database.proxies == old(database.proxies)[d.id := database.proxies[d.id]]
                && IsDefined(old(database.proxies), d, database.proxies[d.id])
    {
      if d.id in database.proxies {
        var existing := database.proxies[d.id];
        var endpointChanged := existing.endpoint != d.endpoint || existing.protocol != d.protocol;
        if endpointChanged && IsOwned(existing.status) {
          return false;
        }
        if EndpointTaken(database.proxies, d.id, d.endpoint) {
          return false;
        }
        var status :=
          if existing.status in {Reserved, Active, RetryReserved, Releasing} then existing.status
          else if !d.enabled then Disabled
          else if existing.healthOk then Available
          else Cooldown;
        database.proxies := database.proxies[d.id :=
          existing.(endpoint := d.endpoint, protocol := d.protocol, enabled := d.enabled, status := status)];
        return true;
      }
      if EndpointTaken(database.proxies, d.id, d.endpoint) {
        return false;
      }
      var status := if d.enabled then Cooldown else Disabled;
      database.proxies := database.proxies[d.id := Proxy(d.endpoint, d.protocol, d.enabled, status, false, 0, 0)];
      ok := true;
    }

    method MarkMissing(configured: set<ProxyId>)
      modifies database`proxies
      ensures database.proxies == DisableMissing(old(database.proxies), configured)
      ensures database.proxies.Keys == old(database.proxies).Keys
      ensures forall p :: p in old(database.proxies) ==>
                var before, after := old(database.proxies)[p], database.proxies[p];
                if p in configured then after == before
                else
                  !after.enabled && after == before.(enabled := false, status := after.status) && StatusFits(before, after)
    {
      var stored := database.proxies;
      var rest := stored.Keys;
      while rest != {}
        invariant rest <= stored.Keys
        invariant database.proxies.Keys == stored.Keys
        invariant forall p :: p in rest ==> database.proxies[p] == stored[p]
        invariant forall p :: p in stored && p !in rest ==>
                    database.proxies[p] == DisableMissing(stored, configured)[p]
      {
        var p :| p in rest;
        if p !in configured {
          var status :=
            if stored[p].status in {Reserved, Active, RetryReserved, Releasing} then stored[p].status else Disabled;
          database.proxies := database.proxies[p := stored[p].(enabled := false, status := status)];
        }
        rest := rest - {p};
      }
    }

    method BuildSettings(definitions: seq<Definition>) returns (settings: map<ProxyId, Definition>)
      ensures settings.Keys == ConfiguredIds(definitions)
      ensures forall i: nat :: IsLastDefinition(definitions, i) ==> settings[definitions[i].id] == definitions[i]
    {
      settings := map[];
      for i := 0 to |definitions|
        invariant settings.Keys == ConfiguredIds(definitions[..i])
        invariant forall k: nat :: IsLastDefinition(definitions, k) && k < i ==>
                    definitions[k].id in settings && settings[definitions[k].id] == definitions[k]
      {
        settings := settings[definitions[i].id := definitions[i]];
        ConfiguredIdsGrow(definitions, i);
      }
      assert definitions[..|definitions|] == definitions;
    }

    /** One transaction over all definitions; the connection settings change only when it commits. */
    method SyncFromConfig(definitions: seq<Definition>) returns (r: Result<(), Error>)
      modifies this, database
      ensures var tx := Sync(old(database.Contents()), definitions);
              database.Contents() == tx.After(old(database.Contents())) && r == tx.Outcome()
      ensures r.Failure? ==> connectionSettings == old(connectionSettings)
      ensures r.Success? ==> connectionSettings.Keys == ConfiguredIds(definitions)
      ensures r.Success? ==>
                && database.proxies.Keys == old(database.proxies).Keys + ConfiguredIds(definitions)
                && (forall i: nat :: IsLastDefinition(definitions, i) ==>
                      && IsDefined(old(database.proxies), definitions[i], database.proxies[definitions[i].id])
                      && connectionSettings[definitions[i].id] == definitions[i])
                && (forall p :: p in old(database.proxies) && p !in ConfiguredIds(definitions) ==>
                      var before, after := old(database.proxies)[p], database.proxies[p];
                      && !after.enabled && after == before.(enabled := false, status := after.status)
                      && StatusFits(before, after))
    {
      var settings := BuildSettings(definitions);
      var savepoint := database.Contents();
      var configured: set<ProxyId> := {};
      for i := 0 to |definitions|
        invariant ApplyDefinitions(savepoint.proxies, definitions[..i]) == Some(database.proxies)
        invariant database.Contents() == savepoint.(proxies := database.proxies)
        invariant configured == ConfiguredIds(definitions[..i])
        invariant connectionSettings == old(connectionSettings)
      {
        configured := configured + {definitions[i].id};
        ConfiguredIdsGrow(definitions, i);
        assert definitions[..i + 1][..i] == definitions[..i];
        var ok := StoreDefinition(definitions[i]);
        if !ok {
          FailureSticks(savepoint.proxies, definitions, i + 1);
          database.Restore(savepoint);
          return Failure(ProxyConfiguration);
        }
      }
      assert definitions[..|definitions|] == definitions;
      DefinitionsAreStored(savepoint.proxies, definitions);
      MarkMissing(configured);
      connectionSettings := settings;
      r := Success(());
    }

    lemma ConfiguredIdsGrow(definitions: seq<Definition>, i: nat)
      requires i < |definitions|
      ensures ConfiguredIds(definitions[..i + 1]) == ConfiguredIds(definitions[..i]) + {definitions[i].id}
    {
      var longer := definitions[..i + 1];
      assert forall k :: 0 <= k < i ==> longer[k] == definitions[..i][k];
      forall id | id in ConfiguredIds(longer) ensures id in ConfiguredIds(definitions[..i]) + {definitions[i].id} {
        var k :| 0 <= k < |longer| && longer[k].id == id;
        assert k < i ==> definitions[..i][k].id == id;
      }
      forall id | id in ConfiguredIds(definitions[..i]) ensures id in ConfiguredIds(longer) {
        var k :| 0 <= k < i && definitions[..i][k].id == id;
        assert longer[k].id == id;
      }
      assert longer[i].id == definitions[i].id;
    }

    lemma {:induction false} FailureSticks(proxies: map<ProxyId, Proxy>, definitions: seq<Definition>, k: nat)
      requires k <= |definitions| && ApplyDefinitions(proxies, definitions[..k]).None?
      ensures ApplyDefinitions(proxies, definitions).None?
      decreases |definitions| - k
    {
      if k == |definitions| {
        assert definitions[..k] == definitions;
      } else {
        assert definitions[..k + 1][..k] == definitions[..k];
        FailureSticks(proxies, definitions, k + 1);
      }
    }

    method RecordHealth(p: ProxyId, ok: bool) returns (r: Result<(), Error>)
      modifies database
      ensures var tx := ChangeProxy(old(database.Contents()), p, if ok then HealthSucceeded else HealthFailed);
              database.Contents() == tx.After(old(database.Contents())) && r == tx.Outcome()
      ensures r == if old(p in database.proxies) then Success(()) else Failure(ProxyNotFound)
      ensures r.Success? ==>
                && p in database.proxies && database.proxies == old(database.proxies)[p := database.proxies[p]]
                && var before, after := old(database.proxies)[p], database.proxies[p];
                   && after.healthOk == ok && after.enabled == before.enabled
                   && after.endpoint == before.endpoint && after.protocol == before.protocol
                   && after.successCount == before.successCount + (if ok then 1 else 0)
                   && after.failureCount == before.failureCount + (if ok then 0 else 1)
                   && StatusFits(before, after)
    {
      if p !in database.proxies {
        return Failure(ProxyNotFound);
      }
      var proxy := database.proxies[p];
      var status :=
        if proxy.status in {Reserved, Active, RetryReserved, Releasing} then proxy.status
        else if !proxy.enabled then Disabled
        else if ok then Available
        else Cooldown;
      if ok {
        proxy := proxy.(healthOk := true, successCount := proxy.successCount + 1, status := status);
      } else {
        proxy := proxy.(healthOk := false, failureCount := proxy.failureCount + 1, status := status);
      }
      database.proxies := database.proxies[p := proxy];
      r := Success(());
    }

    method SetEnabled(p: ProxyId, enabled: bool) returns (r: Result<(), Error>)
      modifies database
      ensures var tx := ChangeProxy(old(database.Contents()), p, if enabled then Enable else Disable);
              database.Contents() == tx.After(old(database.Contents())) && r == tx.Outcome()
      ensures r == if old(p in database.proxies) then Success(()) else Failure(ProxyNotFound)
      ensures r.Success? ==>
                && p in database.proxies && database.proxies == old(database.proxies)[p := database.proxies[p]]
                && var before, after := old(database.proxies)[p], database.proxies[p];
                   && after.enabled == enabled
                   && after == before.(enabled := enabled, status := after.status)
                   && StatusFits(before, after)
    {
      if p !in database.proxies {
        return Failure(ProxyNotFound);
      }
      var proxy := database.proxies[p];
      var status :=
        if proxy.status in {Reserved, Active, RetryReserved, Releasing} then proxy.status
        else if !enabled then Disabled
        else if proxy.healthOk then Available
        else Cooldown;
      database.proxies := database.proxies[p := proxy.(enabled := enabled, status := status)];
      r := Success(());
    }
  }
}
