/**
 * The process-wide in-memory store: the agent registry, the per-agent
 * command queues, the result table, the latest metrics and the
 * network-port snapshots, each a map keyed by agent id or command id.
 * Every operation is one atomic step on this state.
 */
module InMemoryStore {
  import opened Wrappers
  import opened Text
  import opened Dtos

  /** The identity fields an agent reports; each may be null. */
  datatype IdentityFields = IdentityFields(
    machineName: Option<string>,
    ipAddress: Option<string>,
    macAddress: Option<string>,
    operatingSystem: Option<string>,
    location: Option<string>)

  /**
   * The record the add branch of the identity upsert inserts: `??` falls
   * back to the host's or the fixed default only when a field is null.
   */
  function Created(id: string, f: IdentityFields, env: HostEnvironment, now: int): (a: AgentIdentity)
  {
    AgentIdentity(
      id,
      f.machineName.GetOr(env.machineName),
      f.ipAddress.GetOr(LoopbackIp),
      f.macAddress.GetOr(ZeroMac),
      f.operatingSystem.GetOr(env.osVersion),
      Some(now),
      f.location)
  }

  /** The stored value unless the incoming one is non-blank. */
  function Refresh(stored: string, incoming: Option<string>): (s: string)
  {
    if IsBlank(incoming) then stored else incoming.value
  }

  /** The update branch of the identity upsert, as one merge of the stored record with the incoming fields. */
  function Merged(existing: AgentIdentity, f: IdentityFields, now: int): (m: AgentIdentity)
  {
    existing.(
      machineName := Refresh(existing.machineName, f.machineName),
      ipAddress := Refresh(existing.ipAddress, f.ipAddress),
      macAddress := Refresh(existing.macAddress, f.macAddress),
      operatingSystem := Refresh(existing.operatingSystem, f.operatingSystem),
      location := if IsBlank(f.location) then existing.location else f.location,
      lastHeartbeat := Some(now))
  }

  /** The registry after `AddOrUpdate(agentId, create, merge)`. */
  function Upserted(agents: map<string, AgentIdentity>, agentId: string, f: IdentityFields, env: HostEnvironment, now: int): (r: map<string, AgentIdentity>)
  {
    agents[agentId := if agentId in agents then Merged(agents[agentId], f, now) else Created(agentId, f, env, now)]
  }

  /** The condition `FindAgentIdByMac` tests on each record. */
  predicate MacMatches(a: AgentIdentity, mac: string, machineName: Option<string>)
  {
    EqualsIgnoreCase(a.macAddress, mac) && (IsBlank(machineName) || EqualsIgnoreCase(a.machineName, machineName.value))
  }

  /** Every registry record carries its own key as its id. */
  ghost predicate AgentsKeyed(agents: map<string, AgentIdentity>)
  {
    forall k :: k in agents ==> agents[k].id == k
  }

  /** Every result record carries its own key as its command id. */
  ghost predicate ResultsKeyed(results: map<string, CommandResponse>)
  {
    forall k :: k in results ==> results[k].commandId == Some(k)
  }

  /**
   * Every queued command sits in the queue of its own target, has a
   * non-blank id, and that id has a row in the result table.
   */
  ghost predicate QueuesWellFormed(pending: map<string, seq<CommandRequest>>, results: map<string, CommandResponse>)
  {
    forall k, i :: k in pending && 0 <= i < |pending[k]| ==>
      && pending[k][i].targetAgentId == Some(k)
      && !IsBlank(pending[k][i].commandId)
      && pending[k][i].commandId.value in results
  }

  class Store {
    var agents: map<string, AgentIdentity>
    var latestMetrics: map<string, SystemMetrics>
    var pendingCommands: map<string, seq<CommandRequest>>
    var commandResults: map<string, CommandResponse>
    var networkPorts: map<string, seq<Conn>>

    ghost predicate Valid()
      reads this
    {
      && AgentsKeyed(agents)
      && ResultsKeyed(commandResults)
      && QueuesWellFormed(pendingCommands, commandResults)
    }

    /** The stores as the process starts: all empty. */
    constructor ()
      ensures Valid()
      ensures agents == map[] && latestMetrics == map[] && pendingCommands == map[]
      ensures commandResults == map[] && networkPorts == map[]
    {
      agents := map[];
      latestMetrics := map[];
      pendingCommands := map[];
      commandResults := map[];
      networkPorts := map[];
    }

    /**
     * `GetOrAddAgent`: the stored record, untouched, or a new default record
     * whose id is the key and whose heartbeat is `now`.
     */
    method GetOrAddAgent(agentId: string, env: HostEnvironment, now: int) returns (a: AgentIdentity)
      requires Valid()
      modifies this`agents
      ensures Valid()
      ensures agentId in old(agents) ==> a == old(agents[agentId]) && agents == old(agents)
      ensures agentId !in old(agents) ==> a == DefaultAgentIdentity(agentId, env, now) && agents == old(agents)[agentId := a]
      ensures agents[agentId] == a
    {
      if agentId in agents {
        a := agents[agentId];
      } else {
        // The object initializer replaces the generated GUID by the key.
        a := DefaultAgentIdentity(agentId, env, now);
        agents := agents[agentId := a];
      }
    }

    /**
     * `FindAgentIdByMac`: a scan of the registry, in no particular order,
     * for a record whose MAC matches ignoring case and, when a machine name
     * is given, whose machine name matches too.
     */
    method FindAgentIdByMac(macAddress: Option<string>, machineName: Option<string>) returns (r: Option<string>)
      ensures IsBlank(macAddress) ==> r.None?
      ensures r.Some? ==> r.value in agents && MacMatches(agents[r.value], macAddress.value, machineName)
      ensures r.None? && !IsBlank(macAddress) ==> forall k :: k in agents ==> !MacMatches(agents[k], macAddress.value, machineName)
    {
      if IsBlank(macAddress) {
        return None;
      }
      var mac := macAddress.value;
      var remaining := agents.Keys;
      while remaining != {}
        invariant remaining <= agents.Keys
        invariant forall k :: k in agents && k !in remaining ==> !MacMatches(agents[k], mac, machineName)
        decreases remaining
      {
        var k :| k in remaining;
        var a := agents[k];
        if EqualsIgnoreCase(a.macAddress, mac) {
          if IsBlank(machineName) || EqualsIgnoreCase(a.machineName, machineName.value) {
            return Some(k);
          }
        }
        remaining := remaining - {k};
      }
      return None;
    }

    /** `FindAgentIdByMachine`: a scan for a record whose machine name matches ignoring case. */
    method FindAgentIdByMachine(machineName: Option<string>) returns (r: Option<string>)
      ensures IsBlank(machineName) ==> r.None?
      ensures r.Some? ==> r.value in agents && EqualsIgnoreCase(agents[r.value].machineName, machineName.value)
      ensures r.None? && !IsBlank(machineName) ==> forall k :: k in agents ==> !EqualsIgnoreCase(agents[k].machineName, machineName.value)
    {
      if IsBlank(machineName) {
        return None;
      }
      var name := machineName.value;
      var remaining := agents.Keys;
      while remaining != {}
        invariant remaining <= agents.Keys
        invariant forall k :: k in agents && k !in remaining ==> !EqualsIgnoreCase(agents[k].machineName, name)
        decreases remaining
      {
        var k :| k in remaining;
        if EqualsIgnoreCase(agents[k].machineName, name) {
          return Some(k);
        }
        remaining := remaining - {k};
      }
      return None;
    }

    /**
     * `UpdateIdentityFields`: creates the record from the given fields, or
     * rewrites the non-blank fields of the stored one in place; either way
     * the heartbeat becomes `now`.
     */
    method UpdateIdentityFields(agentId: string, f: IdentityFields, env: HostEnvironment, now: int)
      requires Valid()
      modifies this`agents
      ensures Valid()
      ensures agents == Upserted(old(agents), agentId, f, env, now)
    {
      if agentId in agents {
        var existing := agents[agentId];
        if !IsBlank(f.machineName) { existing := existing.(machineName := f.machineName.value); }
        if !IsBlank(f.ipAddress) { existing := existing.(ipAddress := f.ipAddress.value); }
        if !IsBlank(f.macAddress) { existing := existing.(macAddress := f.macAddress.value); }
        if !IsBlank(f.operatingSystem) { existing := existing.(operatingSystem := f.operatingSystem.value); }
        if !IsBlank(f.location) { existing := existing.(location := f.location); }
        existing := existing.(lastHeartbeat := Some(now));
        agents := agents[agentId := existing];
      } else {
        agents := agents[agentId := Created(agentId, f, env, now)];
      }
    }

    /** `CreateOrUpdateAgent`: the same upsert as `UpdateIdentityFields`, returning the resulting record. */
    method CreateOrUpdateAgent(agentId: string, f: IdentityFields, env: HostEnvironment, now: int) returns (a: AgentIdentity)
      requires Valid()
      modifies this`agents
      ensures Valid()
      ensures agents == Upserted(old(agents), agentId, f, env, now)
      ensures a == agents[agentId]
    {
      if agentId in agents {
        a := agents[agentId];
        if !IsBlank(f.machineName) { a := a.(machineName := f.machineName.value); }
        if !IsBlank(f.ipAddress) { a := a.(ipAddress := f.ipAddress.value); }
        if !IsBlank(f.macAddress) { a := a.(macAddress := f.macAddress.value); }
        if !IsBlank(f.operatingSystem) { a := a.(operatingSystem := f.operatingSystem.value); }
        if !IsBlank(f.location) { a := a.(location := f.location); }
        a := a.(lastHeartbeat := Some(now));
      } else {
        a := Created(agentId, f, env, now);
      }
      agents := agents[agentId := a];
    }
  }

  /** In a well-formed registry two keys never hold equal records, so listing the records loses no agent. */
  lemma DistinctKeysHoldDistinctRecords(agents: map<string, AgentIdentity>, k1: string, k2: string)
    requires AgentsKeyed(agents)
    requires k1 in agents && k2 in agents && k1 != k2
    ensures agents[k1] != agents[k2]
  {
  }

  /** The upsert touches the record under its own key only. */
  lemma UpsertedFrame(agents: map<string, AgentIdentity>, agentId: string, f: IdentityFields, env: HostEnvironment, now: int, k: string)
    requires k != agentId
    ensures var r := Upserted(agents, agentId, f, env, now);
      && agentId in r
      && (k in r <==> k in agents)
      && (k in agents ==> r[k] == agents[k])
  {
  }

  /**
   * On an existing record, a non-blank incoming field overwrites the stored
   * one, a blank one leaves it, the id is kept and the heartbeat becomes now.
   */
  lemma MergedFields(existing: AgentIdentity, f: IdentityFields, now: int)
    ensures var m := Merged(existing, f, now);
      && m.id == existing.id
      && m.lastHeartbeat == Some(now)
      && (if IsBlank(f.machineName) then m.machineName == existing.machineName else Some(m.machineName) == f.machineName)
      && (if IsBlank(f.ipAddress) then m.ipAddress == existing.ipAddress else Some(m.ipAddress) == f.ipAddress)
      && (if IsBlank(f.macAddress) then m.macAddress == existing.macAddress else Some(m.macAddress) == f.macAddress)
      && (if IsBlank(f.operatingSystem) then m.operatingSystem == existing.operatingSystem else Some(m.operatingSystem) == f.operatingSystem)
      && (if IsBlank(f.location) then m.location == existing.location else m.location == f.location)
  {
  }

  /**
   * On an absent record, a null field takes its default, any other value,
   * even an empty or white-space string, is stored as given.
   */
  lemma CreatedFields(id: string, f: IdentityFields, env: HostEnvironment, now: int)
    ensures var c := Created(id, f, env, now);
      && c.id == id
      && c.lastHeartbeat == Some(now)
      && c.location == f.location
      && c.machineName == (if f.machineName.None? then env.machineName else f.machineName.value)
      && c.ipAddress == (if f.ipAddress.None? then "127.0.0.1" else f.ipAddress.value)
      && c.macAddress == (if f.macAddress.None? then "00:00:00:00:00:00" else f.macAddress.value)
      && c.operatingSystem == (if f.operatingSystem.None? then env.osVersion else f.operatingSystem.value)
  {
  }

  /** An empty string is stored when it creates a record, but never overwrites a stored field. */
  lemma EmptyStringCreatesButNeverOverwrites(existing: AgentIdentity, id: string, env: HostEnvironment, now: int)
    ensures var f := IdentityFields(Some(""), Some(""), Some(""), Some(""), Some(""));
      && Created(id, f, env, now).ipAddress == ""
      && Created(id, f, env, now).location == Some("")
      && Merged(existing, f, now) == existing.(lastHeartbeat := Some(now))
  {
  }

  /**
   * A second upsert that leaves some fields blank keeps what the first one
   * stored for them, and moves the heartbeat to the later clock reading.
   */
  lemma LaterBlankFieldsKeepEarlier(agents: map<string, AgentIdentity>, agentId: string, f1: IdentityFields, f2: IdentityFields, env: HostEnvironment, t1: int, t2: int)
    requires t1 < t2
    ensures var a1 := Upserted(agents, agentId, f1, env, t1);
      var a2 := Upserted(a1, agentId, f2, env, t2);
      && a2[agentId].id == a1[agentId].id
      && (IsBlank(f2.machineName) ==> a2[agentId].machineName == a1[agentId].machineName)
      && (IsBlank(f2.ipAddress) ==> a2[agentId].ipAddress == a1[agentId].ipAddress)
      && (IsBlank(f2.macAddress) ==> a2[agentId].macAddress == a1[agentId].macAddress)
      && (IsBlank(f2.operatingSystem) ==> a2[agentId].operatingSystem == a1[agentId].operatingSystem)
      && (IsBlank(f2.location) ==> a2[agentId].location == a1[agentId].location)
      && a1[agentId].lastHeartbeat.Some? && a2[agentId].lastHeartbeat.Some?
      && a1[agentId].lastHeartbeat.value < a2[agentId].lastHeartbeat.value
  {
  }

  /** Repeating an identity update with the same fields at the same time changes nothing more. */
  lemma UpsertedIdempotent(agents: map<string, AgentIdentity>, agentId: string, f: IdentityFields, env: HostEnvironment, now: int)
    ensures var once := Upserted(agents, agentId, f, env, now);
      Upserted(once, agentId, f, env, now) == once
  {
  }

  /** After an upsert that reports a non-blank MAC, that record matches a lookup by that MAC. */
  lemma UpsertedMacIsFindable(agents: map<string, AgentIdentity>, agentId: string, f: IdentityFields, env: HostEnvironment, now: int)
    requires !IsBlank(f.macAddress)
    ensures var r := Upserted(agents, agentId, f, env, now);
      agentId in r && MacMatches(r[agentId], f.macAddress.value, f.machineName)
  {
  }
}
