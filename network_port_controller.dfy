/** Network-port snapshots: an agent posts its connection list; the controller reads the latest one. */
module NetworkPortController {
  import opened Wrappers
  import opened Text
  import opened Dtos
  import opened InMemoryStore

  datatype PortsReply = PortsBadRequest(message: string) | PortsStored

  /**
   * `Submit`: rejects a null payload or a blank agent id; otherwise replaces
   * the agent's snapshot (a null list as an empty one) and refreshes the
   * heartbeat of its registry record, creating the record when absent.
   */
  method Submit(store: Store, data: Option<NetworkPortData>, env: HostEnvironment, now: int) returns (reply: PortsReply)
    requires store.Valid()
    modifies store`networkPorts, store`agents
    ensures store.Valid()
    ensures reply.PortsBadRequest? <==> data.None? || IsBlank(data.value.agentId)
    ensures reply.PortsBadRequest? ==>
      reply.message == "agentId required" && store.networkPorts == old(store.networkPorts) && store.agents == old(store.agents)
    ensures reply == PortsStored ==>
      var id := data.value.agentId.value;
      var before := if id in old(store.agents) then old(store.agents)[id] else DefaultAgentIdentity(id, env, now);
      && store.networkPorts == old(store.networkPorts)[id := data.value.connections.GetOr([])]
      && store.agents == old(store.agents)[id := before.(lastHeartbeat := Some(now))]
  {
    if data.None? || IsBlank(data.value.agentId) {
      return PortsBadRequest("agentId required");
    }
    var id := data.value.agentId.value;
    store.networkPorts := store.networkPorts[id := if data.value.connections.Some? then data.value.connections.value else []];
    var a := store.GetOrAddAgent(id, env, now);
    store.agents := store.agents[id := a.(lastHeartbeat := Some(now))];
    reply := PortsStored;
  }

  /** `Get`: the stored snapshot, or an empty list when the agent never posted one. */
  function Get(store: Store, agentId: string): (r: seq<Conn>)
    reads store
    ensures agentId in store.networkPorts ==> r == store.networkPorts[agentId]
    ensures agentId !in store.networkPorts ==> r == []
  {
    if agentId in store.networkPorts then store.networkPorts[agentId] else []
  }

  /** `GetLatest`: the same lookup as `Get`. */
  function GetLatest(store: Store, agentId: string): (r: seq<Conn>)
    reads store
    ensures r == Get(store, agentId)
  {
    if agentId in store.networkPorts then store.networkPorts[agentId] else []
  }
}
