/** The operator-facing read side: agent listing, single-agent lookup and latest metrics. */
module AdminController {
  import opened Wrappers
  import opened Dtos
  import opened InMemoryStore

  /** What `GetAllAgents` answers; an exception thrown while computing the cutoff is an HTTP 500. */
  datatype AgentList =
    | Listed(agents: set<AgentIdentity>)
    | ListFailed(exception: string)

  datatype AgentReply = AgentOk(agent: AgentIdentity) | AgentNotFound

  /** `GetAgentMetrics` answers the stored metrics, or an empty array when none were reported. */
  datatype MetricsReply = MetricsOk(metrics: SystemMetrics) | NoMetrics

  function Abs(n: int): (r: nat)
  {
    if n < 0 then -n else n
  }

  /** The `Where` filter: a heartbeat is present and not older than the cutoff. */
  predicate OnlineSince(a: AgentIdentity, cutoff: int)
  {
    a.lastHeartbeat.Some? && a.lastHeartbeat.value >= cutoff
  }

  /**
   * `GetAllAgents`: every stored agent, or with `onlineOnly` those whose
   * heartbeat is at most |minutes| minutes before now. `Math.Abs` of the
   * least int throws, and so does `AddMinutes` when the cutoff would fall
   * before `DateTime.MinValue`.
   */
  function GetAllAgents(store: Store, onlineOnly: bool, minutes: int, now: int): (r: AgentList)
    reads store
    requires store.Valid()
    requires IsInt32(minutes) && IsDateTime(now)
    ensures !onlineOnly ==> r == Listed(store.agents.Values)
    ensures onlineOnly && minutes == MinInt32 ==> r.ListFailed?
    ensures onlineOnly && minutes != MinInt32 && now - Abs(minutes) * MillisPerMinute < DefaultTime ==> r.ListFailed?
    ensures onlineOnly && minutes != MinInt32 && now - Abs(minutes) * MillisPerMinute >= DefaultTime ==> r.Listed?
    ensures r.Listed? ==> r.agents <= store.agents.Values
    ensures r.Listed? && onlineOnly ==> forall k :: k in store.agents ==>
      (store.agents[k] in r.agents <==> OnlineSince(store.agents[k], now - Abs(minutes) * MillisPerMinute))
  {
    if !onlineOnly then Listed(store.agents.Values)
    else if minutes == MinInt32 then ListFailed("OverflowException")
    else
      var cutoff := now - Abs(minutes) * MillisPerMinute;
      if cutoff < DefaultTime then ListFailed("ArgumentOutOfRangeException")
      else Listed(set a | a in store.agents.Values && OnlineSince(a, cutoff))
  }

  /** The sign of the window does not matter. */
  lemma MinutesSignIrrelevant(store: Store, onlineOnly: bool, minutes: int, now: int)
    requires store.Valid()
    requires IsInt32(minutes) && IsInt32(-minutes) && IsDateTime(now)
    ensures GetAllAgents(store, onlineOnly, minutes, now) == GetAllAgents(store, onlineOnly, -minutes, now)
  {
  }

  /** A wider window lists every agent a narrower one lists. */
  lemma WiderWindowListsMore(store: Store, m1: int, m2: int, now: int)
    requires store.Valid()
    requires IsInt32(m1) && IsInt32(m2) && IsDateTime(now)
    requires Abs(m1) <= Abs(m2)
    requires GetAllAgents(store, true, m2, now).Listed?
    ensures GetAllAgents(store, true, m1, now).Listed?
    ensures GetAllAgents(store, true, m1, now).agents <= GetAllAgents(store, true, m2, now).agents
  {
  }

  /** `GetAgent`: the stored record, or not found. */
  function GetAgent(store: Store, agentId: string): (r: AgentReply)
    reads store
    ensures r.AgentOk? <==> agentId in store.agents
    ensures r.AgentOk? ==> r.agent == store.agents[agentId]
  {
    if agentId in store.agents then AgentOk(store.agents[agentId]) else AgentNotFound
  }

  /** `GetAgentMetrics`: the latest metrics, or an empty answer (not an error) when none were reported. */
  function GetAgentMetrics(store: Store, agentId: string): (r: MetricsReply)
    reads store
    ensures r.MetricsOk? <==> agentId in store.latestMetrics
    ensures r.MetricsOk? ==> r.metrics == store.latestMetrics[agentId]
  {
    if agentId in store.latestMetrics then MetricsOk(store.latestMetrics[agentId]) else NoMetrics
  }
}
