/**
 * The records exchanged between the controller, the agents and the store,
 * with the defaults their field initialisers give them.
 *
 * Time is an integer number of milliseconds since `DateTime.MinValue`;
 * `default(DateTime)` is therefore `DefaultTime`, that is 0.
 */
module Dtos {
  import opened Wrappers

  /** `default(DateTime)`, i.e. `DateTime.MinValue`. */
  const DefaultTime: int := 0
  /** `DateTime.MaxValue` in milliseconds. */
  const MaxTime: int := 315537897599999
  const MillisPerMinute: int := 60000

  /** A value a `DateTime` can hold. */
  predicate IsDateTime(t: int)
  {
    DefaultTime <= t <= MaxTime
  }

  const MinInt32: int := -0x8000_0000
  const MaxInt32: int := 0x7FFF_FFFF

  predicate IsInt32(n: int)
  {
    MinInt32 <= n <= MaxInt32
  }

  const LoopbackIp: string := "127.0.0.1"
  const ZeroMac: string := "00:00:00:00:00:00"
  const StatusPending: string := "Pending"
  const StatusCompleted: string := "Completed"

  /** What `Environment.MachineName` and `Environment.OSVersion.ToString()` report on the server host. */
  datatype HostEnvironment = HostEnvironment(machineName: string, osVersion: string)

  /** An agent's identity record; `id` is the registry key. */
  datatype AgentIdentity = AgentIdentity(
    id: string,
    machineName: string,
    ipAddress: string,
    macAddress: string,
    operatingSystem: string,
    lastHeartbeat: Option<int>,
    location: Option<string>)

  /**
   * `new AgentIdentity()`: the field initialisers. The generated GUID id is
   * passed in as `guid`; `now` is `DateTime.UtcNow` at construction.
   */
  function DefaultAgentIdentity(guid: string, env: HostEnvironment, now: int): (a: AgentIdentity)
  {
    AgentIdentity(guid, env.machineName, LoopbackIp, ZeroMac, env.osVersion, Some(now), None)
  }

  /** A fresh record has the loopback address, the all-zero MAC, no location and a heartbeat at creation time. */
  lemma AgentIdentityDefaults(guid: string, env: HostEnvironment, now: int)
    ensures var a := DefaultAgentIdentity(guid, env, now);
      && a.id == guid
      && a.machineName == env.machineName
      && a.ipAddress == "127.0.0.1"
      && a.macAddress == "00:00:00:00:00:00"
      && a.operatingSystem == env.osVersion
      && a.lastHeartbeat == Some(now)
      && a.location.None?
  {
  }

  /**
   * A command for one agent. `commandId` and `targetAgentId` are the
   * `required` members; a JSON payload may still carry them as null.
   * `parameters` is a dictionary, so its keys are unique.
   */
  datatype CommandRequest = CommandRequest(
    commandId: Option<string>,
    targetAgentId: Option<string>,
    commandType: int,
    parameters: map<string, string>,
    timestamp: int,
    priority: int,
    timeoutSeconds: int,
    requireConfirmation: bool)

  /** `new CommandRequest { CommandId = .., TargetAgentId = .. }`: the required members set, every other field at its default. */
  function NewCommandRequest(commandId: Option<string>, targetAgentId: Option<string>): (c: CommandRequest)
  {
    CommandRequest(commandId, targetAgentId, 0, map[], DefaultTime, 0, 0, false)
  }

  lemma CommandRequestDefaults(commandId: Option<string>, targetAgentId: Option<string>)
    ensures var c := NewCommandRequest(commandId, targetAgentId);
      && c.commandId == commandId && c.targetAgentId == targetAgentId
      && c.parameters == map[]
      && c.timestamp == DefaultTime
      && c.commandType == 0 && c.priority == 0 && c.timeoutSeconds == 0 && !c.requireConfirmation
  {
  }

  /** The result of a command, keyed by `commandId` in the result table. */
  datatype CommandResponse = CommandResponse(
    commandId: Option<string>,
    agentId: Option<string>,
    status: Option<string>,
    startTime: int,
    endTime: int,
    executionTimeMs: int,
    output: Option<string>,
    errorOutput: Option<string>,
    exitCode: int)

  /**
   * `new CommandResponse { CommandId = .., AgentId = .., Output = .., ErrorOutput = .. }`:
   * the four required members set, the rest at their initialisers. The
   * initialisers of `StartTime` and `EndTime` each read `DateTime.UtcNow`;
   * `startNow` and `endNow` are those two readings, which may differ.
   */
  function NewCommandResponse(commandId: Option<string>, agentId: Option<string>, output: Option<string>, errorOutput: Option<string>, startNow: int, endNow: int): (r: CommandResponse)
  {
    CommandResponse(commandId, agentId, Some(StatusCompleted), startNow, endNow, 0, output, errorOutput, 0)
  }

  lemma CommandResponseDefaults(commandId: Option<string>, agentId: Option<string>, output: Option<string>, errorOutput: Option<string>, startNow: int, endNow: int)
    ensures var r := NewCommandResponse(commandId, agentId, output, errorOutput, startNow, endNow);
      && r.commandId == commandId && r.agentId == agentId && r.output == output && r.errorOutput == errorOutput
      && r.status == Some("Completed")
      && r.exitCode == 0
      && r.startTime == startNow && r.endTime == endNow
      && r.executionTimeMs == 0
  {
  }

  /** The integer part of an agent's metrics report; the floating-point readings are not modelled. */
  datatype SystemMetrics = SystemMetrics(agentId: Option<string>, timestamp: int, networkSent: int, networkReceived: int)

  /** One entry of an agent's connection list, an untyped JSON object, kept as its text. */
  datatype Conn = Conn(json: string)

  /** A network-port snapshot as an agent posts it. */
  datatype NetworkPortData = NetworkPortData(agentId: Option<string>, connections: Option<seq<Conn>>)
}
