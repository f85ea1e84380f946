/**
 * Command dispatch: queueing a command for an agent, the agent's
 * destructive poll, status lookup by command id and result submission.
 */
module CommandController {
  import opened Wrappers
  import opened Text
  import opened Dtos
  import opened InMemoryStore

  /** What `Execute`, `Queue` and `QueueInternal` answer. */
  datatype QueueReply =
    | QueueBadRequest(message: Option<string>)   // 400; the null-payload rejection has no message
    | Queued(commandId: string)                   // 200 with { commandId }

  /** What `GetById` answers. */
  datatype CommandStatus =
    | Found(result: CommandResponse)              // 200 with the stored record
    | StillPending(commandId: string)             // 202 with { commandId, status = "Pending" }
    | NotFound                                    // 404

  /** What `SubmitResult` answers. */
  datatype SubmitReply =
    | ResultBadRequest(message: string)
    | ResultStored

  /** A `DateTime` that is `default` becomes `now`; any other is converted to UTC. */
  function Normalized(t: int, now: int, toUtc: int -> int): (r: int)
  {
    if t == DefaultTime then now else toUtc(t)
  }

  /**
   * The command as it is queued: a blank id replaced by the generated one,
   * the timestamp normalised, and nothing else touched.
   */
  function NormalizedCommand(c: CommandRequest, freshId: string, now: int, toUtc: int -> int): (r: CommandRequest)
    requires IsGuidString(freshId)
    ensures !IsBlank(r.commandId)
    ensures IsBlank(c.commandId) ==> r.commandId == Some(freshId)
    ensures !IsBlank(c.commandId) ==> r.commandId == c.commandId
    ensures c.timestamp == DefaultTime ==> r.timestamp == now
    ensures c.timestamp != DefaultTime ==> r.timestamp == toUtc(c.timestamp)
    ensures r.(commandId := c.commandId, timestamp := c.timestamp) == c
  {
    GuidIsNotBlank(freshId);
    c.(commandId := if IsBlank(c.commandId) then Some(freshId) else c.commandId,
       timestamp := Normalized(c.timestamp, now, toUtc))
  }

  /** The queue of `agentId`, or the empty queue when it has none. */
  function QueueOf(pending: map<string, seq<CommandRequest>>, agentId: string): (q: seq<CommandRequest>)
  {
    if agentId in pending then pending[agentId] else []
  }

  /** `GetOrAdd(agentId, new queue).Enqueue(c)`. */
  function Enqueue(pending: map<string, seq<CommandRequest>>, agentId: string, c: CommandRequest): (p: map<string, seq<CommandRequest>>)
  {
    pending[agentId := QueueOf(pending, agentId) + [c]]
  }

  /** The placeholder row written when a command is queued. */
  function PendingPlaceholder(commandId: string, agentId: string, timestamp: int): (row: CommandResponse)
  {
    CommandResponse(Some(commandId), Some(agentId), Some(StatusPending), timestamp, timestamp, 0, Some(""), Some(""), 0)
  }

  /** Enqueueing appends at the tail of one agent's queue, creating it if need be, and leaves every other queue alone. */
  lemma EnqueueAppends(pending: map<string, seq<CommandRequest>>, agentId: string, c: CommandRequest, other: string)
    requires other != agentId
    ensures QueueOf(Enqueue(pending, agentId, c), agentId) == QueueOf(pending, agentId) + [c]
    ensures agentId in Enqueue(pending, agentId, c)
    ensures other in Enqueue(pending, agentId, c) <==> other in pending
    ensures QueueOf(Enqueue(pending, agentId, c), other) == QueueOf(pending, other)
  {
  }

  /** The queues after enqueueing `cs` for `agentId`, one after another. */
  function EnqueueAll(pending: map<string, seq<CommandRequest>>, agentId: string, cs: seq<CommandRequest>): (p: map<string, seq<CommandRequest>>)
    decreases |cs|
  {
    if cs == [] then pending else EnqueueAll(Enqueue(pending, agentId, cs[0]), agentId, cs[1..])
  }

  /** FIFO: commands enqueued one after another sit in the queue in the order they were enqueued. */
  lemma {:induction false} EnqueueAllIsFifo(pending: map<string, seq<CommandRequest>>, agentId: string, cs: seq<CommandRequest>)
    ensures QueueOf(EnqueueAll(pending, agentId, cs), agentId) == QueueOf(pending, agentId) + cs
    decreases |cs|
  {
    if cs != [] {
      EnqueueAllIsFifo(Enqueue(pending, agentId, cs[0]), agentId, cs[1..]);
      assert [cs[0]] + cs[1..] == cs;
    }
  }

  /** Commands for one agent never show up in another agent's queue. */
  lemma {:induction false} EnqueueAllIsolated(pending: map<string, seq<CommandRequest>>, agentId: string, cs: seq<CommandRequest>, other: string)
    requires other != agentId
    ensures QueueOf(EnqueueAll(pending, agentId, cs), other) == QueueOf(pending, other)
    decreases |cs|
  {
    if cs != [] {
      EnqueueAllIsolated(Enqueue(pending, agentId, cs[0]), agentId, cs[1..], other);
    }
  }

  /** Queueing a well-formed command and writing its result row keeps the queues well formed. */
  lemma EnqueueKeepsWellFormed(pending: map<string, seq<CommandRequest>>, results: map<string, CommandResponse>, target: string, c: CommandRequest, row: CommandResponse)
    requires QueuesWellFormed(pending, results)
    requires c.targetAgentId == Some(target) && !IsBlank(c.commandId)
    ensures QueuesWellFormed(Enqueue(pending, target, c), results[c.commandId.value := row])
  {
  }

  /** The inner `queue.Any(cmd => string.Equals(cmd.CommandId, commandId, OrdinalIgnoreCase))`. */
  function QueueHolds(q: seq<CommandRequest>, commandId: string): (r: bool)
    ensures r <==> exists i :: 0 <= i < |q| && q[i].commandId.Some? && EqualsIgnoreCase(q[i].commandId.value, commandId)
  {
    if q == [] then false
    else (q[0].commandId.Some? && EqualsIgnoreCase(q[0].commandId.value, commandId)) || QueueHolds(q[1..], commandId)
  }

  /** Some queue holds a command whose id equals `commandId` ignoring case. */
  ghost predicate QueuedAnywhere(pending: map<string, seq<CommandRequest>>, commandId: string)
  {
    exists k, i :: k in pending && 0 <= i < |pending[k]| && pending[k][i].commandId.Some? && EqualsIgnoreCase(pending[k][i].commandId.value, commandId)
  }

  /**
   * `GetById`: the stored result if there is one; otherwise "Pending" when
   * a queued command has the id ignoring case; otherwise not found.
   */
  function GetById(store: Store, commandId: string): (r: CommandStatus)
    reads store
    ensures commandId in store.commandResults ==> r == Found(store.commandResults[commandId])
    ensures commandId !in store.commandResults ==> !r.Found?
    ensures r == StillPending(commandId) <==> commandId !in store.commandResults && QueuedAnywhere(store.pendingCommands, commandId)
    ensures r == NotFound <==> commandId !in store.commandResults && !QueuedAnywhere(store.pendingCommands, commandId)
  {
    if commandId in store.commandResults then Found(store.commandResults[commandId])
    else if exists k :: k in store.pendingCommands && QueueHolds(store.pendingCommands[k], commandId) then StillPending(commandId)
    else NotFound
  }

  /**
   * In a well-formed store the "Pending" answer comes only from a
   * difference in case: every queued id has a result row, found first.
   */
  lemma StillPendingOnlyByCase(store: Store, commandId: string)
    requires store.Valid()
    requires GetById(store, commandId).StillPending?
    ensures exists k, i ::
      && k in store.pendingCommands && 0 <= i < |store.pendingCommands[k]|
      && store.pendingCommands[k][i].commandId.Some?
      && store.pendingCommands[k][i].commandId.value != commandId
      && EqualsIgnoreCase(store.pendingCommands[k][i].commandId.value, commandId)
  {
  }

  /** A command that is still queued under its exact id is reported with its result row. */
  lemma QueuedCommandIsFound(store: Store, agentId: string, i: int)
    requires store.Valid()
    requires agentId in store.pendingCommands && 0 <= i < |store.pendingCommands[agentId]|
    ensures var id := store.pendingCommands[agentId][i].commandId.value;
      GetById(store, id) == Found(store.commandResults[id])
  {
  }

  /**
   * `QueueInternal` (reached through `Execute` and `Queue`): rejects a null
   * payload or a blank target; otherwise fills a missing id, normalises the
   * timestamp, appends the command to its target's queue and writes the
   * "Pending" placeholder for its id, replacing any earlier row.
   */
  method QueueInternal(store: Store, command: Option<CommandRequest>, freshId: string, now: int, toUtc: int -> int) returns (reply: QueueReply)
    requires store.Valid()
    requires IsGuidString(freshId)
    modifies store`pendingCommands, store`commandResults
    ensures store.Valid()
    ensures command.None? ==> reply == QueueBadRequest(None)
    ensures command.Some? && IsBlank(command.value.targetAgentId) ==> reply == QueueBadRequest(Some("targetAgentId required"))
    ensures reply.QueueBadRequest? ==>
      store.pendingCommands == old(store.pendingCommands) && store.commandResults == old(store.commandResults)
    ensures command.Some? && !IsBlank(command.value.targetAgentId) ==>
      var c := NormalizedCommand(command.value, freshId, now, toUtc);
      var target := c.targetAgentId.value;
      && reply == Queued(c.commandId.value)
      && store.pendingCommands == Enqueue(old(store.pendingCommands), target, c)
      && store.commandResults == old(store.commandResults)[c.commandId.value := PendingPlaceholder(c.commandId.value, target, c.timestamp)]
  {
    if command.None? {
      return QueueBadRequest(None);
    }
    var cmd := command.value;
    if IsBlank(cmd.commandId) {
      GuidIsNotBlank(freshId);
      cmd := cmd.(commandId := Some(freshId));
    }
    if IsBlank(cmd.targetAgentId) {
      return QueueBadRequest(Some("targetAgentId required"));
    }
    cmd := cmd.(timestamp := if cmd.timestamp == DefaultTime then now else toUtc(cmd.timestamp));
    var id, target := cmd.commandId.value, cmd.targetAgentId.value;
    assert cmd == NormalizedCommand(command.value, freshId, now, toUtc);
    ghost var placeholder := PendingPlaceholder(id, target, cmd.timestamp);
    EnqueueKeepsWellFormed(store.pendingCommands, store.commandResults, target, cmd, placeholder);

    // GetOrAdd the target's queue, then Enqueue.
    var queue := if target in store.pendingCommands then store.pendingCommands[target] else [];
    store.pendingCommands := store.pendingCommands[target := queue + [cmd]];

    // AddOrUpdate: a new placeholder, or the existing row rewritten field by field.
    if id in store.commandResults {
      var existing := store.commandResults[id];
      existing := existing.(agentId := Some(target), status := Some(StatusPending),
        startTime := cmd.timestamp, endTime := cmd.timestamp, executionTimeMs := 0,
        output := Some(""), errorOutput := Some(""), exitCode := 0);
      assert existing == placeholder;
      store.commandResults := store.commandResults[id := existing];
    } else {
      store.commandResults := store.commandResults[id := PendingPlaceholder(id, target, cmd.timestamp)];
    }
    reply := Queued(id);
  }

  /** `Execute` (POST api/Command): the same as `QueueInternal`. */
  method Execute(store: Store, command: Option<CommandRequest>, freshId: string, now: int, toUtc: int -> int) returns (reply: QueueReply)
    requires store.Valid()
    requires IsGuidString(freshId)
    modifies store`pendingCommands, store`commandResults
    ensures store.Valid()
    ensures reply.QueueBadRequest? <==> command.None? || IsBlank(command.value.targetAgentId)
    ensures reply.QueueBadRequest? ==>
      store.pendingCommands == old(store.pendingCommands) && store.commandResults == old(store.commandResults)
    ensures reply.Queued? ==>
      var c := NormalizedCommand(command.value, freshId, now, toUtc);
      && reply.commandId == c.commandId.value
      && store.pendingCommands == Enqueue(old(store.pendingCommands), c.targetAgentId.value, c)
      && store.commandResults == old(store.commandResults)[reply.commandId := PendingPlaceholder(reply.commandId, c.targetAgentId.value, c.timestamp)]
  {
    reply := QueueInternal(store, command, freshId, now, toUtc);
  }

  /** `Queue` (POST api/Command/queue): the same as `QueueInternal`. */
  method Queue(store: Store, command: Option<CommandRequest>, freshId: string, now: int, toUtc: int -> int) returns (reply: QueueReply)
    requires store.Valid()
    requires IsGuidString(freshId)
    modifies store`pendingCommands, store`commandResults
    ensures store.Valid()
    ensures reply.QueueBadRequest? <==> command.None? || IsBlank(command.value.targetAgentId)
    ensures reply.QueueBadRequest? ==>
      store.pendingCommands == old(store.pendingCommands) && store.commandResults == old(store.commandResults)
    ensures reply.Queued? ==>
      var c := NormalizedCommand(command.value, freshId, now, toUtc);
      && reply.commandId == c.commandId.value
      && store.pendingCommands == Enqueue(old(store.pendingCommands), c.targetAgentId.value, c)
      && store.commandResults == old(store.commandResults)[reply.commandId := PendingPlaceholder(reply.commandId, c.targetAgentId.value, c.timestamp)]
  {
    reply := QueueInternal(store, command, freshId, now, toUtc);
  }

  /**
   * `GetPending`: dequeues the agent's commands one by one into a list
   * until the queue is empty, and returns that list. The queue itself
   * stays in the map, empty. An agent without a queue gets an empty list.
   */
  method GetPending(store: Store, agentId: string) returns (list: seq<CommandRequest>)
    requires store.Valid()
    modifies store`pendingCommands
    ensures store.Valid()
    ensures list == QueueOf(old(store.pendingCommands), agentId)
    ensures agentId in old(store.pendingCommands) ==> store.pendingCommands == old(store.pendingCommands)[agentId := []]
    ensures agentId !in old(store.pendingCommands) ==> store.pendingCommands == old(store.pendingCommands)
  {
    list := [];
    if agentId !in store.pendingCommands {
      return;
    }
    ghost var queued := store.pendingCommands[agentId];
    while store.pendingCommands[agentId] != []
      invariant agentId in store.pendingCommands
      invariant store.pendingCommands == old(store.pendingCommands)[agentId := store.pendingCommands[agentId]]
      invariant list + store.pendingCommands[agentId] == queued
      invariant store.Valid()
      decreases |store.pendingCommands[agentId]|
    {
      var q := store.pendingCommands[agentId];
      var cmd := q[0];
      store.pendingCommands := store.pendingCommands[agentId := q[1..]];
      assert forall i :: 0 <= i < |q[1..]| ==> q[1..][i] == q[i + 1];
      list := list + [cmd];
      assert list + q[1..] == queued by {
        assert [cmd] + q[1..] == q;
      }
    }
    assert list == queued;
  }

  /**
   * The result as it is stored: a blank status becomes "Completed", an
   * unset end time becomes now, an unset start time the end time, and a
   * non-positive duration is derived from the two, floored at zero.
   */
  function NormalizedResult(r: CommandResponse, now: int, toUtc: int -> int): (n: CommandResponse)
    ensures !IsBlank(n.status)
    ensures IsBlank(r.status) ==> n.status == Some(StatusCompleted)
    ensures !IsBlank(r.status) ==> n.status == r.status
    ensures r.endTime == DefaultTime ==> n.endTime == now
    ensures r.endTime != DefaultTime ==> n.endTime == toUtc(r.endTime)
    ensures r.startTime == DefaultTime ==> n.startTime == n.endTime
    ensures r.startTime != DefaultTime ==> n.startTime == toUtc(r.startTime)
    ensures n.executionTimeMs >= 0
    ensures r.executionTimeMs > 0 ==> n.executionTimeMs == r.executionTimeMs
    ensures r.executionTimeMs <= 0 && n.startTime <= n.endTime ==> n.executionTimeMs == n.endTime - n.startTime
    ensures r.executionTimeMs <= 0 && n.endTime < n.startTime ==> n.executionTimeMs == 0
    ensures n.(status := r.status, startTime := r.startTime, endTime := r.endTime, executionTimeMs := r.executionTimeMs) == r
  {
    var end := Normalized(r.endTime, now, toUtc);
    var start := if r.startTime == DefaultTime then end else toUtc(r.startTime);
    var status := if IsBlank(r.status) then Some(StatusCompleted) else r.status;
    assert !IsBlank(Some(StatusCompleted)) by { assert !IsWhiteSpace(StatusCompleted[0]); }
    r.(status := status, startTime := start, endTime := end,
       executionTimeMs := if r.executionTimeMs <= 0 then (if end - start > 0 then end - start else 0) else r.executionTimeMs)
  }

  /**
   * `SubmitResult`: rejects a null response or a blank command id or agent
   * id; otherwise normalises the response and stores it under its command
   * id, replacing whatever row was there.
   */
  method SubmitResult(store: Store, response: Option<CommandResponse>, now: int, toUtc: int -> int) returns (reply: SubmitReply)
    requires store.Valid()
    modifies store`commandResults
    ensures store.Valid()
    ensures response.None? || IsBlank(response.value.commandId) ==> reply == ResultBadRequest("commandId required")
    ensures response.Some? && !IsBlank(response.value.commandId) && IsBlank(response.value.agentId) ==> reply == ResultBadRequest("agentId required")
    ensures reply.ResultBadRequest? ==> store.commandResults == old(store.commandResults)
    ensures reply == ResultStored <==> response.Some? && !IsBlank(response.value.commandId) && !IsBlank(response.value.agentId)
    ensures reply == ResultStored ==>
      store.commandResults == old(store.commandResults)[response.value.commandId.value := NormalizedResult(response.value, now, toUtc)]
  {
    if response.None? || IsBlank(response.value.commandId) {
      return ResultBadRequest("commandId required");
    }
    var r := response.value;
    if IsBlank(r.agentId) {
      return ResultBadRequest("agentId required");
    }
    r := r.(status := if IsBlank(r.status) then Some(StatusCompleted) else r.status);
    var endTime := if r.endTime == DefaultTime then now else toUtc(r.endTime);
    var startTime := if r.startTime == DefaultTime then endTime else toUtc(r.startTime);
    r := r.(startTime := startTime, endTime := endTime);
    if r.executionTimeMs <= 0 {
      r := r.(executionTimeMs := if endTime - startTime > 0 then endTime - startTime else 0);
    }
    store.commandResults := store.commandResults[r.commandId.value := r];
    reply := ResultStored;
  }
}
