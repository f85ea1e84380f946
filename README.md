# Agent registry and command dispatch, modelled in Dafny

This project models the in-memory core of AdminServerStub, a server that sits
between an operator and a fleet of remote agents. Agents register their
identity and heartbeat. The operator queues commands for an agent. The agent
drains its queue when it polls, and later posts each command's result, which
the operator can look up by command id.

The state is one `InMemoryStore.Store` object with five maps:
- the agent registry (`agents`);
- the per-agent FIFO command queues (`pendingCommands`);
- the command results (`commandResults`);
- the latest metrics (`latestMetrics`);
- the network-port snapshots (`networkPorts`).

Each HTTP action is one atomic method or function over that object. The
object invariant `Store.Valid()` says three things, and every mutating action
preserves it:
- a registry record carries its own key as its id;
- a result row carries its own key as its command id;
- every queued command sits in its target's queue, has a non-blank id, and
  has a result row.

Modules follow the source files:
- `Dtos`: the records and their defaults.
- `InMemoryStore`: the store, the identity upsert and the two scans.
- `CommandController`: queueing, polling, status look-up and result submission.
- `AdminController`: agent listing and look-ups.
- `NetworkPortController`: snapshot submit and read.
- `Text`: `char.IsWhiteSpace`, `string.IsNullOrWhiteSpace`, ASCII `OrdinalIgnoreCase` and the GUID text form.
- `Wrappers`: `Option`, the stand-in for `null`.
- `Scenarios`: client methods that drive a fresh store through the dispatch lifecycle and assert what the contracts guarantee.

Conventions:
- Time is an integer count of milliseconds since `DateTime.MinValue`, so `default(DateTime)` is `Dtos.DefaultTime` (0).
- `DateTime.UtcNow` is the parameter `now`.
- `ToUniversalTime` is the parameter `toUtc`.
- `Guid.NewGuid().ToString()` is the parameter `freshId`, required to have the GUID "D" text form.
- `Environment.MachineName` and `Environment.OSVersion` are the parameter `env`.
- A string a JSON payload may carry as null is an `Option<string>`.

Behaviour of the code worth knowing, stated against the source:
- The comment at AdminServerStub/Controllers/CommandController.cs:118
  suggests that a queued command reports the 202 `"Pending"` answer. In fact
  the placeholder row written at CommandController.cs:56-80 is looked up
  first (:112), so a query by the exact id of a queued command returns that
  row (200, status `"Pending"`, `CommandController.QueuedCommandIsFound`).
  The queue scan at :119 compares ids ignoring case, but the result-table
  lookup before it is ordinal. In a well-formed store, the 202 answer
  therefore comes only from a query that differs in case from a queued id
  (`CommandController.StillPendingOnlyByCase`).
- On creation, only a null identity field falls back to a default
  (`??`, InMemoryStore.cs:65-68). An empty or white-space string is stored as
  given. On update, blank never overwrites (:74-78).
- With `onlineOnly`, `minutes = int.MinValue` makes `Math.Abs` throw
  (AdminController.cs:20), and a window that reaches back before
  `DateTime.MinValue` makes `AddMinutes` throw. Both are modelled as
  `ListFailed`, the HTTP 500 outcome.
- `QueueInternal` fills a missing command id (CommandController.cs:42-43)
  before it checks the target (:45-49). The id is written only into the
  rejected request object, so no stored state changes.

## Model

| member | source | states |
|---|---|---|
| `Text.FoldChar` | AdminServerStub/Infrastructure/InMemoryStore.cs:32 | ASCII lower-case letters map to their upper-case letters; every other character is unchanged |
| `Text.Fold` | AdminServerStub/Infrastructure/InMemoryStore.cs:32 | the folded string has the same length and is the character-wise fold of the input |
| `Text.EqualsIgnoreCaseCharwise` | AdminServerStub/Controllers/CommandController.cs:119 | two strings are equal ignoring case iff they have the same length and agree at every position after folding |
| `Text.FoldCharAlike` | AdminServerStub/Infrastructure/InMemoryStore.cs:32 | two characters compare equal ignoring case exactly when they are equal or are the same ASCII letter in upper and lower case |
| `Text.EqualsIgnoreCaseIsEquivalence` | AdminServerStub/Infrastructure/InMemoryStore.cs:32 | case-insensitive equality is reflexive, symmetric and transitive |
| `Text.GuidIsNotBlank` | AdminServerStub/Controllers/CommandController.cs:42-43 | a generated GUID string is never null or white space |
| `Dtos.AgentIdentityDefaults` | AdminServerStub/Models/Dtos.cs:7-16 | a new identity has IP "127.0.0.1", MAC "00:00:00:00:00:00", the host's name and OS, a heartbeat at creation time and no location |
| `Dtos.CommandRequestDefaults` | AdminServerStub/Models/Dtos.cs:38-48 | a new request carries its two required members; parameters default to the empty map, the timestamp to `default(DateTime)` and the other fields to zero/false |
| `Dtos.CommandResponseDefaults` | AdminServerStub/Models/Dtos.cs:50-61 | a new response carries its four required members, status "Completed", exit code 0, zero duration, and start and end times from the two separate clock readings of their initialisers |
| `InMemoryStore.Store.constructor` | AdminServerStub/Infrastructure/InMemoryStore.cs:10-16 | the stores start empty and well formed |
| `InMemoryStore.Store.GetOrAddAgent` | AdminServerStub/Infrastructure/InMemoryStore.cs:18-21 | an existing record is returned untouched and the registry is unchanged; otherwise a default record with the key as id and heartbeat `now` is inserted and returned |
| `InMemoryStore.Store.FindAgentIdByMac` | AdminServerStub/Infrastructure/InMemoryStore.cs:26-39 | a blank MAC gives null; a returned key's record matches the MAC ignoring case, and also the machine name when one is given; null only if no record matches |
| `InMemoryStore.Store.FindAgentIdByMachine` | AdminServerStub/Infrastructure/InMemoryStore.cs:44-54 | a blank name gives null; a returned key's record has that machine name ignoring case; null only if none has |
| `InMemoryStore.Store.UpdateIdentityFields` | AdminServerStub/Infrastructure/InMemoryStore.cs:59-82 | the registry becomes the old one with only this agent's entry replaced by the merge (existing) or the created record (absent); the well-formedness invariant is kept |
| `InMemoryStore.Store.CreateOrUpdateAgent` | AdminServerStub/Infrastructure/InMemoryStore.cs:85-110 | the same state change as `UpdateIdentityFields`, and the returned record is the one now stored |
| `InMemoryStore.DistinctKeysHoldDistinctRecords` | AdminServerStub/Infrastructure/InMemoryStore.cs:18-21 | since every record carries its own key as id, two keys never hold equal records |
| `InMemoryStore.UpsertedFrame` | AdminServerStub/Infrastructure/InMemoryStore.cs:61-81 | the upsert leaves every other agent's record, and whether it exists, unchanged |
| `InMemoryStore.MergedFields` | AdminServerStub/Infrastructure/InMemoryStore.cs:72-81 | on update, each non-blank incoming field overwrites, each blank one leaves the stored value, the id is kept and the heartbeat becomes now |
| `InMemoryStore.CreatedFields` | AdminServerStub/Infrastructure/InMemoryStore.cs:62-71 | on creation, each null field takes its default (host name, "127.0.0.1", "00:00:00:00:00:00", host OS), other values are stored as given, location as given, heartbeat now |
| `InMemoryStore.EmptyStringCreatesButNeverOverwrites` | AdminServerStub/Infrastructure/InMemoryStore.cs:66-78 | empty strings are stored by creation (`??`) but an update with only empty strings changes nothing but the heartbeat |
| `InMemoryStore.LaterBlankFieldsKeepEarlier` | AdminServerStub/Infrastructure/InMemoryStore.cs:72-81 | a second upsert that leaves fields blank keeps what the first stored for them, and the heartbeat strictly increases with the clock |
| `InMemoryStore.UpsertedIdempotent` | AdminServerStub/Infrastructure/InMemoryStore.cs:61-81 | repeating the same upsert at the same time leaves the registry as the first one left it |
| `InMemoryStore.UpsertedMacIsFindable` | AdminServerStub/Infrastructure/InMemoryStore.cs:76 | after an upsert reporting a non-blank MAC (and machine name), the agent's record matches a MAC lookup with them |
| `CommandController.NormalizedCommand` | AdminServerStub/Controllers/CommandController.cs:42-51 | the queued command has a non-blank id: the given one when non-blank, the generated one otherwise; a default timestamp becomes now and a set one becomes `toUtc` of it; no other field changes |
| `CommandController.EnqueueAppends` | AdminServerStub/Controllers/CommandController.cs:53-54 | enqueueing appends to the tail of the target's queue, creating it when absent, and leaves every other queue unchanged |
| `CommandController.EnqueueKeepsWellFormed` | AdminServerStub/Controllers/CommandController.cs:53-80 | queueing a command together with its result row keeps every queued command in its own target's queue with a result row |
| `CommandController.EnqueueAllIsFifo` | AdminServerStub/Controllers/CommandController.cs:53-54 | commands enqueued one after another stand at the tail of the queue in enqueue order |
| `CommandController.EnqueueAllIsolated` | AdminServerStub/Controllers/CommandController.cs:53-54 | commands for one agent never change another agent's queue |
| `CommandController.QueueHolds` | AdminServerStub/Controllers/CommandController.cs:119 | true iff some command in the queue has an id equal to the query ignoring case |
| `CommandController.GetById` | AdminServerStub/Controllers/CommandController.cs:110-124 | a stored row is returned when present; otherwise "Pending" iff some queue holds the id ignoring case, else not found |
| `CommandController.StillPendingOnlyByCase` | AdminServerStub/Controllers/CommandController.cs:112-121 | in a well-formed store the "Pending" answer comes only from a queued id that differs from the query but equals it ignoring case |
| `CommandController.QueuedCommandIsFound` | AdminServerStub/Controllers/CommandController.cs:112-116 | a status query by the exact id of a queued command returns that command's result row |
| `CommandController.QueueInternal` | AdminServerStub/Controllers/CommandController.cs:34-88 | a null payload or blank target is rejected with no state change; otherwise the normalised command is appended to its target's queue, the "Pending" placeholder replaces any row for its id, and the reply carries that id |
| `CommandController.Execute` | AdminServerStub/Controllers/CommandController.cs:22-26 | the same outcome as `QueueInternal`: rejected iff the payload is null or the target blank, and on success the queue and placeholder updates |
| `CommandController.Queue` | AdminServerStub/Controllers/CommandController.cs:28-32 | the same outcome as `QueueInternal` |
| `CommandController.GetPending` | AdminServerStub/Controllers/CommandController.cs:91-107 | returns exactly the queued commands in FIFO order and leaves the agent's queue present and empty; an agent with no queue gets an empty list and nothing changes |
| `CommandController.NormalizedResult` | AdminServerStub/Controllers/CommandController.cs:141-149 | status never blank (blank becomes "Completed"); unset end becomes now and unset start becomes end, set ones become `toUtc` of themselves; duration never negative, kept when positive, else end minus start floored at zero; nothing else changes |
| `CommandController.SubmitResult` | AdminServerStub/Controllers/CommandController.cs:127-156 | a null response or blank command id, then a blank agent id, are rejected with no change; otherwise the normalised response replaces the row for its command id |
| `AdminController.GetAllAgents` | AdminServerStub/Controllers/AdminController.cs:15-24 | on a well-formed store: without the filter every stored agent; with it, exactly the agents whose heartbeat is present and not before now minus the absolute value of `minutes` in minutes, or the exception when the cutoff cannot be computed |
| `AdminController.MinutesSignIrrelevant` | AdminServerStub/Controllers/AdminController.cs:20 | `minutes` and `-minutes` give the same listing |
| `AdminController.WiderWindowListsMore` | AdminServerStub/Controllers/AdminController.cs:20-21 | a window at least as wide lists a superset of the agents |
| `AdminController.GetAgent` | AdminServerStub/Controllers/AdminController.cs:27-32 | the stored record iff the id is present, else not found |
| `AdminController.GetAgentMetrics` | AdminServerStub/Controllers/AdminController.cs:35-41 | the stored metrics iff present, else an empty (non-error) answer |
| `NetworkPortController.Submit` | AdminServerStub/Controllers/NetworkPortController.cs:14-22 | null data or blank agent id is rejected with ports and registry unchanged; otherwise the agent's entry becomes the posted list (empty for null), and the agent's record exists (created by `GetOrAddAgent` if absent) with heartbeat now |
| `NetworkPortController.Get` | AdminServerStub/Controllers/NetworkPortController.cs:25-30 | the stored list, or an empty list when absent |
| `NetworkPortController.GetLatest` | AdminServerStub/Controllers/NetworkPortController.cs:33-38 | the same answer as `Get` |

## Left out

- AdminServerStub/Program.cs: hosting, JSON options, CORS, Swagger, the SignalR hub and the listen port are transport plumbing.
- Concurrency: each action is one atomic step. The linearizability of `ConcurrentDictionary` and `ConcurrentQueue` operations is not modelled, nor is a race between enqueue and drain.
- Aliasing: records are values. In the source, `GetAgent` hands out a reference that a later heartbeat updates in place, and the placeholder update mutates an existing result object. The model has the same stored state but no shared references.
- `AdminController.GetAllAgents`: returns a set rather than a list, because the snapshot order of the registry is unspecified. It requires `Store.Valid()`, which every store the operations build satisfies. Under it, distinct keys hold distinct records (`InMemoryStore.DistinctKeysHoldDistinctRecords`), so the set has one element per listed agent.
- `InMemoryStore.Store.FindAgentIdByMac`: promises some matching key, not the first in the registry's enumeration order, which is unspecified. The same holds for `InMemoryStore.Store.FindAgentIdByMachine`.
- `Text.Fold`: case folding covers ASCII letters only; `OrdinalIgnoreCase` also upper-cases other Unicode letters.
- `ToUniversalTime` is an uninterpreted parameter. `DateTimeKind` and the host's time zone are not modelled.
- `DateTime` values are whole milliseconds. `TotalMilliseconds` is not a `double` here, so the truncating `(long)` cast is exact.
- Default parameter values are not modelled; callers pass every argument. These are the query defaults `onlineOnly = false` and `minutes = 5` of `GetAllAgents` (AdminController.cs:15), `machineName = null` of `FindAgentIdByMac` (InMemoryStore.cs:26), and `location = null` of `UpdateIdentityFields` and `CreateOrUpdateAgent` (InMemoryStore.cs:59, 85). Omitting an argument in the source is the same as passing `false`, `5` or `None` here.
- `NetworkPortController.Submit`: the clock read inside `GetOrAddAgent` and the one for the heartbeat are taken as the same `now`.
- JSON deserialisation is not modelled. An omitted `StartTime` or `EndTime` gets its initialiser's `UtcNow`, so the default-time branches run only when a payload carries `DateTime.MinValue` explicitly.
- A null agent id or command id as a dictionary key throws `ArgumentNullException`; route and method arguments are non-null strings here.
- Logging, including the `IsNullOrWhiteSpace` test on the integer `CommandType` at CommandController.cs:84, which only shapes a log message.
- Floating-point metrics. CPU, memory and disk usage and `ProcessInfo` are dropped from `SystemMetrics`. The constant aggregate, average and trend endpoints (AdminController.cs:43-59) return only constant `0.0` stubs.
- `EnhancedData`, `InstalledSoftware` and the installed-software records: nothing in the modelled files writes them. The same goes for `LatestMetrics`, which the model only reads.
- `Priority`, `TimeoutSeconds` and `RequireConfirmation` are carried through but never read, so queues are FIFO only.
- 64-bit `ExecutionTimeMs` and 32-bit `ExitCode`/`CommandType` are unbounded integers; millisecond differences between valid `DateTime` values fit in 64 bits.
