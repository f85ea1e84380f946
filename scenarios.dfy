/**
 * A controller and an agent talking to a fresh store, step by step, with
 * what the contracts of the controllers let a caller conclude after each
 * step. Each method starts from an empty store.
 */
module Scenarios {
  import opened Wrappers
  import opened Text
  import opened Dtos
  import opened InMemoryStore
  import opened CommandController
  import opened AdminController
  import opened NetworkPortController

  /** A command without an id gets the generated one; one poll delivers it, the next delivers nothing. */
  method SubmitThenPollTwice(now: int)
  {
    var utc := (t: int) => t;
    var guid := "3f2504e0-4f89-11d3-9a0c-0305e82c3301";
    assert IsGuidString(guid);
    var s := new Store();
    assert !IsBlank(Some("A1")) by { assert !IsWhiteSpace("A1"[0]); }
    var request := NewCommandRequest(None, Some("A1")).(commandType := 3);
    var queued := Queue(s, Some(request), guid, now, utc);
    assert queued == Queued(guid);
    assert GetById(s, guid) == Found(PendingPlaceholder(guid, "A1", now));

    var first := GetPending(s, "A1");
    assert |first| == 1 && first[0].commandId == Some(guid) && first[0].commandType == 3;
    var second := GetPending(s, "A1");
    assert second == [];
    // Draining the queue does not touch the result table.
    assert GetById(s, guid) == Found(PendingPlaceholder(guid, "A1", now));
  }

  /** The queue scan of a status query ignores case; the result-table lookup does not. */
  method CaseInsensitivePending(now: int, guid: string)
    requires IsGuidString(guid)
  {
    var utc := (t: int) => t;
    var s := new Store();
    assert !IsBlank(Some("A1")) by { assert !IsWhiteSpace("A1"[0]); }
    assert !IsBlank(Some("cmd-1")) by { assert !IsWhiteSpace("cmd-1"[0]); }
    var c := NewCommandRequest(Some("cmd-1"), Some("A1"));
    var normalized := NormalizedCommand(c, guid, now, utc);
    assert normalized == c.(timestamp := now);
    var queued := Queue(s, Some(c), guid, now, utc);
    assert queued == Queued("cmd-1");
    assert s.pendingCommands == Enqueue(map[], "A1", normalized);
    assert Enqueue(map[], "A1", normalized) == map["A1" := [normalized]] by {
      assert QueueOf(map[], "A1") + [normalized] == [normalized];
    }
    assert s.pendingCommands == map["A1" := [c.(timestamp := now)]];
    assert GetById(s, "cmd-1").Found?;
    EqualsIgnoreCaseCharwise("cmd-1", "CMD-1");
    assert QueuedAnywhere(s.pendingCommands, "CMD-1") by {
      assert s.pendingCommands["A1"][0].commandId == Some("cmd-1");
    }
    assert GetById(s, "CMD-1") == StillPending("CMD-1");
  }

  /** Once drained, a command is reachable only through its exact id; other spellings are not found. */
  method DrainedCommandByOtherCase(now: int, guid: string)
    requires IsGuidString(guid)
  {
    var utc := (t: int) => t;
    var s := new Store();
    assert !IsBlank(Some("A1")) by { assert !IsWhiteSpace("A1"[0]); }
    assert !IsBlank(Some("cmd-1")) by { assert !IsWhiteSpace("cmd-1"[0]); }
    var queued := Queue(s, Some(NewCommandRequest(Some("cmd-1"), Some("A1"))), guid, now, utc);
    var drained := GetPending(s, "A1");
    assert s.pendingCommands == map["A1" := []];
    assert s.commandResults.Keys == {"cmd-1"};
    assert GetById(s, "cmd-1").Found?;
    assert !QueuedAnywhere(s.pendingCommands, "CMD-1") by {
      assert forall k :: k in s.pendingCommands ==> s.pendingCommands[k] == [];
    }
    assert GetById(s, "CMD-1") == NotFound;
  }

  /** A reported result replaces the placeholder and is what a status query returns. */
  method ReportResult(now: int, guid: string)
    requires IsGuidString(guid)
  {
    var utc := (t: int) => t;
    var s := new Store();
    assert !IsBlank(Some("A1")) by { assert !IsWhiteSpace("A1"[0]); }
    assert !IsBlank(Some("c7")) by { assert !IsWhiteSpace("c7"[0]); }
    var queued := Execute(s, Some(NewCommandRequest(Some("c7"), Some("A1"))), guid, now, utc);
    var result := NewCommandResponse(Some("c7"), Some("A1"), Some("ok"), Some(""), now, now);
    var stored := SubmitResult(s, Some(result), now, utc);
    assert stored == ResultStored;
    assert GetById(s, "c7").Found?;
    assert GetById(s, "c7").result.status == Some("Completed");
    assert GetById(s, "c7").result.output == Some("ok");
    assert GetById(s, "c7").result.executionTimeMs == 0;
  }

  /** An identity reported with a MAC is found again by that MAC. */
  method FindByReportedMac(env: HostEnvironment, now: int)
  {
    var s := new Store();
    var mac := "AA:BB:CC:DD:EE:FF";
    s.UpdateIdentityFields("A1", IdentityFields(Some("HOST1"), None, Some(mac), None, None), env, now);
    assert s.agents.Keys == {"A1"};
    assert !IsBlank(Some(mac)) by { assert !IsWhiteSpace(mac[0]); }
    var byMac := s.FindAgentIdByMac(Some(mac), None);
    assert MacMatches(s.agents["A1"], mac, None);
    assert byMac == Some("A1");
  }

  /** With a five-minute window, a heartbeat ten minutes old is offline and one a minute old is online. */
  method OnlineWindow(env: HostEnvironment, now: int)
    requires 10 * MillisPerMinute <= now <= MaxTime
  {
    var s := new Store();
    var none := IdentityFields(None, None, None, None, None);
    s.UpdateIdentityFields("B1", none, env, now - 10 * MillisPerMinute);
    s.UpdateIdentityFields("B2", none, env, now - MillisPerMinute);
    var online := GetAllAgents(s, true, 5, now);
    assert online.Listed?;
    assert s.agents["B1"] !in online.agents;
    assert s.agents["B2"] in online.agents;
    var all := GetAllAgents(s, false, 5, now);
    assert s.agents["B1"] in all.agents;
  }

  /** Two commands for one agent come back in the order they were queued. */
  method Fifo(now: int, c1: CommandRequest, c2: CommandRequest, g1: string, g2: string)
    requires IsGuidString(g1) && IsGuidString(g2)
    requires c1.targetAgentId == Some("A1") && c2.targetAgentId == Some("A1")
  {
    var utc := (t: int) => t;
    var s := new Store();
    assert !IsBlank(Some("A1")) by { assert !IsWhiteSpace("A1"[0]); }
    var r1 := Execute(s, Some(c1), g1, now, utc);
    var r2 := Execute(s, Some(c2), g2, now, utc);
    var drained := GetPending(s, "A1");
    assert drained == [NormalizedCommand(c1, g1, now, utc), NormalizedCommand(c2, g2, now, utc)];
  }

  /** A posted snapshot is what both readers return, and the post refreshes the heartbeat. */
  method PortSnapshot(env: HostEnvironment, now: int)
  {
    var s := new Store();
    assert !IsBlank(Some("A1")) by { assert !IsWhiteSpace("A1"[0]); }
    var conns := [Conn("{\"port\":443}")];
    var posted := Submit(s, Some(NetworkPortData(Some("A1"), Some(conns))), env, now);
    assert posted == PortsStored;
    assert Get(s, "A1") == conns && GetLatest(s, "A1") == conns;
    assert s.agents["A1"].lastHeartbeat == Some(now);
    assert Get(s, "A2") == [];
    var rejected := Submit(s, Some(NetworkPortData(None, None)), env, now);
    assert rejected.PortsBadRequest?;
  }
}
