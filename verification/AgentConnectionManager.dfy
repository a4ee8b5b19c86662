/**
 The manager itself: tables updated in place, each method tied to the step it takes on the value
 of the object. The log records the callers inside a request and the past, and is not stored.
 */
module AgentConnectionManager {
  import opened Wrappers
  import opened Json
  import opened ConnectionState

  class Connections {
    var conns: map<AgentId, Socket>
    var profiles: map<AgentId, Profile>
    var reported: map<AgentId, int>
    var reserved: map<Slot, int>
    var sessions: map<Socket, Session>
    var waiters: set<Key>
    var owners: map<Key, Socket>
    var expectations: map<Key, Request>
    var progress: map<Key, Usage>
    var futures: map<Key, Future>
    ghost var log: History

    ghost function Value(): Manager
      reads this
    {
      Manager(conns, profiles, reported, reserved, sessions, waiters, owners, expectations, progress, futures, log)
    }

    /** Every lookup made without a default finds its key. `Invariant` of the value implies it. */
    ghost predicate Valid()
      reads this
    {
      profiles.Keys == conns.Keys == reported.Keys && waiters <= futures.Keys
    }

    constructor ()
      ensures Valid() && Value() == EMPTY
    {
      conns, profiles, reported, reserved, sessions := map[], map[], map[], map[], map[];
      waiters, owners, expectations, progress, futures := {}, map[], map[], map[], map[];
      log := EMPTY.log;
    }

    method FailRequest(k: Key, reason: string)
      requires waiters <= futures.Keys
      modifies `owners, `waiters, `expectations, `progress, `futures
      ensures owners == old(owners) - {k} && waiters == old(waiters) - {k}
      ensures expectations == old(expectations) - {k} && progress == old(progress) - {k}
      ensures futures == if k in old(waiters) then old(futures)[k := Settle(old(futures)[k],
        ConnectionLost(reason))] else old(futures)
    {
      if k in waiters && futures[k].Pending? {
        futures := futures[k := Done(ConnectionLost(reason))];
      }
      owners := owners - {k};
      waiters := waiters - {k};
      expectations := expectations - {k};
      progress := progress - {k};
    }

    method FailSocketRequests(agent: AgentId, socket: Socket, reason: string)
      requires Valid()
      modifies `owners, `waiters, `expectations, `progress, `futures, `reserved
      ensures Valid() && Value() == ConnectionState.FailSocketRequests(old(Value()), agent, socket, reason)
    {
      hide FailRequests;
      ghost var before := Value();
      var todo := set k | k in owners && k.agent == agent && owners[k] == socket;
      ghost var failed: set<Key> := {};
      FailNone(before, reason);
      while todo != {}
        invariant todo !! failed && todo + failed == OwnedBy(before, agent, socket)
        invariant waiters <= futures.Keys && reserved == old(reserved)
        invariant Value() == FailRequests(before, failed, reason)
        decreases todo
      {
        hide OwnedBy;
        var k :| k in todo;
        FailOneMore(before, failed, k, reason);
        FailRequest(k, reason);
        todo := todo - {k};
        failed := failed + {k};
      }
      assert failed == OwnedBy(before, agent, socket);
      reserved := reserved - {Slot(agent, socket)};
    }

    method LoseSocket(agent: AgentId, socket: Socket, reason: string)
      requires Valid()
      modifies `owners, `waiters, `expectations, `progress, `futures, `reserved, `sessions
      ensures Valid() && Value() == ConnectionState.LoseSocket(old(Value()), agent, socket, reason)
    {
      hide ConnectionState.FailSocketRequests;
      FailSocketRequests(agent, socket, reason);
      sessions := sessions - {socket};
    }

    method Connect(agent: AgentId, socket: Socket)
      requires Valid()
      modifies this
      ensures Valid() && Value() == ConnectionState.Connect(old(Value()), agent, socket)
    {
      hide ConnectionState.LoseSocket, ConnectionState.StartLegacy;
      var replaced := if agent in conns then conns[agent] else socket;
      conns, log := conns[agent := socket], log.(usedSockets := log.usedSockets + {socket});
      if replaced != socket {
        LoseSocket(agent, replaced, "agent connection replaced");
      }
      StartLegacy(agent);
    }

    method StartLegacy(agent: AgentId)
      requires agent in conns && profiles.Keys + {agent} == conns.Keys == reported.Keys + {agent} && waiters <= futures.Keys
      modifies `profiles, `reported
      ensures Valid() && Value() == ConnectionState.StartLegacy(old(Value()), agent)
    {
      profiles, reported := profiles[agent := LEGACY_AGENT_PROFILE], reported[agent := 0];
    }

    method Forget(agent: AgentId)
      requires Valid()
      modifies `conns, `profiles, `reported
      ensures Valid() && Value() == ConnectionState.Forget(old(Value()), agent)
    {
      conns, profiles, reported := conns - {agent}, profiles - {agent}, reported - {agent};
    }

    method Disconnect(agent: AgentId, socket: Socket)
      requires Valid()
      modifies this
      ensures Valid() && Value() == ConnectionState.Disconnect(old(Value()), agent, socket)
    {
      hide ConnectionState.LoseSocket, ConnectionState.Forget;
      if Get(conns, agent) == Some(socket) {
        LoseSocket(agent, socket, "agent disconnected");
        Forget(agent);
      }
    }

    method Close(agent: AgentId)
      requires Valid()
      modifies this
      ensures Valid() && Value() == ConnectionState.Close(old(Value()), agent)
    {
      hide ConnectionState.LoseSocket, ConnectionState.Forget;
      var socket := Get(conns, agent);
      Forget(agent);
      reserved := reserved - (set s | s in reserved && s.agent == agent);
      if socket.Some? {
        LoseSocket(agent, socket.value, "agent connection closed");
      }
    }

    method CancelWaiting()
      requires waiters <= futures.Keys
      modifies `futures
      ensures futures == CancelAll(old(futures), waiters)
    {
      var todo := waiters;
      while todo != {}
        invariant todo <= waiters
        invariant futures == CancelAll(old(futures), waiters - todo)
        decreases todo
      {
        var k :| k in todo;
        todo := todo - {k};
        if futures[k].Pending? {
          futures := futures[k := Done(Cancelled)];
        }
      }
    }

    method ForgetConnections()
      modifies `conns, `profiles, `reported, `reserved, `sessions
      ensures conns == map[] && profiles == map[] && reported == map[] && reserved == map[] && sessions == map[]
    {
      conns, profiles, reported, reserved, sessions := map[], map[], map[], map[], map[];
    }

    method Reset()
      requires Valid()
      modifies this
      ensures Valid() && Value() == ConnectionState.Reset(old(Value()))
    {
      hide CancelAll, ConnectionState.Reset;
      ResetIs(Value());
      ForgetConnections();
      CancelWaiting();
      waiters, owners, expectations, progress := {}, map[], map[], map[];
    }

    method NegotiateCapabilities(agent: AgentId, socket: Socket, hello: seq<Member>,
        session: string) returns (r: Result<Profile, Error>)
      requires Valid()
      modifies this
      ensures Valid() && Value() == Next(old(Value()), Negotiate(old(Value()), agent, socket, hello, session))
      ensures r.Ok? <==> HelloError(old(Value()), agent, socket, hello).None?
      ensures r.Ok? ==> agent in profiles && profiles[agent] == r.value
      ensures r.Err? ==> HelloError(old(Value()), agent, socket, hello) == Some(r.error)
    {
      hide HelloError;
      var error := HelloRefusal(agent, socket, hello);
      if error.Some? { return Err(error.value); }
      AcceptedHello(Value(), agent, socket, hello);
      var active := Get(reported, agent).GetOr(0) + Get(reserved, Slot(agent, conns[agent])).GetOr(0);
      var profile := Profile(Lookup(hello, "protocol_version"), Strip(Lookup(hello, "agent_version").s),
                             CapabilitySet(Lookup(hello, "capabilities")), Lookup(hello, "max_concurrency").n,
                             if active < 0 then 0 else active, false);
      profiles := profiles[agent := profile];
      sessions := sessions[socket := Session(session, 0)];
      log := log.(usedSessions := log.usedSessions + {session}, greeted := log.greeted + [socket]);
      return Ok(profile);
    }

    /** The checks of a hello, in their order. */
    method HelloRefusal(agent: AgentId, socket: Socket, hello: seq<Member>) returns (r: Option<Error>)
      requires Valid()
      ensures r == HelloError(Value(), agent, socket, hello)
    {
      if Get(conns, agent) != Some(socket) { return Some(NotActiveSocket); }
      if socket in sessions { return Some(AlreadyNegotiated); }
      var version, capabilities, concurrency :=
        Lookup(hello, "agent_version"), Lookup(hello, "capabilities"), Lookup(hello, "max_concurrency");
      if !EqualsOne(Lookup(hello, "protocol_version")) { return Some(UnsupportedProtocol); }
      if !version.Str? || IsBlank(version.s) || |version.s| > 128 { return Some(InvalidAgentVersion); }
      if !capabilities.Array? || exists i :: 0 <= i < |capabilities.items| && !capabilities.items[i].Str? {
        return Some(InvalidCapabilities);
      }
      if !(CapabilitySet(capabilities) <= AGENT_CAPABILITIES) { return Some(UnsupportedCapability); }
      if !concurrency.Int? || !(1 <= concurrency.n <= 64) { return Some(InvalidMaxConcurrency); }
      var active := Get(reported, agent).GetOr(0) + Get(reserved, Slot(agent, conns[agent])).GetOr(0);
      return if active > concurrency.n then Some(BelowActiveRuns) else None;
    }

    method ValidateFrameSequence(agent: AgentId, socket: Socket, frame: seq<Member>) returns (accepted: bool)
      requires Valid()
      modifies this
      ensures Valid() && Value() == ReceiveFrame(old(Value()), agent, socket, frame)
      ensures accepted == AcceptsFrame(old(Value()), agent, socket, frame)
    {
      if Get(conns, agent) != Some(socket) { return false; }
      if agent !in profiles || profiles[agent].legacy { return true; }
      var session, number := Lookup(frame, "session_id"), Lookup(frame, "seq");
      if socket !in sessions || session != Str(sessions[socket].id) || !number.Int? || number.n <= sessions[socket].last {
        return false;
      }
      log := log.(accepted := log.accepted + [Accepted(agent, socket, sessions[socket].id, number.n)]);
      sessions := sessions[socket := Session(sessions[socket].id, number.n)];
      return true;
    }

    method UpdateActivity(agent: AgentId, socket: Socket, active: Json.Value) returns (r: Result<Profile, Error>)
      requires Valid()
      modifies this
      ensures Valid() && Value() == Next(old(Value()), ConnectionState.UpdateActivity(old(Value()), agent, socket, active))
      ensures r.Ok? <==> ActivityError(old(Value()), agent, socket, active).None?
      ensures r.Err? ==> ActivityError(old(Value()), agent, socket, active) == Some(r.error)
      ensures r.Ok? ==> agent in profiles && profiles[agent] == r.value
    {
      if Get(conns, agent) != Some(socket) { return Err(NotActiveSocket); }
      var profile := profiles[agent];
      if !active.Int? || !(0 <= active.n <= profile.maxConcurrency) { return Err(InvalidActiveRuns); }
      var total := active.n + Get(reserved, Slot(agent, conns[agent])).GetOr(0);
      if total > profile.maxConcurrency { return Err(ExceedsCapacity); }
      reported := reported[agent := active.n];
      profiles := profiles[agent := profile.(activeRuns := total)];
      return Ok(profiles[agent]);
    }

    method RefreshProfile(agent: AgentId)
      requires agent in profiles
      modifies this`profiles
      ensures Value() == Refresh(old(Value()), agent)
    {
      var slots := if agent in conns then Get(reserved, Slot(agent, conns[agent])).GetOr(0) else 0;
      profiles := profiles[agent := profiles[agent].(activeRuns := Get(reported, agent).GetOr(0) + slots)];
    }

    method ReserveSlot(agent: AgentId) returns (r: Result<Socket, Error>)
      requires Valid()
      modifies `reserved, `profiles
      ensures Valid() && Value() == Next(old(Value()), ConnectionState.ReserveSlot(old(Value()), agent))
      ensures r.Ok? <==> ConnectionState.ReserveSlot(old(Value()), agent).Ok?
      ensures r.Ok? ==> agent in conns && r.value == conns[agent]
      ensures r.Err? ==> r.error == Busy && ConnectionState.ReserveSlot(old(Value()), agent) == Err(Busy)
    {
      if agent !in profiles || profiles[agent].activeRuns >= profiles[agent].maxConcurrency { return Err(Busy); }
      var slot := Slot(agent, conns[agent]);
      reserved := reserved[slot := Get(reserved, slot).GetOr(0) + 1];
      RefreshProfile(agent);
      return Ok(conns[agent]);
    }

    method ReleaseSlot(agent: AgentId, socket: Socket)
      requires Valid()
      modifies `reserved, `profiles
      ensures Valid() && Value() == ConnectionState.ReleaseSlot(old(Value()), agent, socket)
    {
      var slot := Slot(agent, socket);
      var left := Get(reserved, slot).GetOr(0) - 1;
      reserved := if left > 0 then reserved[slot := left] else reserved - {slot};
      if Get(conns, agent) == Some(socket) {
        RefreshProfile(agent);
      }
    }

    method Register(key: Key, request: Request, socket: Socket)
      requires Valid()
      modifies `waiters, `owners, `expectations, `progress, `futures, `log
      ensures Valid() && Value() == ConnectionState.Register(old(Value()), key, request, socket)
    {
      waiters, owners, futures := waiters + {key}, owners[key := socket], futures[key := Pending];
      if !request.ChatRequest? {
        expectations := expectations[key := request];
      } else if request.tracksProgress {
        progress := progress[key := Usage(0, 0)];
      }
      log := log.(live := log.live[key := socket], requests := log.requests[key := request]);
    }

    /** `send_and_wait`, `send_coding_run` and `send_workspace_action` up to their first await. */
    method BeginRequest(key: Key, request: Request) returns (r: Result<Socket, Error>)
      requires Valid()
      modifies this
      ensures Valid() && Value() == Next(old(Value()), Begin(old(Value()), key, request))
      ensures r.Ok? <==> Begin(old(Value()), key, request).Ok?
      ensures r.Err? ==> Begin(old(Value()), key, request) == Err(r.error)
      ensures r.Ok? ==> key.agent in conns && r.value == conns[key.agent]
    {
      hide RequestError, ConnectionState.ReserveSlot, ConnectionState.Register;
      var error := RequestRefusal(key.agent, request);
      if error.Some? { return Err(error.value); }
      r := ReserveSlot(key.agent);
      if r.Err? { return; }
      Register(key, request, r.value);
    }

    method RequestRefusal(agent: AgentId, request: Request) returns (r: Option<Error>)
      ensures r == RequestError(Value(), agent, request)
    {
      if request.ChatRequest? { return if agent in conns then None else Some(NotConnected); }
      if agent !in profiles || "coding_workspace" !in profiles[agent].capabilities { return Some(Unsupported); }
      if !SafeCodingId(request.repository) { return Some(UnsafeRepository); }
      if !SafeCodingId(request.run) { return Some(UnsafeRun); }
      if request.CodingRequest? {
        return if IsBlank(request.instruction) || |request.instruction| > 65_536 then Some(InvalidInstruction) else None;
      }
      if !SafeBranch(request.branch) { return Some(InvalidBranch); }
      return if request.action !in {"cleanup", "discard", "retain"} then Some(InvalidAction) else None;
    }

    /** The `finally` block of a request method; `socket` is the one its slot was reserved on. */
    method FinishRequest(key: Key, socket: Socket)
      requires Valid()
      modifies this
      ensures Valid() && Value() == Return(old(Value()), key, socket)
    {
      hide ConnectionState.ReleaseSlot;
      waiters, owners := waiters - {key}, owners - {key};
      expectations, progress := expectations - {key}, progress - {key};
      log := log.(live := log.live - {key});
      ReleaseSlot(key.agent, socket);
    }

    /** `set_result` and `set_exception`: calling either on a settled future is an error. */
    method SetOutcome(key: Key, outcome: Outcome)
      requires key in futures && futures[key].Pending?
      modifies this`futures
      ensures futures == old(futures)[key := Done(outcome)]
    {
      futures := futures[key := Done(outcome)];
    }

    method DeliverReply(agent: AgentId, id: string, text: Json.Value) returns (delivered: bool)
      requires Valid()
      modifies this
      ensures Valid() && Value() == ConnectionState.DeliverReply(old(Value()), agent, id, text)
      ensures delivered == Open(old(Value()), Key(Chat, agent, id))
    {
      var key := Key(Chat, agent, id);
      var waiting := key in waiters;
      waiters := waiters - {key};
      if waiting && futures[key].Pending? {
        SetOutcome(key, Text(text));
        return true;
      }
      return false;
    }

    method DeliverProgress(agent: AgentId, id: string, size: nat) returns (delivered: bool)
      requires Valid()
      modifies this
      ensures Valid() && Value() == ConnectionState.DeliverProgress(old(Value()), agent, id, size)
      ensures delivered == AcceptsProgress(old(Value()), Key(Chat, agent, id), size)
    {
      var key := Key(Chat, agent, id);
      if key !in progress { return false; }
      var Usage(frames, bytes) := progress[key];
      if frames >= MAX_PROGRESS_FRAMES || bytes + size > MAX_PROGRESS_BYTES { return false; }
      progress := progress[key := Usage(frames + 1, bytes + size)];
      return true;
    }

    method DeliverChangeSet(agent: AgentId, id: string, value: Option<ChangeSet>) returns (delivered: bool)
      requires Valid()
      modifies this
      ensures Valid() && Value() == ConnectionState.DeliverChangeSet(old(Value()), agent, id, value)
      ensures delivered <==>
        Open(old(Value()), Key(Coding, agent, id)) && MatchesRequest(old(Value()), Key(Coding, agent, id), value)
    {
      var key := Key(Coding, agent, id);
      if key !in waiters || futures[key].Done? { return false; }
      if value.None? {
        SetOutcome(key, InvalidPayload);
        return false;
      }
      var expected := Get(expectations, key);
      if expected.None? || !expected.value.CodingRequest?
         || (expected.value.repository, expected.value.run) != (value.value.repository, value.value.run) {
        SetOutcome(key, Mismatch);
        return false;
      }
      SetOutcome(key, Captured(value.value));
      return true;
    }

    /** The check alone; a `ValueError` there is the error returned here. */
    method ValidateCodingChangeSet(agent: AgentId, id: string,
        value: Option<ChangeSet>) returns (r: Result<Option<ChangeSet>, Outcome>)
      requires Valid()
      modifies this`log
      ensures Valid() && Value() == RememberValidated(old(Value()), agent, id, value)
      ensures r == ValidateChangeSet(old(Value()), agent, id, value)
    {
      var key := Key(Coding, agent, id);
      if key !in waiters || futures[key].Done? { return Ok(None); }
      if value.None? { return Err(InvalidPayload); }
      var expected := Get(expectations, key);
      if expected.None? || !expected.value.CodingRequest?
         || (expected.value.repository, expected.value.run) != (value.value.repository, value.value.run) {
        return Err(Mismatch);
      }
      log := log.(validated := log.validated + {(key, value.value)});
      return Ok(value);
    }

    method CompleteCodingChangeSet(agent: AgentId, id: string, changeSet: ChangeSet) returns (delivered: bool)
      requires Valid()
      modifies this`futures
      ensures Valid() && Value() == CompleteChangeSet(old(Value()), agent, id, changeSet)
      ensures delivered == Open(old(Value()), Key(Coding, agent, id))
    {
      var key := Key(Coding, agent, id);
      if key !in waiters || futures[key].Done? { return false; }
      SetOutcome(key, Captured(changeSet));
      return true;
    }

    method DeliverCodingFailure(agent: AgentId, id: string, error: Json.Value) returns (delivered: bool)
      requires Valid()
      modifies this
      ensures Valid() && Value() == ConnectionState.DeliverCodingFailure(old(Value()), agent, id, error)
      ensures delivered <==> Open(old(Value()), Key(Coding, agent, id)) && FailureOutcome(error).RemoteError?
    {
      var key := Key(Coding, agent, id);
      if key !in waiters || futures[key].Done? { return false; }
      SetOutcome(key, FailureOutcome(error));
      return FailureOutcome(error).RemoteError?;
    }

    method DeliverWorkspaceActionResult(agent: AgentId, id: string, value: Option<ActionResult>,
        socket: Socket) returns (delivered: bool)
      requires Valid()
      modifies this
      ensures Valid() && Value() == DeliverActionResult(old(Value()), agent, id, value, socket)
      ensures delivered <==> AnswersAction(old(Value()), agent, id, value, socket)
    {
      var key := Key(Workspace, agent, id);
      if key !in waiters || futures[key].Done? || key !in expectations || Get(owners, key) != Some(socket) { return false; }
      if value.None? {
        SetOutcome(key, InvalidPayload);
        return false;
      }
      if !ResultMatches(expectations[key], value.value) {
        SetOutcome(key, Mismatch);
        return false;
      }
      SetOutcome(key, Acted(value.value));
      return true;
    }

    method DeliverWorkspaceActionFailure(agent: AgentId, id: string, error: Json.Value,
        socket: Socket) returns (delivered: bool)
      requires Valid()
      modifies this
      ensures Valid() && Value() == DeliverActionFailure(old(Value()), agent, id, error, socket)
      ensures delivered <==> OpenOnSocket(old(Value()), Key(Workspace, agent, id), socket) && FailureOutcome(error).RemoteError?
    {
      var key := Key(Workspace, agent, id);
      if key !in waiters || futures[key].Done? || Get(owners, key) != Some(socket) { return false; }
      SetOutcome(key, FailureOutcome(error));
      return FailureOutcome(error).RemoteError?;
    }
  }

  lemma AcceptedHello(m: Manager, agent: AgentId, socket: Socket, hello: seq<Member>)
    requires HelloError(m, agent, socket, hello).None?
    ensures IsActiveSocket(m, agent, socket)
    ensures Lookup(hello, "agent_version").Str? && Lookup(hello, "max_concurrency").Int?
  {
  }

  lemma ResetIs(m: Manager)
    ensures ConnectionState.Reset(m) == Manager(map[], map[], map[], map[], map[], {}, map[], map[], map[],
      CancelAll(m.futures, m.waiters), m.log)
  {
  }
}
