/**
 What the manager grants: in every reachable state a request that fits is taken, a hello in order
 opens its session, a report within the capacity is taken over, and a new number is let through.
 */
module ConnectionGrants {
  import opened Wrappers
  import opened Json
  import opened ConnectionState
  import opened ConnectionProofs
  import opened ConnectionAnswers

  // ---- Connections ----

  /** A new socket is its agent's only one, has no frame session and nothing in flight, and may send progress and tool frames. */
  lemma {:induction false} ConnectingStartsLegacy(m: Manager, agent: AgentId, socket: Socket)
    requires Invariant(m) && socket !in m.log.usedSockets
    ensures var n := Connect(m, agent, socket);
      && n.conns == m.conns[agent := socket]
      && agent in n.profiles && n.profiles[agent].legacy && n.profiles[agent].capabilities == {"progress", "tools"}
      && n.profiles[agent].maxConcurrency == 1 && n.profiles[agent].activeRuns == 0
      && agent in n.reported && n.reported[agent] == 0 && socket !in n.sessions && InFlight(n, agent, socket) == 0
  {
    hide Connect;
    NewSocketsAreUnknown(m, agent, socket);
    hide Invariant;
    ConnectTables(m, agent, socket);
  }

  lemma ConnectTables(m: Manager, agent: AgentId, socket: Socket)
    requires agent in m.conns ==> m.conns[agent] != socket
    ensures var n := Connect(m, agent, socket);
      && n.conns == m.conns[agent := socket] && n.profiles == m.profiles[agent := LEGACY_AGENT_PROFILE]
      && n.reported == m.reported[agent := 0] && n.log.live == m.log.live && n.sessions.Keys <= m.sessions.Keys
  {
    hide LoseSocket;
    if agent in m.conns {
      LosingTables(m.(conns := m.conns[agent := socket], log := m.log.(usedSockets := m.log.usedSockets + {socket})),
        agent, m.conns[agent], "agent connection replaced");
    }
  }

  lemma LosingTables(m: Manager, agent: AgentId, socket: Socket, reason: string)
    ensures var n := LoseSocket(m, agent, socket, reason);
      && n.conns == m.conns && n.profiles == m.profiles && n.reported == m.reported && n.log == m.log
      && n.sessions == m.sessions - {socket}
  {
    hide OwnedBy;
  }

  lemma DropSessions(m: Manager, agent: AgentId, reason: string)
    requires agent in m.conns
    ensures Drop(m, agent, reason).sessions == m.sessions - {m.conns[agent]}
  {
    hide OwnedBy;
  }

  lemma NewSocketsAreUnknown(m: Manager, agent: AgentId, socket: Socket)
    requires Invariant(m) && socket !in m.log.usedSockets
    ensures socket !in m.sessions && Holding(m.log.live, Slot(agent, socket)) == {}
    ensures agent in m.conns ==> m.conns[agent] != socket
  {
  }

  /** A socket that is lost takes its agent, its session and its reservations with it, and nothing of anyone else. */
  lemma {:induction false} LosingForgetsTheAgent(m: Manager, agent: AgentId)
    requires Invariant(m) && agent in m.conns
    ensures forall n :: n in {Disconnect(m, agent, m.conns[agent]), Close(m, agent)} ==>
      && n.conns == m.conns - {agent} && n.profiles == m.profiles - {agent} && n.reported == m.reported - {agent}
      && n.sessions == m.sessions - {m.conns[agent]} && n.reserved == m.reserved - {Slot(agent, m.conns[agent])}
  {
    hide Drop, Close, Correlation, ReplayProtection, WithinCapacity, SlotsBalanced;
    CloseIsDrop(m, agent);
    DropTables(m, agent, "agent disconnected");
    DropTables(m, agent, "agent connection closed");
    DropSessions(m, agent, "agent disconnected");
    DropSessions(m, agent, "agent connection closed");
  }

  /** A socket that is not current any more loses nothing. */
  lemma LateDisconnectIsIgnored(m: Manager, agent: AgentId, socket: Socket)
    ensures !IsActiveSocket(m, agent, socket) ==> Disconnect(m, agent, socket) == m
  {
  }

  // ---- Requests ----

  /** What a request must be, whoever it goes to. */
  predicate Proper(request: Request) {
    match request
    case ChatRequest(_) => true
    case CodingRequest(repository, run, instruction) =>
      SafeCodingId(repository) && SafeCodingId(run) && !IsBlank(instruction) && |instruction| <= 65536
    case WorkspaceRequest(repository, run, branch, action) =>
      SafeCodingId(repository) && SafeCodingId(run) && SafeBranch(branch) && action in {"cleanup", "discard", "retain"}
  }

  /** A free slot is never refused and one that is taken never given: by what the agent reported and what is in flight. */
  lemma {:induction false} RequestsAreTakenWhileASlotIsFree(m: Manager, key: Key, request: Request)
    requires Invariant(m) && key !in m.futures && key.kind == request.Kind()
    ensures Begin(m, key, request).Ok? <==>
      && key.agent in m.conns && Proper(request) && (!request.ChatRequest? ==> Supports(m, key.agent, "coding_workspace"))
      && m.reported[key.agent] + InFlight(m, key.agent, m.conns[key.agent]) < m.profiles[key.agent].maxConcurrency
  {
    hide Correlation, ReplayProtection, SocketsDistinct;
  }

  /** A refused request is told what is wrong with it, and that the agent is busy only when nothing is. */
  lemma {:induction false} RefusedRequestsAreToldWhy(m: Manager, key: Key, request: Request)
    requires Invariant(m) && key !in m.futures && key.kind == request.Kind() && Begin(m, key, request).Err?
    ensures match Begin(m, key, request).error
      case NotConnected => request.ChatRequest? && key.agent !in m.conns
      case Unsupported => !request.ChatRequest? && !Supports(m, key.agent, "coding_workspace")
      case UnsafeRepository => !request.ChatRequest? && !SafeCodingId(request.repository)
      case UnsafeRun => !request.ChatRequest? && SafeCodingId(request.repository) && !SafeCodingId(request.run)
      case InvalidInstruction => request.CodingRequest? && (IsBlank(request.instruction) || |request.instruction| > 65536)
      case InvalidBranch => request.WorkspaceRequest? && !SafeBranch(request.branch)
      case InvalidAction => request.WorkspaceRequest? && request.action !in {"cleanup", "discard", "retain"}
      case Busy =>
        && key.agent in m.conns && Proper(request)
        && m.reported[key.agent] + InFlight(m, key.agent, m.conns[key.agent]) >= m.profiles[key.agent].maxConcurrency
      case _ => false
  {
    RequestsAreTakenWhileASlotIsFree(m, key, request);
    ConnectedHaveProfiles(m, key.agent);
    hide Invariant, InFlight, Register, SafeCodingId, SafeBranch, IsBlank, Refresh;
  }

  lemma ConnectedHaveProfiles(m: Manager, agent: AgentId)
    requires Invariant(m)
    ensures agent in m.profiles <==> agent in m.conns
  {
    hide Correlation, ReplayProtection, SlotsBalanced;
  }

  /** The parts of a text between its slashes, put together again. */
  function Joined(parts: seq<string>): string
    requires parts != []
  {
    if |parts| == 1 then parts[0] else parts[0] + "/" + Joined(parts[1..])
  }

  /** Splitting on slashes leaves none, and loses nothing else. */
  lemma {:induction false} PartsJoin(s: string)
    ensures var parts := SplitOnSlash(s);
      parts != [] && Joined(parts) == s && forall part :: part in parts ==> '/' !in part
  {
    if s != [] {
      PartsJoin(s[1..]);
      var rest := SplitOnSlash(s[1..]);
      assert s == [s[0]] + s[1..];
      if s[0] == '/' {
        assert ([""] + rest)[1..] == rest;
        assert Joined([""] + rest) == "" + "/" + Joined(rest);
      } else if |rest| > 1 {
        assert ([[s[0]] + rest[0]] + rest[1..])[1..] == rest[1..];
      }
    }
  }

  /** Splitting what was joined gives the parts back. */
  lemma {:induction false} JoinedPartsSplit(parts: seq<string>)
    requires parts != [] && forall part :: part in parts ==> '/' !in part
    ensures SplitOnSlash(Joined(parts)) == parts
    decreases |parts|, |parts[0]|
  {
    var first, rest := parts[0], parts[1..];
    assert parts == [first] + rest;
    if first == "" && rest == [] {
      assert parts == [""];
    } else if first == "" {
      assert Joined(parts) == "/" + Joined(rest);
      JoinedPartsSplit(rest);
    } else {
      var shorter := [first[1..]] + rest;
      assert first == [first[0]] + first[1..];
      forall part | part in shorter ensures '/' !in part {
        assert first in parts;
        assert part == first[1..] || part in parts;
      }
      assert shorter[1..] == rest;
      assert Joined(parts) == [first[0]] + Joined(shorter);
      JoinedPartsSplit(shorter);
    }
  }

  /** A name that may stand between two slashes. */
  predicate IsPart(part: string) { part != "" && part != "." && part != ".." && '/' !in part }

  /** A safe branch is "crewspace" and one or more parts with a name, at most 255 characters in all. */
  lemma {:induction false} SafeBranchesHaveNamedParts(branch: string)
    ensures SafeBranch(branch) <==>
      && |branch| <= 255
      && exists parts :: parts != [] && branch == "crewspace/" + Joined(parts) && forall part :: part in parts ==> IsPart(part)
  {
    if SafeBranch(branch) {
      var tail := branch[|"crewspace/"|..];
      assert branch == "crewspace/" + tail;
      BelowCrewspace(SplitOnSlash(tail), branch, tail);
      PartsJoin(tail);
      assert forall part :: part in SplitOnSlash(tail) ==> part in SplitOnSlash(branch);
    }
    if parts :| parts != [] && branch == "crewspace/" + Joined(parts) && forall part :: part in parts ==> IsPart(part) {
      JoinedPartsSplit(parts);
      BelowCrewspace(parts, branch, Joined(parts));
      assert "crewspace/" <= branch;
    }
  }

  lemma BelowCrewspace(parts: seq<string>, branch: string, tail: string)
    requires parts == SplitOnSlash(tail) && branch == "crewspace/" + tail
    ensures SplitOnSlash(branch) == ["crewspace"] + parts
  {
    PartsJoin(tail);
    assert (["crewspace"] + parts)[1..] == parts;
    assert Joined(["crewspace"] + parts) == "crewspace" + "/" + tail == branch;
    JoinedPartsSplit(["crewspace"] + parts);
  }

  /** The code points of white space. */
  const SPACES: set<int> := {
    9, 10, 11, 12, 13, 28, 29, 30, 31, 32, 133, 160, 5760, 8192, 8193, 8194, 8195, 8196, 8197, 8198, 8199, 8200, 8201, 8202,
    8232, 8233, 8239, 8287, 12288}

  /** Identifiers are 1 to 64 ASCII letters, digits, underscores and hyphens, neither of the latter two in front. */
  lemma CharactersAreThese(c: char, id: string)
    ensures IsSpace(c) <==> c as int in SPACES
    ensures IsAlnum(c) <==> 48 <= c as int <= 57 || 65 <= c as int <= 90 || 97 <= c as int <= 122
    ensures SafeCodingId(id) <==>
      && 0 < |id| < 65 && id[0] !in {'_', '-'}
      && forall i :: 0 <= i < |id| ==> IsAlnum(id[i]) || id[i] in {'_', '-'}
  {
  }

  /** The caller of a request that was taken waits for it, on the current socket and in one more slot; nobody else is touched. */
  lemma {:induction false} TakenRequestsWait(m: Manager, key: Key, request: Request)
    requires Invariant(m) && key !in m.futures && key.kind == request.Kind() && Begin(m, key, request).Ok?
    ensures var n := Begin(m, key, request).value;
      && Waits(n, key) && n.log.requests[key] == request && key.agent in m.conns && n.conns == m.conns
      && InFlight(n, key.agent, m.conns[key.agent]) == InFlight(m, key.agent, m.conns[key.agent]) + 1
      && n.waiters == m.waiters + {key} && n.owners == m.owners[key := m.conns[key.agent]]
      && (key in n.progress <==> request == ChatRequest(true))
  {
    BeginTables(m, key, request);
    NewKeysAreUnknown(m, key);
    hide Begin, Invariant, Waits;
    OneMoreHeld(m.log.live, key, m.conns[key.agent]);
    RegisteredWaits(m, Begin(m, key, request).value, key, request);
  }

  lemma RegisteredWaits(m: Manager, n: Manager, key: Key, request: Request)
    requires key.agent in m.conns && n.conns == m.conns && key.kind == request.Kind()
    requires n.waiters == m.waiters + {key} && n.owners == m.owners[key := m.conns[key.agent]]
    requires n.futures == m.futures[key := Pending] && n.log.requests == m.log.requests[key := request]
    requires n.expectations == if request.ChatRequest? then m.expectations else m.expectations[key := request]
    ensures Waits(n, key)
  {
  }

  lemma NewKeysAreUnknown(m: Manager, key: Key)
    requires Invariant(m) && key !in m.futures
    ensures key !in m.log.live && key !in m.progress
  {
    hide ReplayProtection, SlotsBalanced, WithinCapacity;
  }

  lemma OneMoreHeld(live: map<Key, Socket>, key: Key, socket: Socket)
    requires key !in live
    ensures |Holding(live[key := socket], Slot(key.agent, socket))| == |Holding(live, Slot(key.agent, socket))| + 1
  {
    var slot := Slot(key.agent, socket);
    assert Holding(live[key := socket], slot) == Holding(live, slot) + {key};
  }

  lemma BeginTables(m: Manager, key: Key, request: Request)
    requires Begin(m, key, request).Ok?
    ensures var n := Begin(m, key, request).value;
      && key.agent in m.conns && n.conns == m.conns && n.waiters == m.waiters + {key}
      && n.owners == m.owners[key := m.conns[key.agent]] && n.futures == m.futures[key := Pending]
      && n.log == m.log.(live := m.log.live[key := m.conns[key.agent]], requests := m.log.requests[key := request])
      && n.expectations == (if request.ChatRequest? then m.expectations else m.expectations[key := request])
      && n.progress == (if request == ChatRequest(true) then m.progress[key := Usage(0, 0)] else m.progress)
  {
    hide RequestError, IsAvailable, EffectiveActiveRuns;
  }

  /** A request that returns gives its slot back and is in no table any more. */
  lemma {:induction false} ReturningFreesTheSlot(m: Manager, key: Key)
    requires Invariant(m) && key in m.log.live
    ensures var n := Return(m, key, m.log.live[key]);
      && key !in n.log.live && key !in n.waiters && key !in n.owners && key !in n.expectations && key !in n.progress
      && InFlight(n, key.agent, m.log.live[key]) == InFlight(m, key.agent, m.log.live[key]) - 1
      && n.futures == m.futures
  {
    ReturnTables(m, key, m.log.live[key]);
    hide Return, Invariant;
    var slot := Slot(key.agent, m.log.live[key]);
    assert Holding(m.log.live, slot) == Holding(m.log.live - {key}, slot) + {key};
  }

  // ---- Progress ----

  /** Progress counts, frame by frame and byte by byte, exactly while it stays within both limits. */
  lemma {:induction false} ProgressIsCounted(m: Manager, agent: AgentId, id: string, size: nat, key: Key)
    requires key in m.progress
    ensures key in DeliverProgress(m, agent, id, size).progress
    ensures DeliverProgress(m, agent, id, size).progress[key] ==
      if key == Key(Chat, agent, id) && m.progress[key].frames < 256 && m.progress[key].bytes + size <= 1024 * 1024
      then Usage(m.progress[key].frames + 1, m.progress[key].bytes + size) else m.progress[key]
  {
    if key == Key(Chat, agent, id) {
    } else {
    }
  }

  // ---- Hellos ----

  /** What a hello must announce, whatever the state it finds. */
  predicate ProperHello(hello: seq<Member>) {
    var version, capabilities := Lookup(hello, "agent_version"), Lookup(hello, "capabilities");
    var concurrency := Lookup(hello, "max_concurrency");
    && EqualsOne(Lookup(hello, "protocol_version"))
    && version.Str? && !IsBlank(version.s) && |version.s| <= 128
    && capabilities.Array? && (forall v :: v in capabilities.items ==> v.Str? && v.s in AGENT_CAPABILITIES)
    && concurrency.Int? && 1 <= concurrency.n <= 64
  }

  /** A text without the white space around it. */
  ghost predicate IsTrimmed(text: string, s: string) {
    && s != "" && !IsSpace(s[0]) && !IsSpace(s[|s| - 1])
    && exists a, b :: text == a + s + b && IsBlank(a) && IsBlank(b)
  }

  lemma {:induction false} StripTrims(s: string)
    requires !IsBlank(s)
    ensures IsTrimmed(s, Strip(s))
  {
    if IsSpace(s[0]) {
      StripTrims(s[1..]);
      FirstSpaceOff(s, Strip(s));
    } else if IsSpace(s[|s| - 1]) {
      StripTrims(s[..|s| - 1]);
      LastSpaceOff(s, Strip(s));
    } else {
      assert s == "" + s + "";
      Around("", s, "", s);
    }
  }

  lemma FirstSpaceOff(text: string, s: string)
    requires text != "" && IsSpace(text[0]) && IsTrimmed(text[1..], s)
    ensures IsTrimmed(text, s)
  {
    var a, b :| text[1..] == a + s + b && IsBlank(a) && IsBlank(b);
    assert text == [text[0]] + text[1..] == [text[0]] + a + s + b;
    Around([text[0]] + a, s, b, text);
  }

  lemma LastSpaceOff(text: string, s: string)
    requires text != "" && IsSpace(text[|text| - 1]) && IsTrimmed(text[..|text| - 1], s)
    ensures IsTrimmed(text, s)
  {
    var a, b :| text[..|text| - 1] == a + s + b && IsBlank(a) && IsBlank(b);
    assert text == a + s + (b + [text[|text| - 1]]);
    Around(a, s, b + [text[|text| - 1]], text);
  }

  lemma Around(a: string, s: string, b: string, text: string)
    requires text == a + s + b && IsBlank(a) && IsBlank(b) && s != "" && !IsSpace(s[0]) && !IsSpace(s[|s| - 1])
    ensures IsTrimmed(text, s)
  {
  }

  /** The first hello of a current socket is taken exactly when it announces what it must. */
  lemma {:induction false} ProperHellosAreTaken(m: Manager, agent: AgentId, socket: Socket, hello: seq<Member>, session: string)
    requires Invariant(m)
    ensures Negotiate(m, agent, socket, hello, session).Ok? <==>
      IsActiveSocket(m, agent, socket) && socket !in m.sessions && ProperHello(hello)
  {
    hide SlotsBalanced, Correlation, SessionsDistinct, SequencesRising, Strip, IsBlank;
    var capabilities := Lookup(hello, "capabilities");
    if capabilities.Array? {
      Listed(capabilities.items);
    }
  }

  lemma Listed(items: seq<Value>)
    ensures (forall v :: v in items ==> v.Str? && v.s in AGENT_CAPABILITIES) <==>
      (forall i :: 0 <= i < |items| ==> items[i].Str?) && CapabilitySet(Array(items)) <= AGENT_CAPABILITIES
  {
    var set' := CapabilitySet(Array(items));
    if forall i :: 0 <= i < |items| ==> items[i].Str? {
      assert forall i :: 0 <= i < |items| ==> items[i].s in set';
    }
  }

  /** A refused hello is told what is wrong with it; that it allows less than is running cannot be. */
  lemma {:induction false} RefusedHellosAreToldWhy(m: Manager, agent: AgentId, socket: Socket, hello: seq<Member>, session: string)
    requires Invariant(m) && Negotiate(m, agent, socket, hello, session).Err?
    ensures var error := Negotiate(m, agent, socket, hello, session).error;
      error != BelowActiveRuns && Explains(m, agent, socket, hello, error)
  {
    ProperHellosAreTaken(m, agent, socket, hello, session);
    ErrorExplains(m, agent, socket, hello);
    hide Invariant, ProperHello, HelloError, CapabilitySet, IsTextList;
  }

  /** What is wrong with the hello when it is refused with this error. */
  ghost predicate Explains(m: Manager, agent: AgentId, socket: Socket, hello: seq<Member>, error: Error) {
    var version, capabilities := Lookup(hello, "agent_version"), Lookup(hello, "capabilities");
    var concurrency := Lookup(hello, "max_concurrency");
    match error
    case NotActiveSocket => !IsActiveSocket(m, agent, socket)
    case AlreadyNegotiated => IsActiveSocket(m, agent, socket) && socket in m.sessions
    case UnsupportedProtocol => !EqualsOne(Lookup(hello, "protocol_version"))
    case InvalidAgentVersion => !version.Str? || IsBlank(version.s) || |version.s| > 128
    case InvalidCapabilities => !IsTextList(capabilities)
    case UnsupportedCapability => IsTextList(capabilities) && exists c :: Str(c) in capabilities.items && c !in AGENT_CAPABILITIES
    case InvalidMaxConcurrency => !concurrency.Int? || concurrency.n < 1 || concurrency.n > 64
    case BelowActiveRuns => IsActiveSocket(m, agent, socket) && socket !in m.sessions && ProperHello(hello)
    case _ => false
  }

  lemma ErrorExplains(m: Manager, agent: AgentId, socket: Socket, hello: seq<Member>)
    ensures var error := HelloError(m, agent, socket, hello); error.Some? ==> Explains(m, agent, socket, hello, error.value)
  {
    hide IsBlank, EffectiveActiveRuns, EqualsOne, Lookup;
    var capabilities := Lookup(hello, "capabilities");
    if capabilities.Array? {
      Listed(capabilities.items);
      TextsAreIndexed(capabilities.items);
    }
    if HelloError(m, agent, socket, hello) == Some(UnsupportedCapability) {
      Members(capabilities);
      var c :| c in CapabilitySet(capabilities) && c !in AGENT_CAPABILITIES;
    }
  }

  lemma TextsAreIndexed(items: seq<Value>)
    ensures (exists i :: 0 <= i < |items| && !items[i].Str?) <==> !IsTextList(Array(items))
  {
    if !IsTextList(Array(items)) {
      var t :| t in items && !t.Str?;
    }
  }

  predicate IsTextList(v: Value) { v.Array? && forall t :: t in v.items ==> t.Str? }

  /** The profile is what the hello announced. */
  ghost predicate Announces(hello: seq<Member>, p: Profile) {
    var version, capabilities := Lookup(hello, "agent_version"), Lookup(hello, "capabilities");
    && !p.legacy && p.protocolVersion == Lookup(hello, "protocol_version")
    && version.Str? && IsTrimmed(version.s, p.agentVersion)
    && capabilities.Array? && (forall c :: c in p.capabilities <==> Str(c) in capabilities.items)
    && Lookup(hello, "max_concurrency") == Int(p.maxConcurrency)
  }

  /** A hello that is taken opens a session without a number and gives the agent the profile it announced. */
  lemma {:induction false} TakenHellosSetTheProfile(m: Manager, agent: AgentId, socket: Socket, hello: seq<Member>, session: string)
    requires Invariant(m) && Negotiate(m, agent, socket, hello, session).Ok?
    ensures var n := Negotiate(m, agent, socket, hello, session).value;
      && agent in n.profiles && Announces(hello, n.profiles[agent])
      && agent in m.reported && n.profiles[agent].activeRuns == m.reported[agent] + InFlight(m, agent, socket)
      && n == m.(profiles := m.profiles[agent := n.profiles[agent]], sessions := m.sessions[socket := Session(session, 0)],
                 log := n.log)
  {
    ProperHellosAreTaken(m, agent, socket, hello, session);
    StripTrims(Lookup(hello, "agent_version").s);
    Members(Lookup(hello, "capabilities"));
    EffectiveIsCounted(m, agent, socket);
    hide Invariant, IsTrimmed, Strip, IsBlank, HelloError, CapabilitySet, EffectiveActiveRuns, InFlight;
  }

  lemma EffectiveIsCounted(m: Manager, agent: AgentId, socket: Socket)
    requires Invariant(m) && IsActiveSocket(m, agent, socket)
    ensures agent in m.reported && EffectiveActiveRuns(m, agent) == m.reported[agent] + InFlight(m, agent, socket) >= 0
  {
    hide Correlation, ReplayProtection, SocketsDistinct;
  }

  lemma Members(v: Value)
    ensures v.Array? ==> forall c :: c in CapabilitySet(v) <==> Str(c) in v.items
  {
    if v.Array? {
      forall c ensures c in CapabilitySet(v) <==> Str(c) in v.items {
      }
    }
  }

  // ---- Activity ----

  /** A report is taken over exactly when it fits beside what is in flight. */
  lemma {:induction false} FittingReportsAreTaken(m: Manager, agent: AgentId, socket: Socket, active: Value)
    requires Invariant(m)
    ensures UpdateActivity(m, agent, socket, active).Ok? <==>
      && IsActiveSocket(m, agent, socket) && active.Int? && 0 <= active.n
      && active.n + InFlight(m, agent, socket) <= m.profiles[agent].maxConcurrency
  {
    hide Invariant, InFlight, UpdateActivity, ActiveReservedSlots;
    SlotsAreCounted(m, agent, socket);
    ReportIs(m, agent, socket, active);
  }

  /** It then is what the agent's activity is counted from; nothing else changes. */
  lemma {:induction false} TakenReportsCount(m: Manager, agent: AgentId, socket: Socket, active: Value)
    requires Invariant(m) && UpdateActivity(m, agent, socket, active).Ok?
    ensures active.Int? && agent in m.profiles
    ensures var profile := m.profiles[agent].(activeRuns := active.n + InFlight(m, agent, socket));
      UpdateActivity(m, agent, socket, active).value ==
        m.(reported := m.reported[agent := active.n], profiles := m.profiles[agent := profile])
  {
    hide Invariant, InFlight, UpdateActivity;
    SlotsAreCounted(m, agent, socket);
    ReportIs(m, agent, socket, active);
  }

  lemma ReportIs(m: Manager, agent: AgentId, socket: Socket, active: Value)
    ensures UpdateActivity(m, agent, socket, active).Ok? <==>
      && IsActiveSocket(m, agent, socket) && agent in m.profiles && active.Int? && 0 <= active.n <= m.profiles[agent].maxConcurrency
      && active.n + ActiveReservedSlots(m, agent) <= m.profiles[agent].maxConcurrency
    ensures UpdateActivity(m, agent, socket, active).Ok? ==>
      UpdateActivity(m, agent, socket, active).value ==
        m.(reported := m.reported[agent := active.n],
           profiles := m.profiles[agent := m.profiles[agent].(activeRuns := active.n + ActiveReservedSlots(m, agent))])
  {
    hide ActiveReservedSlots;
  }

  lemma SlotsAreCounted(m: Manager, agent: AgentId, socket: Socket)
    requires Invariant(m)
    ensures agent in m.conns <==> agent in m.profiles
    ensures agent in m.conns <==> agent in m.reported
    ensures IsActiveSocket(m, agent, socket) ==> ActiveReservedSlots(m, agent) == InFlight(m, agent, socket) >= 0
  {
    hide Correlation, ReplayProtection, SocketsDistinct;
  }

  // ---- Frames ----

  /** The number a session stands at is none yet or one it let through. */
  ghost predicate StandsAt(accepted: seq<Accepted>, session: Session) {
    session.last == 0 || (session.last > 0 && Took(accepted, session.id, session.last))
  }

  predicate Took(accepted: seq<Accepted>, session: string, number: int) {
    exists i :: 0 <= i < |accepted| && accepted[i].session == session && accepted[i].number == number
  }

  ghost predicate AllStand(m: Manager) { forall w :: w in m.sessions ==> StandsAt(m.log.accepted, m.sessions[w]) }

  lemma TookStays(before: seq<Accepted>, after: seq<Accepted>, session: string, number: int)
    requires before <= after && Took(before, session, number)
    ensures Took(after, session, number)
  {
    var i :| 0 <= i < |before| && before[i].session == session && before[i].number == number;
    assert after[i] == before[i];
  }

  /** A session is new and without a number, or it is an old one, perhaps with the number just let through. */
  ghost predicate SessionsFrom(before: Manager, after: Manager) {
    forall w :: w in after.sessions ==>
      || (w in before.sessions && after.sessions[w] == before.sessions[w])
      || after.sessions[w].last == 0
      || (after.sessions[w].last > 0 && Took(after.log.accepted, after.sessions[w].id, after.sessions[w].last))
  }

  lemma FrameSessions(m: Manager, agent: AgentId, socket: Socket, frame: seq<Member>)
    requires forall w :: w in m.sessions ==> m.sessions[w].last >= 0
    ensures SessionsFrom(m, ReceiveFrame(m, agent, socket, frame))
  {
    var n := ReceiveFrame(m, agent, socket, frame);
    if n.log.accepted != m.log.accepted {
      assert n.log.accepted[|m.log.accepted|] == Accepted(agent, socket, m.sessions[socket].id, n.sessions[socket].last);
    }
  }

  lemma ConnectSessions(m: Manager, agent: AgentId, socket: Socket)
    ensures forall w :: w in Connect(m, agent, socket).sessions ==>
      w in m.sessions && Connect(m, agent, socket).sessions[w] == m.sessions[w]
  {
    hide LoseSocket;
    if agent in m.conns {
      LosingTables(m.(conns := m.conns[agent := socket], log := m.log.(usedSockets := m.log.usedSockets + {socket})),
        agent, m.conns[agent], "agent connection replaced");
    }
  }

  lemma CloseSessions(m: Manager, agent: AgentId)
    ensures forall w :: w in Close(m, agent).sessions ==> w in m.sessions && Close(m, agent).sessions[w] == m.sessions[w]
  {
    hide LoseSocket, SlotsOf;
    if agent in m.conns {
      LosingTables(Forget(m, agent).(reserved := m.reserved - SlotsOf(m, agent)), agent, m.conns[agent],
        "agent connection closed");
    }
  }

  lemma LossSessions(m: Manager, agent: AgentId, socket: Socket)
    ensures forall w :: w in Disconnect(m, agent, socket).sessions ==>
      w in m.sessions && Disconnect(m, agent, socket).sessions[w] == m.sessions[w]
  {
    hide LoseSocket;
    if agent in m.conns {
      LosingTables(m, agent, m.conns[agent], "agent disconnected");
    }
  }

  lemma OtherSessions(m: Manager, e: Event)
    requires Possible(m, e) && (e.Connected? || e.Disconnected? || e.Closed? || e.ShutDown? || e.HelloIn? || e.ActivityIn?)
    ensures SessionsFrom(m, Apply(m, e))
  {
    hide Connect, Disconnect, Close, Negotiate, UpdateActivity, Next, Took, CancelAll;
    match e
    case Connected(agent, socket) => ConnectSessions(m, agent, socket);
    case Disconnected(agent, socket) => LossSessions(m, agent, socket);
    case Closed(agent) => CloseSessions(m, agent);
    case ShutDown =>
    case HelloIn(agent, socket, hello, session) => HelloSessions(m, agent, socket, hello, session);
    case ActivityIn(agent, socket, active) => ActivitySessions(m, agent, socket, active);
  }

  lemma HelloSessions(m: Manager, agent: AgentId, socket: Socket, hello: seq<Member>, session: string)
    ensures SessionsFrom(m, Next(m, Negotiate(m, agent, socket, hello, session)))
  {
    hide HelloError, EffectiveActiveRuns, CapabilitySet, Strip, Lookup;
  }

  lemma ActivitySessions(m: Manager, agent: AgentId, socket: Socket, active: Value)
    ensures Next(m, UpdateActivity(m, agent, socket, active)).sessions == m.sessions
  {
    hide ActivityError, ActiveReservedSlots;
  }

  lemma RequestSessions(m: Manager, e: Event)
    requires Possible(m, e) && (e.Began? || e.Returned? || e.GaveUp?)
    ensures Apply(m, e).sessions == m.sessions
  {
    hide Begin, Next, Return, SettleKey;
    match e
    case Began(key, request) => BeginSessions(m, key, request);
    case Returned(key) => ReturnTables(m, key, m.log.live[key]);
    case GaveUp(key) => SettlingKeepsLog(m, key, Cancelled);
  }

  lemma BeginSessions(m: Manager, key: Key, request: Request)
    ensures Next(m, Begin(m, key, request)).sessions == m.sessions
  {
    hide RequestError, IsAvailable, EffectiveActiveRuns;
  }

  lemma DeliverySessions(m: Manager, e: Event)
    requires Possible(m, e) && IsDelivery(e)
    ensures Apply(m, e).sessions == m.sessions
  {
    hide DeliverReply, DeliverProgress, RememberValidated, CompleteChangeSet, DeliverChangeSet, DeliverCodingFailure,
      DeliverActionResult, DeliverActionFailure;
    match e
    case ReplyIn(agent, id, text) => ReplyKeepsLog(m, agent, id, text);
    case ProgressIn(agent, id, size) => ProgressKeepsLog(m, agent, id, size);
    case ChangeSetChecked(agent, id, value) => RememberedIs(m, agent, id, value);
    case ChangeSetDone(agent, id, changeSet) => CompletionKeepsLog(m, agent, id, changeSet);
    case ChangeSetIn(agent, id, value) => ChangeSetKeepsLog(m, agent, id, value);
    case CodingFailureIn(agent, id, error) => FailureKeepsLog(m, agent, id, error, 0);
    case ActionResultIn(agent, id, result, socket) => ActionResultKeepsLog(m, agent, id, result, socket);
    case ActionFailureIn(agent, id, error, socket) => FailureKeepsLog(m, agent, id, error, socket);
  }

  lemma StepStands(m: Manager, e: Event)
    requires Possible(m, e) && AllStand(m)
    ensures AllStand(Apply(m, e))
  {
    StepKeepsPast(m, e);
    hide Connect, Disconnect, Close, Reset, Negotiate, ReceiveFrame, UpdateActivity, Begin, Return, GiveUp, DeliverReply,
      DeliverProgress, RememberValidated, CompleteChangeSet, DeliverChangeSet, DeliverCodingFailure, DeliverActionResult,
      DeliverActionFailure, Took;
    if e.FrameIn? {
      FrameSessions(m, e.agent, e.socket, e.frame);
    } else if IsDelivery(e) {
      DeliverySessions(m, e);
    } else if e.Began? || e.Returned? || e.GaveUp? {
      RequestSessions(m, e);
    } else {
      OtherSessions(m, e);
    }
    var n := Apply(m, e);
    forall w | w in n.sessions ensures StandsAt(n.log.accepted, n.sessions[w]) {
      if w in m.sessions && n.sessions[w] == m.sessions[w] && m.sessions[w].last != 0 {
        TookStays(m.log.accepted, n.log.accepted, m.sessions[w].id, m.sessions[w].last);
      }
    }
  }

  lemma {:induction false} RunStands(m: Manager, events: seq<Event>)
    requires PossibleRun(m, events) && AllStand(m)
    ensures AllStand(Run(m, events))
    decreases events
  {
    if events != [] {
      hide Apply, Possible, AllStand;
      StepStands(m, events[0]);
      RunStands(Apply(m, events[0]), events[1..]);
    }
  }

  /** The number is above every one the session let through, and above nought. */
  predicate IsNewer(accepted: seq<Accepted>, session: string, number: int) {
    number > 0 && forall i :: 0 <= i < |accepted| && accepted[i].session == session ==> number > accepted[i].number
  }

  /** A negotiated agent's frame is let through exactly when it comes on the current socket, in its session, with a newer number. */
  lemma {:induction false} NewerFramesAreTaken(events: seq<Event>, agent: AgentId, socket: Socket, frame: seq<Member>)
    requires PossibleRun(EMPTY, events)
    requires var m := Run(EMPTY, events); agent in m.profiles && !m.profiles[agent].legacy && IsActiveSocket(m, agent, socket)
    ensures var m := Run(EMPTY, events);
      && socket in m.sessions
      && (AcceptsFrame(m, agent, socket, frame) <==>
            && Lookup(frame, "session_id") == Str(m.sessions[socket].id) && Lookup(frame, "seq").Int?
            && IsNewer(m.log.accepted, m.sessions[socket].id, Lookup(frame, "seq").n))
  {
    ReachableInvariant(events);
    RunStands(EMPTY, events);
    hide Run, PossibleRun, Accounting, Correlation, SessionsDistinct, GreetedOnce;
    var m := Run(EMPTY, events);
    assert StandsAt(m.log.accepted, m.sessions[socket]);
  }
}
