/**
 What every run of an `AgentConnectionManager` keeps: capacity accounting, request correlation,
 one-shot futures and replay protection.
 */
module ConnectionProofs {
  import opened Wrappers
  import opened Json
  import opened ConnectionState

  // ---- The invariant, part by part over the tables it speaks of ----

  predicate Connected(conns: map<AgentId, Socket>, agent: AgentId, socket: Socket) {
    agent in conns && conns[agent] == socket
  }

  /** The requests inside which a caller holds a slot of this agent's socket. */
  function Holding(live: map<Key, Socket>, slot: Slot): set<Key> {
    set k | k in live && k.agent == slot.agent && live[k] == slot.socket
  }

  ghost predicate SocketsDistinct(conns: map<AgentId, Socket>, live: map<Key, Socket>, used: set<Socket>) {
    && (forall a :: a in conns ==> conns[a] in used)
    && (forall a, b :: a in conns && b in conns && conns[a] == conns[b] ==> a == b)
    && (forall k :: k in live ==> live[k] in used)
  }

  ghost predicate RequestsKnown(live: map<Key, Socket>, futures: set<Key>, requests: map<Key, Request>) {
    && live.Keys <= futures == requests.Keys
    && (forall k :: k in requests ==> k.kind == requests[k].Kind())
  }

  /** Slots reserved on a socket count its live requests; a socket that is gone has none. */
  ghost predicate SlotsBalanced(conns: map<AgentId, Socket>, reserved: map<Slot, int>, live: map<Key, Socket>) {
    && (forall s :: s in reserved ==> Connected(conns, s.agent, s.socket) && reserved[s] == |Holding(live, s)| > 0)
    && (forall a :: a in conns && Slot(a, conns[a]) !in reserved ==> Holding(live, Slot(a, conns[a])) == {})
  }

  predicate Within(profile: Profile, reported: int, reserved: int) {
    && 0 <= reported && 0 <= reserved
    && profile.activeRuns == reported + reserved <= profile.maxConcurrency
    && (profile.legacy ==> profile.maxConcurrency == 1)
  }

  ghost predicate WithinCapacity(
    conns: map<AgentId, Socket>, profiles: map<AgentId, Profile>, reported: map<AgentId, int>, reserved: map<Slot, int>)
  {
    && profiles.Keys == conns.Keys == reported.Keys
    && (forall a :: a in conns ==> Within(profiles[a], reported[a], SlotCount(reserved, Slot(a, conns[a]))))
  }

  ghost predicate RequestsRegistered(
    conns: map<AgentId, Socket>, live: map<Key, Socket>, requests: map<Key, Request>,
    owners: map<Key, Socket>, expectations: map<Key, Request>)
  {
    && (forall k :: k in owners <==> k in live && Connected(conns, k.agent, live[k]))
    && (forall k :: k in owners && k in live ==> owners[k] == live[k])
    && (forall k :: k in expectations <==> k in owners && k.kind != Chat)
    && (forall k :: k in expectations && k in requests ==> expectations[k] == requests[k])
  }

  /** A live request without a waiter has its answer already. */
  ghost predicate PendingAwaited(live: set<Key>, owners: set<Key>, waiters: set<Key>, futures: map<Key, Future>) {
    && waiters <= owners
    && (forall k :: k in live && k in futures && futures[k].Pending? ==> k in waiters)
  }

  ghost predicate ProgressBounded(owners: set<Key>, progress: map<Key, Usage>) {
    && progress.Keys <= owners
    && (forall k :: k in progress ==> progress[k].frames <= MAX_PROGRESS_FRAMES && progress[k].bytes <= MAX_PROGRESS_BYTES)
  }

  /** What a future may hold, given the request it answers. */
  predicate Correlated(request: Request, future: Future) {
    match future
    case Done(Captured(changeSet)) =>
      request.CodingRequest? && request.repository == changeSet.repository && request.run == changeSet.run
    case Done(Acted(result)) => ResultMatches(request, result)
    case Done(Text(_)) => request.ChatRequest?
    case _ => true
  }

  ghost predicate ResultsCorrelated(
    requests: map<Key, Request>, futures: map<Key, Future>, validated: set<(Key, ChangeSet)>)
  {
    && (forall k :: k in futures && k in requests ==> Correlated(requests[k], futures[k]))
    && (forall k, c :: (k, c) in validated ==> k in requests && Correlated(requests[k], Done(Captured(c))))
  }

  ghost predicate LegacyUntilGreeted(
    conns: map<AgentId, Socket>, profiles: map<AgentId, Profile>, sessions: set<Socket>)
  {
    && (forall a :: a in conns && a in profiles ==> (profiles[a].legacy <==> conns[a] !in sessions))
    && (forall w :: w in sessions ==> w in conns.Values)
  }

  ghost predicate GreetedOnce(
    conns: map<AgentId, Socket>, sessions: set<Socket>, greeted: seq<Socket>, used: set<Socket>)
  {
    && (forall w :: w in sessions ==> w in greeted)
    && (forall w :: w in greeted ==> w in used)
    && (forall a :: a in conns && conns[a] in greeted ==> conns[a] in sessions)
    && (forall i, j :: 0 <= i < j < |greeted| ==> greeted[i] != greeted[j])
  }

  ghost predicate SessionsDistinct(sessions: map<Socket, Session>, used: set<string>) {
    && (forall w :: w in sessions ==> sessions[w].id in used)
    && (forall v, w :: v in sessions && w in sessions && sessions[v].id == sessions[w].id ==> v == w)
  }

  /** Sequence numbers of one session only grow, whatever connections came between. */
  ghost predicate Rising(accepted: seq<Accepted>) {
    forall i, j :: 0 <= i < j < |accepted| && accepted[i].session == accepted[j].session ==>
      accepted[i].number < accepted[j].number
  }

  ghost predicate SequencesRising(sessions: map<Socket, Session>, used: set<string>, accepted: seq<Accepted>) {
    && Rising(accepted)
    && (forall i :: 0 <= i < |accepted| ==> accepted[i].session in used)
    && (forall i, w :: 0 <= i < |accepted| && w in sessions && accepted[i].session == sessions[w].id ==>
          accepted[i].number <= sessions[w].last)
  }

  ghost predicate Accounting(m: Manager) {
    && SocketsDistinct(m.conns, m.log.live, m.log.usedSockets)
    && RequestsKnown(m.log.live, m.futures.Keys, m.log.requests)
    && SlotsBalanced(m.conns, m.reserved, m.log.live)
    && WithinCapacity(m.conns, m.profiles, m.reported, m.reserved)
  }

  ghost predicate Correlation(m: Manager) {
    && RequestsRegistered(m.conns, m.log.live, m.log.requests, m.owners, m.expectations)
    && PendingAwaited(m.log.live.Keys, m.owners.Keys, m.waiters, m.futures)
    && ProgressBounded(m.owners.Keys, m.progress)
    && ResultsCorrelated(m.log.requests, m.futures, m.log.validated)
  }

  ghost predicate ReplayProtection(m: Manager) {
    && LegacyUntilGreeted(m.conns, m.profiles, m.sessions.Keys)
    && GreetedOnce(m.conns, m.sessions.Keys, m.log.greeted, m.log.usedSockets)
    && SessionsDistinct(m.sessions, m.log.usedSessions)
    && SequencesRising(m.sessions, m.log.usedSessions, m.log.accepted)
  }

  ghost predicate Invariant(m: Manager) { Accounting(m) && Correlation(m) && ReplayProtection(m) }

  // ---- Taking, returning and losing slots ----

  lemma TakeSlot(conns: map<AgentId, Socket>, reserved: map<Slot, int>, live: map<Key, Socket>, key: Key)
    requires SlotsBalanced(conns, reserved, live) && key !in live && key.agent in conns
    ensures var slot := Slot(key.agent, conns[key.agent]);
      SlotsBalanced(conns, reserved[slot := SlotCount(reserved, slot) + 1], live[key := slot.socket])
  {
    var slot := Slot(key.agent, conns[key.agent]);
    var after := live[key := slot.socket];
    assert Holding(after, slot) == Holding(live, slot) + {key};
    forall s: Slot | s != slot ensures Holding(after, s) == Holding(live, s) {}
  }

  lemma GiveSlotBack(conns: map<AgentId, Socket>, reserved: map<Slot, int>, live: map<Key, Socket>, key: Key)
    requires SlotsBalanced(conns, reserved, live) && key in live
    ensures SlotsBalanced(conns, OneLess(reserved, Slot(key.agent, live[key])), live - {key})
  {
    var slot := Slot(key.agent, live[key]);
    var after := live - {key};
    assert Holding(live, slot) == Holding(after, slot) + {key};
    forall s: Slot | s != slot ensures Holding(after, s) == Holding(live, s) {}
  }

  lemma LoseSlots(conns: map<AgentId, Socket>, reserved: map<Slot, int>, live: map<Key, Socket>, agent: AgentId)
    requires SlotsBalanced(conns, reserved, live) && agent in conns
    ensures SlotsBalanced(conns - {agent}, reserved - {Slot(agent, conns[agent])}, live)
  {
  }

  lemma NewSocketHasNoSlots(
    conns: map<AgentId, Socket>, reserved: map<Slot, int>, live: map<Key, Socket>, used: set<Socket>,
    agent: AgentId, socket: Socket)
    requires SlotsBalanced(conns, reserved, live) && SocketsDistinct(conns, live, used)
    requires agent !in conns && socket !in used
    ensures SlotsBalanced(conns[agent := socket], reserved, live)
    ensures Slot(agent, socket) !in reserved
  {
    assert Holding(live, Slot(agent, socket)) == {};
  }

  lemma LoseRequests(
    conns: map<AgentId, Socket>, live: map<Key, Socket>, requests: map<Key, Request>,
    owners: map<Key, Socket>, expectations: map<Key, Request>, agent: AgentId, lost: set<Key>)
    requires RequestsRegistered(conns, live, requests, owners, expectations) && agent in conns
    requires lost == set k | k in owners && k.agent == agent && owners[k] == conns[agent]
    ensures RequestsRegistered(conns - {agent}, live, requests, owners - lost, expectations - lost)
    ensures lost == set k | k in owners && k.agent == agent
  {
  }

  lemma RegisterRequest(
    conns: map<AgentId, Socket>, live: map<Key, Socket>, requests: map<Key, Request>,
    owners: map<Key, Socket>, expectations: map<Key, Request>, key: Key, request: Request)
    requires RequestsRegistered(conns, live, requests, owners, expectations)
    requires key !in live && key.agent in conns && key.kind == request.Kind()
    ensures RequestsRegistered(conns, live[key := conns[key.agent]], requests[key := request], owners[key := conns[key.agent]],
              if request.ChatRequest? then expectations else expectations[key := request])
  {
  }

  lemma AcceptNumber(
    sessions: map<Socket, Session>, used: set<string>, accepted: seq<Accepted>, next: Accepted)
    requires SessionsDistinct(sessions, used) && SequencesRising(sessions, used, accepted)
    requires next.socket in sessions && next.session == sessions[next.socket].id && next.number > sessions[next.socket].last
    ensures SequencesRising(sessions[next.socket := Session(next.session, next.number)], used, accepted + [next])
  {
  }

  lemma OpenSession(
    sessions: map<Socket, Session>, used: set<string>, accepted: seq<Accepted>, socket: Socket, session: string)
    requires SessionsDistinct(sessions, used) && SequencesRising(sessions, used, accepted) && session !in used
    ensures SessionsDistinct(sessions[socket := Session(session, 0)], used + {session})
    ensures SequencesRising(sessions[socket := Session(session, 0)], used + {session}, accepted)
  {
  }

  // ---- A step that leaves a group of tables alone keeps what is said of them ----

  lemma SameCorrelation(m: Manager, n: Manager)
    requires Correlation(m)
    requires n.conns == m.conns && n.log.live == m.log.live && n.log.requests == m.log.requests
    requires n.owners == m.owners && n.expectations == m.expectations && n.waiters == m.waiters
    requires n.progress == m.progress && n.futures == m.futures && n.log.validated == m.log.validated
    ensures Correlation(n)
  {
  }

  lemma SameReplayProtection(m: Manager, n: Manager)
    requires ReplayProtection(m)
    requires n.conns == m.conns && n.sessions == m.sessions
    requires n.profiles.Keys == m.profiles.Keys
    requires forall a :: a in m.profiles ==> n.profiles[a].legacy == m.profiles[a].legacy
    requires n.log.greeted == m.log.greeted && n.log.accepted == m.log.accepted
    requires n.log.usedSockets == m.log.usedSockets && n.log.usedSessions == m.log.usedSessions
    ensures ReplayProtection(n)
  {
  }

  // ---- Losing, closing and replacing a socket ----

  lemma DropKeepsAccounting(m: Manager, agent: AgentId, reason: string)
    requires Accounting(m) && agent in m.conns
    ensures Accounting(Drop(m, agent, reason))
  {
    hide Drop, SlotsBalanced, ActiveReservedSlots;
    DropTables(m, agent, reason);
    LoseSlots(m.conns, m.reserved, m.log.live, agent);
    CapacityAfterLoss(m.conns, m.profiles, m.reported, m.reserved, agent);
  }

  lemma DropTables(m: Manager, agent: AgentId, reason: string)
    requires agent in m.conns
    ensures var n := Drop(m, agent, reason);
      && n.conns == m.conns - {agent} && n.profiles == m.profiles - {agent} && n.reported == m.reported - {agent}
      && n.reserved == m.reserved - {Slot(agent, m.conns[agent])}
      && n.log == m.log && n.futures.Keys == m.futures.Keys
  {
    hide OwnedBy;
  }

  lemma CapacityAfterLoss(conns: map<AgentId, Socket>, profiles: map<AgentId, Profile>, reported: map<AgentId, int>,
      reserved: map<Slot, int>, agent: AgentId)
    requires WithinCapacity(conns, profiles, reported, reserved) && agent in conns
    ensures WithinCapacity(conns - {agent}, profiles - {agent}, reported - {agent}, reserved - {Slot(agent, conns[agent])})
  {
  }

  lemma DropKeepsCorrelation(m: Manager, agent: AgentId, reason: string)
    requires Correlation(m) && agent in m.conns
    ensures Correlation(Drop(m, agent, reason))
  {
    hide PendingAwaited, ProgressBounded, ResultsCorrelated;
    var lost := OwnedBy(m, agent, m.conns[agent]);
    LoseRequests(m.conns, m.log.live, m.log.requests, m.owners, m.expectations, agent, lost);
    DropKeepsWaiters(m, agent, reason);
    DropKeepsResults(m, agent, reason);
  }

  lemma DropKeepsWaiters(m: Manager, agent: AgentId, reason: string)
    requires PendingAwaited(m.log.live.Keys, m.owners.Keys, m.waiters, m.futures) && ProgressBounded(m.owners.Keys, m.progress)
    requires agent in m.conns
    ensures var n := Drop(m, agent, reason);
      && PendingAwaited(n.log.live.Keys, n.owners.Keys, n.waiters, n.futures) && ProgressBounded(n.owners.Keys, n.progress)
  {
    hide OwnedBy;
  }

  lemma DropKeepsResults(m: Manager, agent: AgentId, reason: string)
    requires ResultsCorrelated(m.log.requests, m.futures, m.log.validated) && agent in m.conns
    ensures var n := Drop(m, agent, reason); ResultsCorrelated(n.log.requests, n.futures, n.log.validated)
  {
    hide OwnedBy, ResultMatches;
  }

  lemma DropKeepsReplayProtection(m: Manager, agent: AgentId, reason: string)
    requires SocketsDistinct(m.conns, m.log.live, m.log.usedSockets) && ReplayProtection(m) && agent in m.conns
    ensures ReplayProtection(Drop(m, agent, reason))
  {
    var n := Drop(m, agent, reason);
    forall w | w in n.sessions ensures w in n.conns.Values {
      var a :| a in m.conns && m.conns[a] == w;
      assert a in n.conns && n.conns[a] == w;
    }
  }

  lemma DropKeeps(m: Manager, agent: AgentId, reason: string)
    requires Invariant(m) && agent in m.conns
    ensures Invariant(Drop(m, agent, reason))
  {
    DropKeepsAccounting(m, agent, reason);
    DropKeepsCorrelation(m, agent, reason);
    DropKeepsReplayProtection(m, agent, reason);
  }

  /** Closing forgets every slot of the agent, but only its current socket ever has any. */
  lemma {:induction false} CloseIsDrop(m: Manager, agent: AgentId)
    requires SlotsBalanced(m.conns, m.reserved, m.log.live) && agent in m.conns
    ensures Close(m, agent) == Drop(m, agent, "agent connection closed")
  {
    assert m.reserved - SlotsOf(m, agent) - {Slot(agent, m.conns[agent])} == m.reserved - {Slot(agent, m.conns[agent])};
  }

  lemma {:induction false} CloseAgain(m: Manager, agent: AgentId)
    requires SlotsBalanced(m.conns, m.reserved, m.log.live)
    requires m.profiles.Keys == m.conns.Keys == m.reported.Keys && agent !in m.conns
    ensures Close(m, agent) == m
  {
    assert m.reserved - SlotsOf(m, agent) == m.reserved;
    assert m.conns - {agent} == m.conns && m.profiles - {agent} == m.profiles && m.reported - {agent} == m.reported;
  }

  lemma CloseKeeps(m: Manager, agent: AgentId)
    requires Invariant(m)
    ensures Invariant(Close(m, agent))
  {
    if agent in m.conns {
      CloseIsDrop(m, agent);
      DropKeeps(m, agent, "agent connection closed");
    } else {
      CloseAgain(m, agent);
    }
  }

  /** Replacing a socket is losing the old one and then connecting. */
  lemma {:induction false} ReplaceIsDropThenConnect(m: Manager, agent: AgentId, socket: Socket)
    requires agent in m.conns && m.conns[agent] != socket
    ensures Connect(m, agent, socket) == Connect(Drop(m, agent, "agent connection replaced"), agent, socket)
  {
    var d := Drop(m, agent, "agent connection replaced");
    assert m.conns[agent := socket] == d.conns[agent := socket];
    assert m.profiles[agent := LEGACY_AGENT_PROFILE] == d.profiles[agent := LEGACY_AGENT_PROFILE];
    assert m.reported[agent := 0] == d.reported[agent := 0];
  }

  lemma FirstConnectKeepsAccounting(m: Manager, agent: AgentId, socket: Socket)
    requires Accounting(m) && agent !in m.conns && socket !in m.log.usedSockets
    ensures Accounting(Connect(m, agent, socket))
  {
    hide Connect, SlotsBalanced, WithinCapacity;
    FirstConnectTables(m, agent, socket);
    NewSocketHasNoSlots(m.conns, m.reserved, m.log.live, m.log.usedSockets, agent, socket);
    CapacityOfNewAgent(m.conns, m.profiles, m.reported, m.reserved, agent, socket);
  }

  lemma FirstConnectTables(m: Manager, agent: AgentId, socket: Socket)
    requires agent !in m.conns
    ensures Connect(m, agent, socket) ==
      m.(conns := m.conns[agent := socket], profiles := m.profiles[agent := LEGACY_AGENT_PROFILE],
         reported := m.reported[agent := 0], log := m.log.(usedSockets := m.log.usedSockets + {socket}))
  {
    hide LoseSocket;
  }

  lemma CapacityOfNewAgent(conns: map<AgentId, Socket>, profiles: map<AgentId, Profile>, reported: map<AgentId, int>,
      reserved: map<Slot, int>, agent: AgentId, socket: Socket)
    requires WithinCapacity(conns, profiles, reported, reserved) && Slot(agent, socket) !in reserved
    ensures WithinCapacity(conns[agent := socket], profiles[agent := LEGACY_AGENT_PROFILE], reported[agent := 0], reserved)
  {
  }

  lemma FirstConnectKeepsCorrelation(m: Manager, agent: AgentId, socket: Socket)
    requires Correlation(m) && SocketsDistinct(m.conns, m.log.live, m.log.usedSockets)
    requires agent !in m.conns && socket !in m.log.usedSockets
    ensures Correlation(Connect(m, agent, socket))
  {
  }

  lemma FirstConnectKeepsReplayProtection(m: Manager, agent: AgentId, socket: Socket)
    requires ReplayProtection(m) && SocketsDistinct(m.conns, m.log.live, m.log.usedSockets)
    requires agent !in m.conns && socket !in m.log.usedSockets
    ensures ReplayProtection(Connect(m, agent, socket))
  {
    var n := Connect(m, agent, socket);
    forall w | w in n.sessions ensures w in n.conns.Values {
      var a :| a in m.conns && m.conns[a] == w;
      assert a in n.conns && n.conns[a] == w;
    }
  }

  lemma ConnectKeeps(m: Manager, agent: AgentId, socket: Socket)
    requires Invariant(m) && socket !in m.log.usedSockets
    ensures Invariant(Connect(m, agent, socket))
  {
    var d := m;
    if agent in m.conns {
      ReplaceIsDropThenConnect(m, agent, socket);
      d := Drop(m, agent, "agent connection replaced");
      DropKeeps(m, agent, "agent connection replaced");
    }
    FirstConnectKeepsAccounting(d, agent, socket);
    FirstConnectKeepsCorrelation(d, agent, socket);
    FirstConnectKeepsReplayProtection(d, agent, socket);
  }

  lemma ResetKeepsAccounting(m: Manager)
    requires Accounting(m)
    ensures Accounting(Reset(m))
  {
    assert Reset(m).futures.Keys == m.futures.Keys;
  }

  lemma ResetKeepsCorrelation(m: Manager)
    requires Correlation(m)
    ensures Correlation(Reset(m))
  {
  }

  lemma ResetKeepsReplayProtection(m: Manager)
    requires ReplayProtection(m)
    ensures ReplayProtection(Reset(m))
  {
  }

  // ---- Negotiation, activity and accepted frames ----

  lemma NegotiateKeepsAccounting(m: Manager, agent: AgentId, socket: Socket, hello: seq<Member>, session: string)
    requires Accounting(m) && Negotiate(m, agent, socket, hello, session).Ok?
    ensures Accounting(Negotiate(m, agent, socket, hello, session).value)
  {
  }

  lemma NegotiateKeepsReplayProtection(m: Manager, agent: AgentId, socket: Socket, hello: seq<Member>, session: string)
    requires SocketsDistinct(m.conns, m.log.live, m.log.usedSockets) && ReplayProtection(m)
    requires session !in m.log.usedSessions && Negotiate(m, agent, socket, hello, session).Ok?
    ensures ReplayProtection(Negotiate(m, agent, socket, hello, session).value)
  {
    OpenSession(m.sessions, m.log.usedSessions, m.log.accepted, socket, session);
  }

  lemma NegotiateKeeps(m: Manager, agent: AgentId, socket: Socket, hello: seq<Member>, session: string)
    requires Invariant(m) && session !in m.log.usedSessions
    ensures Invariant(Next(m, Negotiate(m, agent, socket, hello, session)))
  {
    hide SocketsDistinct, RequestsKnown, SlotsBalanced, WithinCapacity, RequestsRegistered, PendingAwaited, ProgressBounded,
      ResultsCorrelated, LegacyUntilGreeted, GreetedOnce, SessionsDistinct, SequencesRising;
    if Negotiate(m, agent, socket, hello, session).Ok? {
      NegotiateKeepsAccounting(m, agent, socket, hello, session);
      SameCorrelation(m, Negotiate(m, agent, socket, hello, session).value);
      NegotiateKeepsReplayProtection(m, agent, socket, hello, session);
    }
  }

  lemma FrameKeepsReplayProtection(m: Manager, agent: AgentId, socket: Socket, frame: seq<Member>)
    requires ReplayProtection(m)
    ensures ReplayProtection(ReceiveFrame(m, agent, socket, frame))
  {
    if AcceptsFrame(m, agent, socket, frame) && agent in m.profiles && !m.profiles[agent].legacy {
      var next := Accepted(agent, socket, m.sessions[socket].id, Lookup(frame, "seq").n);
      AcceptNumber(m.sessions, m.log.usedSessions, m.log.accepted, next);
      assert m.sessions[socket := Session(next.session, next.number)].Keys == m.sessions.Keys;
    }
  }

  lemma FrameKeepsTheRest(m: Manager, agent: AgentId, socket: Socket, frame: seq<Member>)
    requires Accounting(m) && Correlation(m)
    ensures Accounting(ReceiveFrame(m, agent, socket, frame)) && Correlation(ReceiveFrame(m, agent, socket, frame))
  {
  }

  lemma FrameKeeps(m: Manager, agent: AgentId, socket: Socket, frame: seq<Member>)
    requires Invariant(m)
    ensures Invariant(ReceiveFrame(m, agent, socket, frame))
  {
    FrameKeepsTheRest(m, agent, socket, frame);
    FrameKeepsReplayProtection(m, agent, socket, frame);
  }

  lemma ActivityKeepsAccounting(m: Manager, agent: AgentId, socket: Socket, active: Value)
    requires Accounting(m)
    ensures Accounting(Next(m, UpdateActivity(m, agent, socket, active)))
  {
    hide SocketsDistinct, RequestsKnown, SlotsBalanced;
  }

  lemma ActivityKeepsReplayProtection(m: Manager, agent: AgentId, socket: Socket, active: Value)
    requires ReplayProtection(m)
    ensures ReplayProtection(Next(m, UpdateActivity(m, agent, socket, active)))
  {
  }

  lemma ActivityKeepsCorrelation(m: Manager, agent: AgentId, socket: Socket, active: Value)
    requires Correlation(m)
    ensures Correlation(Next(m, UpdateActivity(m, agent, socket, active)))
  {
  }

  lemma ActivityKeeps(m: Manager, agent: AgentId, socket: Socket, active: Value)
    requires Invariant(m)
    ensures Invariant(Next(m, UpdateActivity(m, agent, socket, active)))
  {
    ActivityKeepsAccounting(m, agent, socket, active);
    ActivityKeepsCorrelation(m, agent, socket, active);
    ActivityKeepsReplayProtection(m, agent, socket, active);
  }

  // ---- Requests ----

  lemma BeginKeepsSockets(m: Manager, key: Key, request: Request)
    requires SocketsDistinct(m.conns, m.log.live, m.log.usedSockets)
    requires RequestsKnown(m.log.live, m.futures.Keys, m.log.requests)
    requires key !in m.futures && key.kind == request.Kind() && Begin(m, key, request).Ok?
    ensures var n := Begin(m, key, request).value;
      && SocketsDistinct(n.conns, n.log.live, n.log.usedSockets)
      && RequestsKnown(n.log.live, n.futures.Keys, n.log.requests)
  {
    BeginTables(m, key, request);
    OneMoreRequest(m.conns, m.log.live, m.log.usedSockets, m.futures.Keys, m.log.requests, key, request);
    hide Begin, SocketsDistinct, RequestsKnown;
  }

  /** What `Begin` changes in the tables those two speak of. */
  lemma BeginTables(m: Manager, key: Key, request: Request)
    requires Begin(m, key, request).Ok?
    ensures key.agent in m.conns
    ensures var n := Begin(m, key, request).value;
      && n.conns == m.conns && n.futures.Keys == m.futures.Keys + {key} && n.log.usedSockets == m.log.usedSockets
      && n.log.live == m.log.live[key := m.conns[key.agent]] && n.log.requests == m.log.requests[key := request]
  {
    hide RequestError, EffectiveActiveRuns;
  }

  lemma OneMoreRequest(conns: map<AgentId, Socket>, live: map<Key, Socket>, used: set<Socket>, futures: set<Key>,
                       requests: map<Key, Request>, key: Key, request: Request)
    requires SocketsDistinct(conns, live, used) && RequestsKnown(live, futures, requests)
    requires key.agent in conns && key !in futures && key.kind == request.Kind()
    ensures SocketsDistinct(conns, live[key := conns[key.agent]], used)
    ensures RequestsKnown(live[key := conns[key.agent]], futures + {key}, requests[key := request])
  {
  }

  lemma BeginKeepsSlots(m: Manager, key: Key, request: Request)
    requires SlotsBalanced(m.conns, m.reserved, m.log.live)
    requires key !in m.log.live && Begin(m, key, request).Ok?
    ensures var n := Begin(m, key, request).value;
      SlotsBalanced(n.conns, n.reserved, n.log.live)
  {
    TakeSlot(m.conns, m.reserved, m.log.live, key);
  }

  lemma BeginKeepsCapacity(m: Manager, key: Key, request: Request)
    requires WithinCapacity(m.conns, m.profiles, m.reported, m.reserved) && Begin(m, key, request).Ok?
    ensures var n := Begin(m, key, request).value;
      WithinCapacity(n.conns, n.profiles, n.reported, n.reserved)
  {
    hide RequestError;
  }

  lemma BeginKeepsRequests(m: Manager, key: Key, request: Request)
    requires RequestsRegistered(m.conns, m.log.live, m.log.requests, m.owners, m.expectations)
    requires key !in m.log.live && key.kind == request.Kind() && Begin(m, key, request).Ok?
    ensures var n := Begin(m, key, request).value;
      RequestsRegistered(n.conns, n.log.live, n.log.requests, n.owners, n.expectations)
  {
    RegisterRequest(m.conns, m.log.live, m.log.requests, m.owners, m.expectations, key, request);
  }

  lemma BeginKeepsWaiters(m: Manager, key: Key, request: Request)
    requires PendingAwaited(m.log.live.Keys, m.owners.Keys, m.waiters, m.futures) && ProgressBounded(m.owners.Keys, m.progress)
    requires Begin(m, key, request).Ok?
    ensures var n := Begin(m, key, request).value;
      && PendingAwaited(n.log.live.Keys, n.owners.Keys, n.waiters, n.futures)
      && ProgressBounded(n.owners.Keys, n.progress)
  {
  }

  lemma BeginKeepsResults(m: Manager, key: Key, request: Request)
    requires ResultsCorrelated(m.log.requests, m.futures, m.log.validated)
    requires key !in m.log.requests && Begin(m, key, request).Ok?
    ensures var n := Begin(m, key, request).value;
      ResultsCorrelated(n.log.requests, n.futures, n.log.validated)
  {
  }

  lemma BeginKeepsReplayProtection(m: Manager, key: Key, request: Request)
    requires ReplayProtection(m) && Begin(m, key, request).Ok?
    ensures ReplayProtection(Begin(m, key, request).value)
  {
  }

  lemma BeginKeeps(m: Manager, key: Key, request: Request)
    requires Invariant(m) && key !in m.futures && key.kind == request.Kind() && Begin(m, key, request).Ok?
    ensures Invariant(Begin(m, key, request).value)
  {
    BeginKeepsSockets(m, key, request);
    BeginKeepsSlots(m, key, request);
    BeginKeepsCapacity(m, key, request);
    BeginKeepsRequests(m, key, request);
    BeginKeepsWaiters(m, key, request);
    BeginKeepsResults(m, key, request);
    BeginKeepsReplayProtection(m, key, request);
  }

  lemma ReturnKeepsSlots(m: Manager, key: Key)
    requires SlotsBalanced(m.conns, m.reserved, m.log.live) && key in m.log.live
    ensures var n := Return(m, key, m.log.live[key]);
      SlotsBalanced(n.conns, n.reserved, n.log.live)
  {
    GiveSlotBack(m.conns, m.reserved, m.log.live, key);
  }

  /** A slot that is given back was counted, unless its socket is gone already. */
  lemma HeldSlotIsCounted(conns: map<AgentId, Socket>, reserved: map<Slot, int>, live: map<Key, Socket>, key: Key)
    requires SlotsBalanced(conns, reserved, live) && key in live
    ensures var slot := Slot(key.agent, live[key]);
      if Connected(conns, slot.agent, slot.socket) then SlotCount(reserved, slot) > 0 else slot !in reserved
  {
    assert key in Holding(live, Slot(key.agent, live[key]));
  }

  lemma ReturnKeepsCapacity(m: Manager, key: Key)
    requires WithinCapacity(m.conns, m.profiles, m.reported, m.reserved) && key in m.log.live
    requires var slot := Slot(key.agent, m.log.live[key]);
      if Connected(m.conns, slot.agent, slot.socket) then SlotCount(m.reserved, slot) > 0 else slot !in m.reserved
    ensures var n := Return(m, key, m.log.live[key]);
      WithinCapacity(n.conns, n.profiles, n.reported, n.reserved)
  {
    hide ReleaseSlot, WithinCapacity;
    ReleaseKeepsCapacity(m.(waiters := m.waiters - {key}, owners := m.owners - {key}, expectations := m.expectations - {key},
                            progress := m.progress - {key}, log := m.log.(live := m.log.live - {key})),
      key.agent, m.log.live[key]);
  }

  lemma ReleaseKeepsCapacity(m: Manager, agent: AgentId, socket: Socket)
    requires WithinCapacity(m.conns, m.profiles, m.reported, m.reserved)
    requires var slot := Slot(agent, socket);
      if Connected(m.conns, agent, socket) then SlotCount(m.reserved, slot) > 0 else slot !in m.reserved
    ensures var n := ReleaseSlot(m, agent, socket);
      WithinCapacity(n.conns, n.profiles, n.reported, n.reserved)
  {
  }

  lemma ForgetRequest(
    conns: map<AgentId, Socket>, live: map<Key, Socket>, requests: map<Key, Request>,
    owners: map<Key, Socket>, expectations: map<Key, Request>, futures: set<Key>, used: set<Socket>, key: Key)
    requires SocketsDistinct(conns, live, used) && RequestsKnown(live, futures, requests)
    requires RequestsRegistered(conns, live, requests, owners, expectations)
    ensures SocketsDistinct(conns, live - {key}, used) && RequestsKnown(live - {key}, futures, requests)
    ensures RequestsRegistered(conns, live - {key}, requests, owners - {key}, expectations - {key})
  {
  }

  lemma ForgetWaiter(
    live: map<Key, Socket>, owners: map<Key, Socket>, waiters: set<Key>, futures: map<Key, Future>,
    progress: map<Key, Usage>, key: Key)
    requires PendingAwaited(live.Keys, owners.Keys, waiters, futures) && ProgressBounded(owners.Keys, progress)
    ensures PendingAwaited((live - {key}).Keys, (owners - {key}).Keys, waiters - {key}, futures)
    ensures ProgressBounded((owners - {key}).Keys, progress - {key})
  {
  }

  /** What `Return` changes, beside the slot count and the profile. */
  lemma ReturnTables(m: Manager, key: Key, socket: Socket)
    ensures var n := Return(m, key, socket);
      && n.conns == m.conns && n.reported == m.reported && n.sessions == m.sessions && n.futures == m.futures
      && n.owners == m.owners - {key} && n.waiters == m.waiters - {key}
      && n.expectations == m.expectations - {key} && n.progress == m.progress - {key}
      && n.log == m.log.(live := m.log.live - {key})
      && n.profiles.Keys == m.profiles.Keys
      && (forall a :: a in m.profiles ==> n.profiles[a].legacy == m.profiles[a].legacy)
  {
    hide ReleaseSlot;
    ReleaseTables(m.(waiters := m.waiters - {key}, owners := m.owners - {key}, expectations := m.expectations - {key},
                     progress := m.progress - {key}, log := m.log.(live := m.log.live - {key})), key.agent, socket);
  }

  lemma ReleaseTables(m: Manager, agent: AgentId, socket: Socket)
    ensures var n := ReleaseSlot(m, agent, socket);
      && n == m.(reserved := n.reserved, profiles := n.profiles)
      && n.profiles.Keys == m.profiles.Keys
      && (forall a :: a in m.profiles ==> n.profiles[a].legacy == m.profiles[a].legacy)
  {
    hide OneLess, EffectiveActiveRuns;
  }

  lemma ReturnKeeps(m: Manager, key: Key)
    requires Invariant(m) && key in m.log.live
    ensures Invariant(Return(m, key, m.log.live[key]))
  {
    var n := Return(m, key, m.log.live[key]);
    ReturnTables(m, key, m.log.live[key]);
    ForgetRequest(m.conns, m.log.live, m.log.requests, m.owners, m.expectations, m.futures.Keys, m.log.usedSockets, key);
    ForgetWaiter(m.log.live, m.owners, m.waiters, m.futures, m.progress, key);
    ReturnKeepsSlots(m, key);
    HeldSlotIsCounted(m.conns, m.reserved, m.log.live, key);
    ReturnKeepsCapacity(m, key);
    SameReplayProtection(m, n);
  }

  /** Steps that only settle one future, unregistering a waiter at most once it has its answer. */
  lemma SettleKeepsCorrelation(m: Manager, key: Key, outcome: Outcome)
    requires Correlation(m)
    requires key in m.futures && key in m.log.requests ==> Correlated(m.log.requests[key], Settle(m.futures[key], outcome))
    ensures Correlation(SettleKey(m, key, outcome))
  {
  }

  lemma SettleKeepsTheRest(m: Manager, key: Key, outcome: Outcome)
    requires Accounting(m) && ReplayProtection(m)
    ensures Accounting(SettleKey(m, key, outcome)) && ReplayProtection(SettleKey(m, key, outcome))
  {
    assert SettleKey(m, key, outcome).futures.Keys == m.futures.Keys;
  }

  lemma SettleKeeps(m: Manager, key: Key, outcome: Outcome)
    requires Invariant(m)
    requires key in m.futures && key in m.log.requests ==> Correlated(m.log.requests[key], Settle(m.futures[key], outcome))
    ensures Invariant(SettleKey(m, key, outcome))
  {
    SettleKeepsCorrelation(m, key, outcome);
    SettleKeepsTheRest(m, key, outcome);
  }

  lemma UnregisterKeeps(m: Manager, key: Key)
    requires Invariant(m) && (key in m.waiters && key in m.futures ==> m.futures[key].Done?)
    ensures Invariant(m.(waiters := m.waiters - {key}))
  {
  }

  lemma ReplyKeeps(m: Manager, agent: AgentId, id: string, text: Value)
    requires Invariant(m)
    ensures Invariant(DeliverReply(m, agent, id, text))
  {
    var key := Key(Chat, agent, id);
    var settled := if Open(m, key) then SettleKey(m, key, Text(text)) else m;
    SettleKeeps(m, key, Text(text));
    UnregisterKeeps(settled, key);
  }

  // ---- Every step, and every run ----

  lemma OpenRequestsAreKnown(m: Manager, key: Key)
    requires Invariant(m) && Open(m, key)
    ensures key in m.owners && key in m.log.requests && key.kind == m.log.requests[key].Kind()
    ensures key in m.expectations <==> key.kind != Chat
    ensures key in m.expectations ==> m.expectations[key] == m.log.requests[key]
  {
  }

  lemma ValidatedIsCorrelated(m: Manager, agent: AgentId, id: string, value: Option<ChangeSet>)
    requires Invariant(m)
    ensures var key := Key(Coding, agent, id); var checked := ValidateChangeSet(m, agent, id, value);
      checked.Ok? && checked.value.Some? ==>
        key in m.log.requests && Correlated(m.log.requests[key], Done(Captured(checked.value.value)))
  {
    hide Accounting, Correlation, ReplayProtection;
    if Open(m, Key(Coding, agent, id)) {
      OpenRequestsAreKnown(m, Key(Coding, agent, id));
    }
  }

  lemma RememberKeeps(m: Manager, key: Key, changeSet: ChangeSet)
    requires Invariant(m) && key in m.log.requests && Correlated(m.log.requests[key], Done(Captured(changeSet)))
    ensures Invariant(m.(log := m.log.(validated := m.log.validated + {(key, changeSet)})))
  {
  }

  lemma ValidateKeeps(m: Manager, agent: AgentId, id: string, value: Option<ChangeSet>)
    requires Invariant(m)
    ensures Invariant(RememberValidated(m, agent, id, value))
  {
    ValidatedIsCorrelated(m, agent, id, value);
    var checked := ValidateChangeSet(m, agent, id, value);
    if checked.Ok? && checked.value.Some? {
      RememberKeeps(m, Key(Coding, agent, id), checked.value.value);
    }
  }

  lemma ChangeSetKeeps(m: Manager, agent: AgentId, id: string, value: Option<ChangeSet>)
    requires Invariant(m)
    ensures Invariant(DeliverChangeSet(m, agent, id, value))
  {
    hide SocketsDistinct, RequestsKnown, SlotsBalanced, WithinCapacity, RequestsRegistered, PendingAwaited, ProgressBounded,
      ResultsCorrelated, LegacyUntilGreeted, GreetedOnce, SessionsDistinct, SequencesRising;
    ValidatedIsCorrelated(m, agent, id, value);
    match ValidateChangeSet(m, agent, id, value)
    case Err(problem) => SettleKeeps(m, Key(Coding, agent, id), problem);
    case Ok(None) =>
    case Ok(Some(changeSet)) => SettleKeeps(m, Key(Coding, agent, id), Captured(changeSet));
  }

  lemma ActionResultKeeps(m: Manager, agent: AgentId, id: string, value: Option<ActionResult>, socket: Socket)
    requires Invariant(m)
    ensures Invariant(DeliverActionResult(m, agent, id, value, socket))
  {
    var key := Key(Workspace, agent, id);
    if OpenOnSocket(m, key, socket) && key in m.expectations {
      OpenRequestsAreKnown(m, key);
      SettleKeeps(m, key, InvalidPayload);
      SettleKeeps(m, key, Mismatch);
      if value.Some? && ResultMatches(m.expectations[key], value.value) {
        SettleKeeps(m, key, Acted(value.value));
      }
    }
  }

  lemma CountProgress(owners: set<Key>, progress: map<Key, Usage>, key: Key, next: Usage)
    requires ProgressBounded(owners, progress) && key in progress
    requires next.frames <= MAX_PROGRESS_FRAMES && next.bytes <= MAX_PROGRESS_BYTES
    ensures ProgressBounded(owners, progress[key := next])
  {
  }

  lemma ProgressKeeps(m: Manager, agent: AgentId, id: string, size: nat)
    requires Invariant(m)
    ensures Invariant(DeliverProgress(m, agent, id, size))
  {
    hide SocketsDistinct, RequestsKnown, SlotsBalanced, WithinCapacity, RequestsRegistered, PendingAwaited,
      ResultsCorrelated, LegacyUntilGreeted, GreetedOnce, SessionsDistinct, SequencesRising;
    var key := Key(Chat, agent, id);
    if AcceptsProgress(m, key, size) {
      CountProgress(m.owners.Keys, m.progress, key, Usage(m.progress[key].frames + 1, m.progress[key].bytes + size));
    }
  }

  lemma CompletionKeeps(m: Manager, agent: AgentId, id: string, changeSet: ChangeSet)
    requires Invariant(m) && (Key(Coding, agent, id), changeSet) in m.log.validated
    ensures Invariant(CompleteChangeSet(m, agent, id, changeSet))
  {
    SettleKeeps(m, Key(Coding, agent, id), Captured(changeSet));
  }

  /** Giving up and remote errors put nothing in a future that needs correlating. */
  lemma ErrorKeeps(m: Manager, key: Key, outcome: Outcome)
    requires Invariant(m) && (outcome.Cancelled? || outcome.RemoteError? || outcome.InvalidPayload?)
    ensures Invariant(SettleKey(m, key, outcome))
  {
    SettleKeeps(m, key, outcome);
  }

  predicate IsDelivery(e: Event) {
    || e.ReplyIn? || e.ProgressIn? || e.ChangeSetChecked? || e.ChangeSetDone? || e.ChangeSetIn?
    || e.CodingFailureIn? || e.ActionResultIn? || e.ActionFailureIn?
  }

  lemma DeliveryKeepsInvariant(m: Manager, e: Event)
    requires Invariant(m) && Possible(m, e) && IsDelivery(e)
    ensures Invariant(Apply(m, e))
  {
    hide Invariant, DeliverReply, DeliverProgress, RememberValidated, CompleteChangeSet, DeliverChangeSet,
      DeliverCodingFailure, DeliverActionResult, DeliverActionFailure;
    match e
    case ReplyIn(agent, id, text) => ReplyKeeps(m, agent, id, text);
    case ProgressIn(agent, id, size) => ProgressKeeps(m, agent, id, size);
    case ChangeSetChecked(agent, id, value) => ValidateKeeps(m, agent, id, value);
    case ChangeSetDone(agent, id, changeSet) => CompletionKeeps(m, agent, id, changeSet);
    case ChangeSetIn(agent, id, value) => ChangeSetKeeps(m, agent, id, value);
    case CodingFailureIn(agent, id, error) => FailureKeeps(m, agent, id, error, 0);
    case ActionResultIn(agent, id, result, socket) => ActionResultKeeps(m, agent, id, result, socket);
    case ActionFailureIn(agent, id, error, socket) => FailureKeeps(m, agent, id, error, socket);
  }

  lemma FailureKeeps(m: Manager, agent: AgentId, id: string, error: Value, socket: Socket)
    requires Invariant(m)
    ensures Invariant(DeliverCodingFailure(m, agent, id, error))
    ensures Invariant(DeliverActionFailure(m, agent, id, error, socket))
  {
    hide Invariant, SettleKey, Open, OpenOnSocket;
    ErrorKeeps(m, Key(Coding, agent, id), FailureOutcome(error));
    ErrorKeeps(m, Key(Workspace, agent, id), FailureOutcome(error));
  }

  lemma StepKeepsInvariant(m: Manager, e: Event)
    requires Invariant(m) && Possible(m, e)
    ensures Invariant(Apply(m, e))
  {
    hide Accounting, Correlation, ReplayProtection, Connect, Drop, Close, Reset, Negotiate, ReceiveFrame, UpdateActivity,
      Begin, Return, SettleKey;
    match e
    case Connected(agent, socket) => ConnectKeeps(m, agent, socket);
    case Disconnected(agent, socket) => if IsActiveSocket(m, agent, socket) { DropKeeps(m, agent, "agent disconnected"); }
    case Closed(agent) => CloseKeeps(m, agent);
    case ShutDown => ResetKeepsAccounting(m); ResetKeepsCorrelation(m); ResetKeepsReplayProtection(m);
    case HelloIn(agent, socket, hello, session) => NegotiateKeeps(m, agent, socket, hello, session);
    case FrameIn(agent, socket, frame) => FrameKeeps(m, agent, socket, frame);
    case ActivityIn(agent, socket, active) => ActivityKeeps(m, agent, socket, active);
    case Began(key, request) => if Begin(m, key, request).Ok? { BeginKeeps(m, key, request); }
    case Returned(key) => ReturnKeeps(m, key);
    case GaveUp(key) => ErrorKeeps(m, key, Cancelled);
    case _ => DeliveryKeepsInvariant(m, e);
  }

  lemma {:induction false} RunKeepsInvariant(m: Manager, events: seq<Event>)
    requires Invariant(m) && PossibleRun(m, events)
    ensures Invariant(Run(m, events))
    decreases events
  {
    if events != [] {
      StepKeepsInvariant(m, events[0]);
      RunKeepsInvariant(Apply(m, events[0]), events[1..]);
    }
  }

  lemma {:induction false} ReachableInvariant(events: seq<Event>)
    requires PossibleRun(EMPTY, events)
    ensures Invariant(Run(EMPTY, events))
  {
    RunKeepsInvariant(EMPTY, events);
  }

  // ---- The past is kept ----

  /** No checked change set and no frame number is dropped from the past. */
  predicate PastKept(before: History, after: History) {
    before.validated <= after.validated && before.accepted <= after.accepted
  }

  lemma SettlingKeepsLog(m: Manager, key: Key, outcome: Outcome)
    ensures SettleKey(m, key, outcome).log == m.log && SettleKey(m, key, outcome).sessions == m.sessions
  {
  }

  lemma LosingKeepsLog(m: Manager, agent: AgentId, socket: Socket, reason: string)
    ensures LoseSocket(m, agent, socket, reason).log == m.log
  {
    hide OwnedBy;
  }

  lemma ConnectKeepsPast(m: Manager, agent: AgentId, socket: Socket)
    ensures PastKept(m.log, Connect(m, agent, socket).log) && Connect(m, agent, socket).log.requests == m.log.requests
  {
    hide LoseSocket;
    if agent in m.conns {
      LosingKeepsLog(m.(conns := m.conns[agent := socket], log := m.log.(usedSockets := m.log.usedSockets + {socket})),
        agent, m.conns[agent], "agent connection replaced");
    }
  }

  lemma DisconnectKeepsLog(m: Manager, agent: AgentId, socket: Socket)
    ensures Disconnect(m, agent, socket).log == m.log
  {
    hide LoseSocket;
    if agent in m.conns {
      LosingKeepsLog(m, agent, m.conns[agent], "agent disconnected");
    }
  }

  lemma CloseKeepsLog(m: Manager, agent: AgentId)
    ensures Close(m, agent).log == m.log
  {
    hide LoseSocket, SlotsOf;
    if agent in m.conns {
      LosingKeepsLog(Forget(m, agent).(reserved := m.reserved - SlotsOf(m, agent)), agent, m.conns[agent],
        "agent connection closed");
    }
  }

  lemma ResetKeepsLog(m: Manager)
    ensures Reset(m).log == m.log
  {
    hide CancelAll;
  }

  lemma BeginKeepsPast(m: Manager, key: Key, request: Request)
    ensures Next(m, Begin(m, key, request)).log.validated == m.log.validated
    ensures Next(m, Begin(m, key, request)).log.accepted == m.log.accepted
  {
    hide RequestError, IsAvailable, EffectiveActiveRuns;
  }

  lemma RequestKeepsPast(m: Manager, e: Event)
    requires Possible(m, e) && (e.Began? || e.Returned? || e.GaveUp?)
    ensures PastKept(m.log, Apply(m, e).log) && (!e.Began? ==> Apply(m, e).log.requests == m.log.requests)
  {
    hide Begin, Return, SettleKey;
    match e
    case Began(key, request) => BeginKeepsPast(m, key, request);
    case Returned(key) => ReturnTables(m, key, m.log.live[key]);
    case GaveUp(key) => SettlingKeepsLog(m, key, Cancelled);
  }

  lemma HelloKeepsPast(m: Manager, agent: AgentId, socket: Socket, hello: seq<Member>, session: string)
    ensures Next(m, Negotiate(m, agent, socket, hello, session)).log.validated == m.log.validated
    ensures Next(m, Negotiate(m, agent, socket, hello, session)).log.accepted == m.log.accepted
    ensures Next(m, Negotiate(m, agent, socket, hello, session)).log.requests == m.log.requests
  {
    hide HelloError, EffectiveActiveRuns, CapabilitySet, Strip, Lookup, Max;
  }

  lemma NumberKeepsPast(m: Manager, agent: AgentId, socket: Socket, frame: seq<Member>)
    ensures PastKept(m.log, ReceiveFrame(m, agent, socket, frame).log)
    ensures ReceiveFrame(m, agent, socket, frame).log.requests == m.log.requests
  {
    hide AcceptsFrame, Lookup;
  }

  lemma ActivityKeepsLog(m: Manager, agent: AgentId, socket: Socket, active: Value)
    ensures Next(m, UpdateActivity(m, agent, socket, active)).log == m.log
  {
    hide ActivityError, ActiveReservedSlots;
  }

  lemma FrameKeepsPast(m: Manager, e: Event)
    requires Possible(m, e) && (e.HelloIn? || e.FrameIn? || e.ActivityIn?)
    ensures PastKept(m.log, Apply(m, e).log) && Apply(m, e).log.requests == m.log.requests
  {
    hide Negotiate, ReceiveFrame, UpdateActivity, Next;
    match e
    case HelloIn(agent, socket, hello, session) => HelloKeepsPast(m, agent, socket, hello, session);
    case FrameIn(agent, socket, frame) => NumberKeepsPast(m, agent, socket, frame);
    case ActivityIn(agent, socket, active) => ActivityKeepsLog(m, agent, socket, active);
  }

  lemma ReplyKeepsLog(m: Manager, agent: AgentId, id: string, text: Value)
    ensures DeliverReply(m, agent, id, text).log == m.log && DeliverReply(m, agent, id, text).sessions == m.sessions
  {
    hide SettleKey, Open;
    SettlingKeepsLog(m.(waiters := m.waiters - {Key(Chat, agent, id)}), Key(Chat, agent, id), Text(text));
  }

  lemma ProgressKeepsLog(m: Manager, agent: AgentId, id: string, size: nat)
    ensures DeliverProgress(m, agent, id, size).log == m.log && DeliverProgress(m, agent, id, size).sessions == m.sessions
  {
    hide AcceptsProgress;
  }

  lemma CheckKeepsPast(m: Manager, agent: AgentId, id: string, value: Option<ChangeSet>)
    ensures PastKept(m.log, RememberValidated(m, agent, id, value).log)
    ensures RememberValidated(m, agent, id, value).log.requests == m.log.requests
  {
    var checked := ValidateChangeSet(m, agent, id, value);
    hide ValidateChangeSet, RememberValidated;
    RememberedIs(m, agent, id, value);
    SameIsKept(m.log);
    if checked.Ok? && checked.value.Some? {
      OneMoreCheck(m.log, (Key(Coding, agent, id), checked.value.value));
    }
  }

  lemma SameIsKept(log: History)
    ensures PastKept(log, log)
  {
  }

  lemma OneMoreCheck(log: History, checked: (Key, ChangeSet))
    ensures PastKept(log, log.(validated := log.validated + {checked}))
  {
  }

  lemma RememberedIs(m: Manager, agent: AgentId, id: string, value: Option<ChangeSet>)
    ensures var checked := ValidateChangeSet(m, agent, id, value);
      RememberValidated(m, agent, id, value).log ==
        if checked.Ok? && checked.value.Some?
        then m.log.(validated := m.log.validated + {(Key(Coding, agent, id), checked.value.value)}) else m.log
    ensures RememberValidated(m, agent, id, value).futures == m.futures
    ensures RememberValidated(m, agent, id, value).sessions == m.sessions
  {
    hide Open, MatchesRequest;
  }

  lemma CompletionKeepsLog(m: Manager, agent: AgentId, id: string, changeSet: ChangeSet)
    ensures CompleteChangeSet(m, agent, id, changeSet).log == m.log && CompleteChangeSet(m, agent, id, changeSet).sessions == m.sessions
  {
    hide SettleKey, Open;
    SettlingKeepsLog(m, Key(Coding, agent, id), Captured(changeSet));
  }

  lemma ChangeSetKeepsLog(m: Manager, agent: AgentId, id: string, value: Option<ChangeSet>)
    ensures DeliverChangeSet(m, agent, id, value).log == m.log && DeliverChangeSet(m, agent, id, value).sessions == m.sessions
  {
    hide SettleKey, Open, ValidateChangeSet, CompleteChangeSet;
    match ValidateChangeSet(m, agent, id, value)
    case Err(problem) => SettlingKeepsLog(m, Key(Coding, agent, id), problem);
    case Ok(None) =>
    case Ok(Some(changeSet)) => CompletionKeepsLog(m, agent, id, changeSet);
  }

  lemma FailureKeepsLog(m: Manager, agent: AgentId, id: string, error: Value, socket: Socket)
    ensures DeliverCodingFailure(m, agent, id, error).log == m.log && DeliverCodingFailure(m, agent, id, error).sessions == m.sessions
    ensures DeliverActionFailure(m, agent, id, error, socket).log == m.log && DeliverActionFailure(m, agent, id, error, socket).sessions == m.sessions
  {
    hide SettleKey, Open, OpenOnSocket, FailureOutcome;
    SettlingKeepsLog(m, Key(Coding, agent, id), FailureOutcome(error));
    SettlingKeepsLog(m, Key(Workspace, agent, id), FailureOutcome(error));
  }

  lemma ActionResultKeepsLog(m: Manager, agent: AgentId, id: string, value: Option<ActionResult>, socket: Socket)
    ensures DeliverActionResult(m, agent, id, value, socket).log == m.log && DeliverActionResult(m, agent, id, value, socket).sessions == m.sessions
  {
    hide SettleKey, OpenOnSocket, ResultMatches;
    SettlingKeepsLog(m, Key(Workspace, agent, id), InvalidPayload);
    SettlingKeepsLog(m, Key(Workspace, agent, id), Mismatch);
    if value.Some? {
      SettlingKeepsLog(m, Key(Workspace, agent, id), Acted(value.value));
    }
  }

  lemma TalkKeepsPast(m: Manager, e: Event)
    requires e.ReplyIn? || e.ProgressIn? || e.ChangeSetChecked? || (e.ChangeSetDone? && Possible(m, e))
    ensures PastKept(m.log, Apply(m, e).log) && Apply(m, e).log.requests == m.log.requests
  {
    hide DeliverReply, DeliverProgress, RememberValidated, CompleteChangeSet, PastKept;
    SameIsKept(m.log);
    match e
    case ReplyIn(agent, id, text) => ReplyKeepsLog(m, agent, id, text);
    case ProgressIn(agent, id, size) => ProgressKeepsLog(m, agent, id, size);
    case ChangeSetChecked(agent, id, value) => CheckKeepsPast(m, agent, id, value);
    case ChangeSetDone(agent, id, changeSet) => CompletionKeepsLog(m, agent, id, changeSet);
  }

  lemma AnswersKeepLog(m: Manager, e: Event)
    requires e.ChangeSetIn? || e.CodingFailureIn? || e.ActionResultIn? || e.ActionFailureIn?
    ensures Apply(m, e).log == m.log
  {
    hide DeliverChangeSet, DeliverCodingFailure, DeliverActionResult, DeliverActionFailure;
    match e
    case ChangeSetIn(agent, id, value) => ChangeSetKeepsLog(m, agent, id, value);
    case CodingFailureIn(agent, id, error) => FailureKeepsLog(m, agent, id, error, 0);
    case ActionResultIn(agent, id, result, socket) => ActionResultKeepsLog(m, agent, id, result, socket);
    case ActionFailureIn(agent, id, error, socket) => FailureKeepsLog(m, agent, id, error, socket);
  }

  lemma StepKeepsPast(m: Manager, e: Event)
    requires Possible(m, e)
    ensures PastKept(m.log, Apply(m, e).log) && (!e.Began? ==> Apply(m, e).log.requests == m.log.requests)
  {
    hide Connect, Disconnect, Close, Reset, Negotiate, ReceiveFrame, UpdateActivity, Begin, Return, GiveUp;
    if e.ReplyIn? || e.ProgressIn? || e.ChangeSetChecked? || e.ChangeSetDone? {
      TalkKeepsPast(m, e);
    } else if IsDelivery(e) {
      AnswersKeepLog(m, e);
    } else if e.Began? || e.Returned? || e.GaveUp? {
      RequestKeepsPast(m, e);
    } else if e.HelloIn? || e.FrameIn? || e.ActivityIn? {
      FrameKeepsPast(m, e);
    } else {
      match e
      case Connected(agent, socket) => ConnectKeepsPast(m, agent, socket);
      case Disconnected(agent, socket) => DisconnectKeepsLog(m, agent, socket);
      case Closed(agent) => CloseKeepsLog(m, agent);
      case ShutDown => ResetKeepsLog(m);
    }
  }

  // ---- Main results ----

  /** No lookup the manager makes without a default can fail. */
  lemma {:induction false} ConnectedAgentsHaveProfiles(m: Manager)
    requires Invariant(m)
    ensures m.profiles.Keys == m.conns.Keys == m.reported.Keys
    ensures m.waiters <= m.owners.Keys <= m.futures.Keys
  {
  }

  /** The requests currently holding a slot of a socket. */
  function InFlight(m: Manager, agent: AgentId, socket: Socket): nat { |Holding(m.log.live, Slot(agent, socket))| }

  /**
   In every reachable state an agent's active runs are its reported activity plus the requests in
   flight on its current socket, within its capacity; no other socket has a reservation.
   */
  lemma {:induction false} CapacityIsAccounted(events: seq<Event>, agent: AgentId, socket: Socket)
    requires PossibleRun(EMPTY, events)
    ensures var m := Run(EMPTY, events);
      && (IsActiveSocket(m, agent, socket) ==>
            && agent in m.profiles && agent in m.reported
            && SlotCount(m.reserved, Slot(agent, socket)) == InFlight(m, agent, socket)
            && m.profiles[agent].activeRuns == m.reported[agent] + InFlight(m, agent,
              socket) <= m.profiles[agent].maxConcurrency)
      && (!IsActiveSocket(m, agent, socket) ==> Slot(agent, socket) !in m.reserved)
  {
    ReachableInvariant(events);
  }

  /** A hello is never refused for announcing less capacity than is in use. */
  lemma {:induction false} NeverBelowActiveRuns(events: seq<Event>, agent: AgentId, socket: Socket, hello: seq<Member>)
    requires PossibleRun(EMPTY, events)
    ensures HelloError(Run(EMPTY, events), agent, socket, hello) != Some(BelowActiveRuns)
  {
    hide Correlation;
    ReachableInvariant(events);
  }

  /** Registered waiters wait on their agent's current socket, and pending live requests are registered. */
  lemma {:induction false} WaitersAreOnTheCurrentSocket(events: seq<Event>, key: Key)
    requires PossibleRun(EMPTY, events)
    ensures var m := Run(EMPTY, events);
      && (key in m.waiters ==> OwnsCurrentSocket(m, key))
      && (key in m.log.live && key in m.futures && m.futures[key].Pending? ==> key in m.waiters)
  {
    ReachableInvariant(events);
  }

  predicate OwnsCurrentSocket(m: Manager, key: Key) {
    key in m.owners && key in m.log.live && m.owners[key] == m.log.live[key] && IsActiveSocket(m, key.agent, m.owners[key])
  }

  /** A settled future never changes again. */
  predicate Stays(before: map<Key, Future>, after: map<Key, Future>, key: Key) {
    key in before && before[key].Done? ==> key in after && after[key] == before[key]
  }

  lemma SettlingIsFinal(m: Manager, settled: Key, outcome: Outcome, key: Key)
    ensures Stays(m.futures, m.futures, key)
    ensures Stays(m.futures, SettleKey(m, settled, outcome).futures, key)
  {
  }

  lemma ResultsKeepOutcomes(m: Manager, agent: AgentId, id: string, changeSet: Option<ChangeSet>,
    result: Option<ActionResult>, socket: Socket, key: Key)
    ensures Stays(m.futures, DeliverChangeSet(m, agent, id, changeSet).futures, key)
    ensures Stays(m.futures, DeliverActionResult(m, agent, id, result, socket).futures, key)
  {
    hide SettleKey, Stays, ResultMatches, MatchesRequest, Open, OpenOnSocket;
    forall kind, outcome ensures Stays(m.futures, SettleKey(m, Key(kind, agent, id), outcome).futures, key) {
      SettlingIsFinal(m, Key(kind, agent, id), outcome, key);
    }
    SettlingIsFinal(m, key, Cancelled, key);
  }

  lemma ReplyKeepsOutcomes(m: Manager, agent: AgentId, id: string, text: Value, key: Key)
    ensures Stays(m.futures, DeliverReply(m, agent, id, text).futures, key)
  {
    hide SettleKey, Stays, Open;
    SettlingIsFinal(m.(waiters := m.waiters - {Key(Chat, agent, id)}), Key(Chat, agent, id), Text(text), key);
  }

  lemma ErrorsKeepOutcomes(m: Manager, agent: AgentId, id: string, error: Value, socket: Socket, changeSet: ChangeSet,
      key: Key)
    ensures Stays(m.futures, DeliverCodingFailure(m, agent, id, error).futures, key)
    ensures Stays(m.futures, DeliverActionFailure(m, agent, id, error, socket).futures, key)
    ensures Stays(m.futures, CompleteChangeSet(m, agent, id, changeSet).futures, key)
  {
    hide SettleKey, Stays, FailureOutcome, Open, OpenOnSocket;
    SettlingIsFinal(m, Key(Coding, agent, id), FailureOutcome(error), key);
    SettlingIsFinal(m, Key(Workspace, agent, id), FailureOutcome(error), key);
    SettlingIsFinal(m, Key(Coding, agent, id), Captured(changeSet), key);
  }

  lemma TalkKeepsOutcomes(m: Manager, e: Event, key: Key)
    requires Possible(m, e) && (e.ReplyIn? || e.ProgressIn? || e.ChangeSetChecked?)
    ensures Stays(m.futures, Apply(m, e).futures, key)
  {
    hide Stays, DeliverReply, DeliverProgress, RememberValidated;
    match e
    case ReplyIn(agent, id, text) => ReplyKeepsOutcomes(m, agent, id, text, key);
    case ProgressIn(agent, id, size) => ChecksLeaveFutures(m, agent, id, size, None, key);
    case ChangeSetChecked(agent, id, value) => ChecksLeaveFutures(m, agent, id, 0, value, key);
  }

  lemma AnswersKeepOutcomes(m: Manager, e: Event, key: Key)
    requires Possible(m, e) && IsDelivery(e) && !e.ReplyIn? && !e.ProgressIn? && !e.ChangeSetChecked?
    ensures Stays(m.futures, Apply(m, e).futures, key)
  {
    hide Stays, DeliverChangeSet, DeliverActionResult, DeliverCodingFailure, DeliverActionFailure, CompleteChangeSet;
    match e
    case ChangeSetDone(agent, id, changeSet) => ErrorsKeepOutcomes(m, agent, id, Null, 0, changeSet, key);
    case ChangeSetIn(agent, id, value) => ResultsKeepOutcomes(m, agent, id, value, None, 0, key);
    case CodingFailureIn(agent, id, error) => ErrorsKeepOutcomes(m, agent, id, error, 0, ChangeSet("", ""), key);
    case ActionResultIn(agent, id, result, socket) => ResultsKeepOutcomes(m, agent, id, None, result, socket, key);
    case ActionFailureIn(agent, id, error, socket) => ErrorsKeepOutcomes(m, agent, id, error, socket, ChangeSet("", ""), key);
  }

  lemma DeliveryKeepsOutcomes(m: Manager, e: Event, key: Key)
    requires Possible(m, e) && IsDelivery(e)
    ensures Stays(m.futures, Apply(m, e).futures, key)
  {
    hide Apply, Possible, Stays;
    if e.ReplyIn? || e.ProgressIn? || e.ChangeSetChecked? {
      TalkKeepsOutcomes(m, e, key);
    } else {
      AnswersKeepOutcomes(m, e, key);
    }
  }

  lemma ChecksLeaveFutures(m: Manager, agent: AgentId, id: string, size: nat, value: Option<ChangeSet>, key: Key)
    ensures Stays(m.futures, DeliverProgress(m, agent, id, size).futures, key)
    ensures Stays(m.futures, RememberValidated(m, agent, id, value).futures, key)
  {
    hide AcceptsProgress, RememberValidated, Stays;
    RememberedIs(m, agent, id, value);
    SameStays(m.futures, key);
  }

  lemma SameStays(futures: map<Key, Future>, key: Key)
    ensures Stays(futures, futures, key)
  {
  }

  lemma FailingIsFinal(m: Manager, agent: AgentId, socket: Socket, reason: string, key: Key)
    ensures Stays(m.futures, FailSocketRequests(m, agent, socket, reason).futures, key)
  {
  }

  lemma LossKeepsOutcomes(m: Manager, agent: AgentId, socket: Socket, key: Key)
    ensures Stays(m.futures, Disconnect(m, agent, socket).futures, key)
    ensures Stays(m.futures, Connect(m, agent, socket).futures, key)
    ensures Stays(m.futures, Close(m, agent).futures, key)
  {
    hide FailSocketRequests, SlotsOf;
    var accepted := m.(conns := m.conns[agent := socket], log := m.log.(usedSockets := m.log.usedSockets + {socket}));
    var dropped := Forget(m, agent).(reserved := m.reserved - SlotsOf(m, agent));
    if agent in m.conns {
      FailingIsFinal(m, agent, m.conns[agent], "agent disconnected", key);
      FailingIsFinal(accepted, agent, m.conns[agent], "agent connection replaced", key);
      FailingIsFinal(dropped, agent, m.conns[agent], "agent connection closed", key);
    }
  }

  /** Hellos, other frames and activity reports touch no future, and a request only adds its own. */
  lemma OtherFutures(m: Manager, e: Event, key: Key)
    requires Possible(m, e) && (e.HelloIn? || e.FrameIn? || e.ActivityIn? || e.Began?)
    ensures Stays(m.futures, Apply(m, e).futures, key)
  {
    hide Negotiate, ReceiveFrame, UpdateActivity, RequestError, IsAvailable, EffectiveActiveRuns;
    if !e.Began? {
      FrameLeavesFutures(m, e);
    }
  }

  lemma FrameLeavesFutures(m: Manager, e: Event)
    requires Possible(m, e) && (e.HelloIn? || e.FrameIn? || e.ActivityIn?)
    ensures Apply(m, e).futures == m.futures
  {
    hide HelloError, ActivityError, AcceptsFrame, EffectiveActiveRuns, ActiveReservedSlots, CapabilitySet, Strip, Lookup;
  }

  lemma StepKeepsOutcomes(m: Manager, e: Event, key: Key)
    requires Possible(m, e)
    ensures Stays(m.futures, Apply(m, e).futures, key)
  {
    hide Connect, Disconnect, Close, Return, SettleKey, Negotiate, ReceiveFrame, UpdateActivity, Begin;
    if IsDelivery(e) {
      DeliveryKeepsOutcomes(m, e, key);
    } else if e.HelloIn? || e.FrameIn? || e.ActivityIn? || e.Began? {
      OtherFutures(m, e, key);
    } else {
      match e
      case Connected(agent, socket) => LossKeepsOutcomes(m, agent, socket, key);
      case Disconnected(agent, socket) => LossKeepsOutcomes(m, agent, socket, key);
      case Closed(agent) => LossKeepsOutcomes(m, agent, 0, key);
      case ShutDown =>
      case Returned(k) => ReturnTables(m, k, m.log.live[k]);
      case GaveUp(k) => SettlingIsFinal(m, k, Cancelled, key);
    }
  }

  lemma {:induction false} OutcomesAreFinal(m: Manager, events: seq<Event>, key: Key)
    requires PossibleRun(m, events)
    ensures Stays(m.futures, Run(m, events).futures, key)
    decreases events
  {
    if events != [] {
      StepKeepsOutcomes(m, events[0], key);
      OutcomesAreFinal(Apply(m, events[0]), events[1..], key);
    }
  }

  /** What losing `agent`'s socket does to the future of `key`. */
  predicate LostExactly(before: Manager, after: Manager, agent: AgentId, reason: string, key: Key)
    requires key in before.futures && key in after.futures
  {
    if key in before.log.live && key.agent == agent && IsActiveSocket(before, agent, before.log.live[key])
      && before.futures[key].Pending?
    then after.futures[key] == Done(ConnectionLost(reason))
    else after.futures[key] == before.futures[key]
  }

  lemma DropFailsExactly(m: Manager, agent: AgentId, reason: string, key: Key)
    requires Correlation(m) && agent in m.conns && key in m.futures
    ensures LostExactly(m, Drop(m, agent, reason), agent, reason, key)
  {
  }

  /**
   Disconnecting, closing and replacing a socket fail exactly the requests still pending on it and
   leave every other future as it was.
   */
  lemma {:induction false} LosingASocketFailsExactlyItsRequests(m: Manager, agent: AgentId, socket: Socket, key: Key)
    requires Invariant(m) && agent in m.conns && key in m.futures && socket !in m.log.usedSockets
    ensures LostExactly(m, Disconnect(m, agent, m.conns[agent]), agent, "agent disconnected", key)
    ensures LostExactly(m, Close(m, agent), agent, "agent connection closed", key)
    ensures LostExactly(m, Connect(m, agent, socket), agent, "agent connection replaced", key)
  {
    DropFailsExactly(m, agent, "agent disconnected", key);
    DropFailsExactly(m, agent, "agent connection closed", key);
    DropFailsExactly(m, agent, "agent connection replaced", key);
    CloseIsDrop(m, agent);
    ReplaceIsDropThenConnect(m, agent, socket);
  }

  /** A future never holds another request's change set or workspace result. */
  lemma {:induction false} ResultsMatchTheirRequest(events: seq<Event>, key: Key)
    requires PossibleRun(EMPTY, events)
    requires key in Run(EMPTY, events).futures
    ensures var m := Run(EMPTY, events); key in m.log.requests && Correlated(m.log.requests[key], m.futures[key])
  {
    ReachableInvariant(events);
  }

  /**
   Over all reconnects no (session, number) pair is accepted twice under a negotiated profile, and
   numbers only grow. A legacy profile accepts every frame and records no number.
   */
  lemma {:induction false} AcceptedNumbersRise(events: seq<Event>)
    requires PossibleRun(EMPTY, events)
    ensures Rising(Run(EMPTY, events).log.accepted)
  {
    ReachableInvariant(events);
  }

  /** Only the current socket's frames are accepted, and a profile is legacy until its socket negotiated. */
  lemma {:induction false} OnlyTheCurrentSocketIsHeard(events: seq<Event>, agent: AgentId, socket: Socket, frame: seq<Member>)
    requires PossibleRun(EMPTY, events)
    ensures var m := Run(EMPTY, events);
      && (AcceptsFrame(m, agent, socket, frame) ==> IsActiveSocket(m, agent, socket))
      && (IsActiveSocket(m, agent, socket) ==> agent in m.profiles && (m.profiles[agent].legacy <==> socket !in m.sessions))
  {
    ReachableInvariant(events);
  }

  /** Each socket negotiates at most once. */
  lemma {:induction false} EachSocketNegotiatesOnce(events: seq<Event>, i: nat, j: nat)
    requires PossibleRun(EMPTY, events)
    requires i < j < |Run(EMPTY, events).log.greeted|
    ensures Run(EMPTY, events).log.greeted[i] != Run(EMPTY, events).log.greeted[j]
  {
    ReachableInvariant(events);
  }
}
