/**
 The bookkeeping behind one `AgentConnectionManager`, as a value, and every atomic step it
 takes between two awaits. The chat, coding and workspace tables, which never share a key, are
 one table whose keys carry the kind of request.
 */
module ConnectionState {
  import opened Wrappers
  import opened Json

  type AgentId = string
  type Socket = nat

  datatype Kind = Chat | Coding | Workspace

  /** What correlates a reply with the call waiting for it. */
  datatype Key = Key(kind: Kind, agent: AgentId, id: string)

  datatype Slot = Slot(agent: AgentId, socket: Socket)

  datatype Request =
    | ChatRequest(tracksProgress: bool)
    | CodingRequest(repository: string, run: string, instruction: string)
    | WorkspaceRequest(repository: string, run: string, branch: string, action: string)
  {
    function Kind(): Kind {
      match this
      case ChatRequest(_) => Chat
      case CodingRequest(_, _, _) => Coding
      case WorkspaceRequest(_, _, _, _) => Workspace
    }
  }

  datatype ChangeSet = ChangeSet(repository: string, run: string)

  datatype ActionResult =
    ActionResult(repository: string, run: string, branch: string, action: string, status: string)

  datatype Outcome =
    | Text(text: Value)
    | Captured(changeSet: ChangeSet)
    | Acted(result: ActionResult)
    | RemoteError(error: string)
    | InvalidPayload
    | Mismatch
    | ConnectionLost(reason: string)
    | Cancelled

  /** A one-shot cell: nothing may be written over a `Done`. */
  datatype Future = Pending | Done(outcome: Outcome)

  datatype Profile = Profile(
    protocolVersion: Value, agentVersion: string, capabilities: set<string>,
    maxConcurrency: int, activeRuns: int, legacy: bool)

  datatype Session = Session(id: string, last: int)

  datatype Usage = Usage(frames: nat, bytes: nat)

  datatype Error =
    | NotConnected | Busy | Unsupported | UnsafeRepository | UnsafeRun | InvalidInstruction
    | InvalidBranch | InvalidAction | NotActiveSocket | AlreadyNegotiated | UnsupportedProtocol
    | InvalidAgentVersion | InvalidCapabilities | UnsupportedCapability | InvalidMaxConcurrency
    | BelowActiveRuns | InvalidActiveRuns | ExceedsCapacity

  /** An accepted frame of a negotiated session. */
  datatype Accepted = Accepted(agent: AgentId, socket: Socket, session: string, number: int)

  /** What happened so far, beside the tables: the callers still inside a request, and the past. */
  datatype History = History(
    live: map<Key, Socket>,
    requests: map<Key, Request>,
    validated: set<(Key, ChangeSet)>,
    usedSockets: set<Socket>,
    usedSessions: set<string>,
    greeted: seq<Socket>,
    accepted: seq<Accepted>)

  datatype Manager = Manager(
    conns: map<AgentId, Socket>,
    profiles: map<AgentId, Profile>,
    reported: map<AgentId, int>,
    reserved: map<Slot, int>,
    sessions: map<Socket, Session>,
    waiters: set<Key>,
    owners: map<Key, Socket>,
    expectations: map<Key, Request>,
    progress: map<Key, Usage>,
    futures: map<Key, Future>,
    log: History)

  const AGENT_CAPABILITIES: set<string> :=
    {"progress", "cancellation", "tools", "artifacts", "patches", "resume", "heartbeat", "coding_workspace"}

  const LEGACY_AGENT_PROFILE: Profile :=
    Profile(Int(0), "legacy", {"progress", "tools"}, 1, 0, true)

  const MAX_PROGRESS_FRAMES: nat := 256
  const MAX_PROGRESS_BYTES: nat := 1_048_576

  const EMPTY: Manager :=
    Manager(map[], map[], map[], map[], map[], {}, map[], map[], map[], map[],
            History(map[], map[], {}, {}, {}, [], []))

  // ---- Queries ----

  predicate IsActiveSocket(m: Manager, agent: AgentId, socket: Socket) {
    agent in m.conns && m.conns[agent] == socket
  }

  predicate Supports(m: Manager, agent: AgentId, capability: string) {
    agent in m.profiles && capability in m.profiles[agent].capabilities
  }

  predicate IsAvailable(m: Manager, agent: AgentId) {
    agent in m.profiles && m.profiles[agent].activeRuns < m.profiles[agent].maxConcurrency
  }

  function SlotCount(reserved: map<Slot, int>, slot: Slot): int {
    if slot in reserved then reserved[slot] else 0
  }

  function ActiveReservedSlots(m: Manager, agent: AgentId): int {
    if agent in m.conns then SlotCount(m.reserved, Slot(agent, m.conns[agent])) else 0
  }

  function EffectiveActiveRuns(m: Manager, agent: AgentId): int {
    (if agent in m.reported then m.reported[agent] else 0) + ActiveReservedSlots(m, agent)
  }

  // ---- Connecting, losing and closing a socket ----

  function Settle(future: Future, outcome: Outcome): Future {
    if future.Pending? then Done(outcome) else future
  }

  function OwnedBy(m: Manager, agent: AgentId, socket: Socket): set<Key> {
    set k | k in m.owners && k.agent == agent && m.owners[k] == socket
  }

  /** Drops `keys` from every request table and fails those whose waiter is still registered. */
  function FailRequests(m: Manager, keys: set<Key>, reason: string): Manager {
    m.(owners := m.owners - keys,
       waiters := m.waiters - keys,
       expectations := m.expectations - keys,
       progress := m.progress - keys,
       futures := map k | k in m.futures ::
         if k in keys && k in m.waiters then Settle(m.futures[k], ConnectionLost(reason)) else m.futures[k])
  }

  lemma FailNone(m: Manager, reason: string)
    ensures FailRequests(m, {}, reason) == m
  {
    assert FailRequests(m, {}, reason).futures == m.futures;
  }

  lemma FailOneMore(m: Manager, keys: set<Key>, k: Key, reason: string)
    requires k !in keys
    ensures var f := FailRequests(m, keys, reason);
      FailRequests(m, keys + {k}, reason) ==
      f.(owners := f.owners - {k}, waiters := f.waiters - {k}, expectations := f.expectations - {k},
         progress := f.progress - {k},
         futures := if k in f.waiters && k in f.futures then f.futures[k := Settle(f.futures[k],
           ConnectionLost(reason))] else f.futures)
  {
    var f := FailRequests(m, keys, reason);
    var g := FailRequests(m, keys + {k}, reason);
    assert g.owners == f.owners - {k} && g.waiters == f.waiters - {k};
    assert g.expectations == f.expectations - {k} && g.progress == f.progress - {k};
  }

  function FailSocketRequests(m: Manager, agent: AgentId, socket: Socket, reason: string): Manager {
    var failed := FailRequests(m, OwnedBy(m, agent, socket), reason);
    failed.(reserved := failed.reserved - {Slot(agent, socket)})
  }

  function LoseSocket(m: Manager, agent: AgentId, socket: Socket, reason: string): Manager {
    var failed := FailSocketRequests(m, agent, socket, reason);
    failed.(sessions := failed.sessions - {socket})
  }

  function Connect(m: Manager, agent: AgentId, socket: Socket): Manager {
    var accepted := m.(conns := m.conns[agent := socket],
                       log := m.log.(usedSockets := m.log.usedSockets + {socket}));
    var replaced :=
      if agent in m.conns && m.conns[agent] != socket
      then LoseSocket(accepted, agent, m.conns[agent], "agent connection replaced")
      else accepted;
    StartLegacy(replaced, agent)
  }

  function StartLegacy(m: Manager, agent: AgentId): Manager {
    m.(profiles := m.profiles[agent := LEGACY_AGENT_PROFILE], reported := m.reported[agent := 0])
  }

  function Forget(m: Manager, agent: AgentId): Manager {
    m.(conns := m.conns - {agent}, profiles := m.profiles - {agent}, reported := m.reported - {agent})
  }

  /** Everything an agent loses with its socket. */
  function Drop(m: Manager, agent: AgentId, reason: string): Manager
    requires agent in m.conns
  {
    Forget(LoseSocket(m, agent, m.conns[agent], reason), agent)
  }

  function Disconnect(m: Manager, agent: AgentId, socket: Socket): Manager {
    if IsActiveSocket(m, agent, socket) then Drop(m, agent, "agent disconnected") else m
  }

  function SlotsOf(m: Manager, agent: AgentId): set<Slot> {
    set s | s in m.reserved && s.agent == agent
  }

  function Close(m: Manager, agent: AgentId): Manager {
    var forgotten := Forget(m, agent).(reserved := m.reserved - SlotsOf(m, agent));
    if agent in m.conns
    then LoseSocket(forgotten, agent, m.conns[agent], "agent connection closed")
    else forgotten
  }

  /** Application shutdown: forget everything and cancel what still waits. */
  function Reset(m: Manager): Manager {
    EMPTY.(futures := CancelAll(m.futures, m.waiters), log := m.log)
  }

  function CancelAll(futures: map<Key, Future>, waiters: set<Key>): map<Key, Future> {
    map k | k in futures :: if k in waiters then Settle(futures[k], Cancelled) else futures[k]
  }

  // ---- Capability negotiation, activity and replay protection ----

  /** Python's `str.isspace` of one character. */
  predicate IsSpace(c: char) {
    var n := c as int;
    || 0x09 <= n <= 0x0D || 0x1C <= n <= 0x20 || n == 0x85 || n == 0xA0 || n == 0x1680 || 0x2000 <= n <= 0x200A
    || n == 0x2028 || n == 0x2029 || n == 0x202F || n == 0x205F || n == 0x3000
  }

  predicate IsBlank(s: string) { forall i :: 0 <= i < |s| ==> IsSpace(s[i]) }

  function Strip(s: string): string {
    if s != [] && IsSpace(s[0]) then Strip(s[1..])
    else if s != [] && IsSpace(s[|s| - 1]) then Strip(s[..|s| - 1])
    else s
  }

  function HelloError(m: Manager, agent: AgentId, socket: Socket, hello: seq<Member>): Option<Error> {
    var version := Lookup(hello, "agent_version");
    var capabilities := Lookup(hello, "capabilities");
    var concurrency := Lookup(hello, "max_concurrency");
    if !IsActiveSocket(m, agent, socket) then Some(NotActiveSocket)
    else if socket in m.sessions then Some(AlreadyNegotiated)
    else if !EqualsOne(Lookup(hello, "protocol_version")) then Some(UnsupportedProtocol)
    else if !version.Str? || IsBlank(version.s) || |version.s| > 128 then Some(InvalidAgentVersion)
    else if !capabilities.Array? || exists i :: 0 <= i < |capabilities.items| && !capabilities.items[i].Str? then
      Some(InvalidCapabilities)
    else if !(CapabilitySet(capabilities) <= AGENT_CAPABILITIES) then Some(UnsupportedCapability)
    else if !concurrency.Int? || !(1 <= concurrency.n <= 64) then Some(InvalidMaxConcurrency)
    else if EffectiveActiveRuns(m, agent) > concurrency.n then Some(BelowActiveRuns)
    else None
  }

  function CapabilitySet(v: Value): set<string> {
    if v.Array? then set i | 0 <= i < |v.items| && v.items[i].Str? :: v.items[i].s else {}
  }

  function Max(a: int, b: int): int { if a < b then b else a }

  function Negotiate(m: Manager, agent: AgentId, socket: Socket, hello: seq<Member>, session: string)
    : Result<Manager, Error>
  {
    var error := HelloError(m, agent, socket, hello);
    if error.Some? then Err(error.value) else
      var profile := Profile(
        Lookup(hello, "protocol_version"), Strip(Lookup(hello, "agent_version").s),
        CapabilitySet(Lookup(hello, "capabilities")), Lookup(hello, "max_concurrency").n,
        Max(EffectiveActiveRuns(m, agent), 0), false);
      Ok(m.(profiles := m.profiles[agent := profile],
            sessions := m.sessions[socket := Session(session, 0)],
            log := m.log.(usedSessions := m.log.usedSessions + {session}, greeted := m.log.greeted + [socket])))
  }

  predicate AcceptsFrame(m: Manager, agent: AgentId, socket: Socket, frame: seq<Member>) {
    && IsActiveSocket(m, agent, socket)
    && (agent in m.profiles && !m.profiles[agent].legacy ==>
          && socket in m.sessions
          && Lookup(frame, "session_id") == Str(m.sessions[socket].id)
          && Lookup(frame, "seq").Int?
          && Lookup(frame, "seq").n > m.sessions[socket].last)
  }

  function ReceiveFrame(m: Manager, agent: AgentId, socket: Socket, frame: seq<Member>): Manager {
    if AcceptsFrame(m, agent, socket, frame) && agent in m.profiles && !m.profiles[agent].legacy then
      var session := m.sessions[socket].id;
      var number := Lookup(frame, "seq").n;
      m.(sessions := m.sessions[socket := Session(session, number)],
         log := m.log.(accepted := m.log.accepted + [Accepted(agent, socket, session, number)]))
    else m
  }

  /** A legacy profile passes here too: only the frame loop keeps legacy agents from reporting. */
  function ActivityError(m: Manager, agent: AgentId, socket: Socket, active: Value): Option<Error> {
    if !IsActiveSocket(m, agent, socket) || agent !in m.profiles then Some(NotActiveSocket)
    else if !active.Int? || !(0 <= active.n <= m.profiles[agent].maxConcurrency) then Some(InvalidActiveRuns)
    else if active.n + ActiveReservedSlots(m, agent) > m.profiles[agent].maxConcurrency then Some(ExceedsCapacity)
    else None
  }

  function UpdateActivity(m: Manager, agent: AgentId, socket: Socket, active: Value): Result<Manager, Error> {
    var error := ActivityError(m, agent, socket, active);
    if error.Some? then Err(error.value) else
      var total := active.n + ActiveReservedSlots(m, agent);
      Ok(m.(reported := m.reported[agent := active.n],
            profiles := m.profiles[agent := m.profiles[agent].(activeRuns := total)]))
  }

  // ---- Requests, from the reservation of a slot to its release ----

  predicate IsAlnum(c: char) { 'A' <= c <= 'Z' || 'a' <= c <= 'z' || '0' <= c <= '9' }

  predicate SafeCodingId(s: string) {
    1 <= |s| <= 64 && IsAlnum(s[0]) && forall i :: 1 <= i < |s| ==> IsAlnum(s[i]) || s[i] == '_' || s[i] == '-'
  }

  function SplitOnSlash(s: string): seq<string> {
    if s == [] then [""]
    else
      var rest := SplitOnSlash(s[1..]);
      if s[0] == '/' then [""] + rest
      else if rest == [] then [[s[0]]]
      else [[s[0]] + rest[0]] + rest[1..]
  }

  predicate SafeBranch(branch: string) {
    && |branch| <= 255
    && "crewspace/" <= branch
    && forall part :: part in SplitOnSlash(branch) ==> part !in {"", ".", ".."}
  }

  function RequestError(m: Manager, agent: AgentId, request: Request): Option<Error> {
    match request
    case ChatRequest(_) => if agent in m.conns then None else Some(NotConnected)
    case CodingRequest(repository, run, instruction) =>
      if !Supports(m, agent, "coding_workspace") then Some(Unsupported)
      else if !SafeCodingId(repository) then Some(UnsafeRepository)
      else if !SafeCodingId(run) then Some(UnsafeRun)
      else if IsBlank(instruction) || |instruction| > 65_536 then Some(InvalidInstruction)
      else None
    case WorkspaceRequest(repository, run, branch, action) =>
      if !Supports(m, agent, "coding_workspace") then Some(Unsupported)
      else if !SafeCodingId(repository) then Some(UnsafeRepository)
      else if !SafeCodingId(run) then Some(UnsafeRun)
      else if !SafeBranch(branch) then Some(InvalidBranch)
      else if action !in {"cleanup", "discard", "retain"} then Some(InvalidAction)
      else None
  }

  function Refresh(m: Manager, agent: AgentId): Manager {
    if agent in m.profiles then
      m.(profiles := m.profiles[agent := m.profiles[agent].(activeRuns := EffectiveActiveRuns(m, agent))])
    else m
  }

  function ReserveSlot(m: Manager, agent: AgentId): Result<Manager, Error> {
    if !IsAvailable(m, agent) || agent !in m.conns then Err(Busy) else
      var slot := Slot(agent, m.conns[agent]);
      Ok(Refresh(m.(reserved := m.reserved[slot := SlotCount(m.reserved, slot) + 1]), agent))
  }

  function OneLess(reserved: map<Slot, int>, slot: Slot): map<Slot, int> {
    var left := Max(0, SlotCount(reserved, slot) - 1);
    if left != 0 then reserved[slot := left] else reserved - {slot}
  }

  function ReleaseSlot(m: Manager, agent: AgentId, socket: Socket): Manager {
    var released := m.(reserved := OneLess(m.reserved, Slot(agent, socket)));
    if IsActiveSocket(m, agent, socket) then Refresh(released, agent) else released
  }

  function Register(m: Manager, key: Key, request: Request, socket: Socket): Manager {
    m.(waiters := m.waiters + {key},
       owners := m.owners[key := socket],
       expectations := if request.ChatRequest? then m.expectations else m.expectations[key := request],
       progress := if request.ChatRequest? && request.tracksProgress then m.progress[key := Usage(0, 0)] else m.progress,
       futures := m.futures[key := Pending],
       log := m.log.(live := m.log.live[key := socket], requests := m.log.requests[key := request]))
  }

  /** From the entry of a request method to its first await. */
  function Begin(m: Manager, key: Key, request: Request): Result<Manager, Error> {
    var error := RequestError(m, key.agent, request);
    if error.Some? then Err(error.value) else
      match ReserveSlot(m, key.agent)
      case Err(e) => Err(e)
      case Ok(reserved) => Ok(Register(reserved, key, request, m.conns[key.agent]))
  }

  /** The `finally` block: it runs once, whatever ended the call. */
  function Return(m: Manager, key: Key, socket: Socket): Manager {
    var forgotten := m.(waiters := m.waiters - {key}, owners := m.owners - {key},
                        expectations := m.expectations - {key}, progress := m.progress - {key},
                        log := m.log.(live := m.log.live - {key}));
    ReleaseSlot(forgotten, key.agent, socket)
  }

  function SettleKey(m: Manager, key: Key, outcome: Outcome): Manager {
    if key in m.futures then m.(futures := m.futures[key := Settle(m.futures[key], outcome)]) else m
  }

  /** The reply timeout, or the cancellation of the calling task, cancels the future awaited. */
  function GiveUp(m: Manager, key: Key): Manager { SettleKey(m, key, Cancelled) }

  // ---- Delivery ----

  /** A registered waiter whose future is still open. */
  predicate Open(m: Manager, key: Key) {
    key in m.waiters && key in m.futures && m.futures[key].Pending?
  }

  function DeliverReply(m: Manager, agent: AgentId, id: string, text: Value): Manager {
    var key := Key(Chat, agent, id);
    var popped := m.(waiters := m.waiters - {key});
    if Open(m, key) then SettleKey(popped, key, Text(text)) else popped
  }

  predicate AcceptsProgress(m: Manager, key: Key, size: nat) {
    key in m.progress && m.progress[key].frames < MAX_PROGRESS_FRAMES && m.progress[key].bytes + size <= MAX_PROGRESS_BYTES
  }

  function DeliverProgress(m: Manager, agent: AgentId, id: string, size: nat): Manager {
    var key := Key(Chat, agent, id);
    if AcceptsProgress(m, key, size) then
      m.(progress := m.progress[key := Usage(m.progress[key].frames + 1, m.progress[key].bytes + size)])
    else m
  }

  /** None: the frame does not parse as a change set. */
  predicate MatchesRequest(m: Manager, key: Key, value: Option<ChangeSet>) {
    && value.Some? && key in m.expectations && m.expectations[key].CodingRequest?
    && m.expectations[key].repository == value.value.repository && m.expectations[key].run == value.value.run
  }

  /** `Ok(None)`: nobody waits. `Err`: the frame does not belong to the request. */
  function ValidateChangeSet(m: Manager, agent: AgentId, id: string, value: Option<ChangeSet>)
    : Result<Option<ChangeSet>, Outcome>
  {
    var key := Key(Coding, agent, id);
    if !Open(m, key) then Ok(None)
    else if value.None? then Err(InvalidPayload)
    else if !MatchesRequest(m, key, value) then Err(Mismatch)
    else Ok(value)
  }

  function RememberValidated(m: Manager, agent: AgentId, id: string, value: Option<ChangeSet>): Manager {
    var checked := ValidateChangeSet(m, agent, id, value);
    if checked.Ok? && checked.value.Some? then
      m.(log := m.log.(validated := m.log.validated + {(Key(Coding, agent, id), checked.value.value)}))
    else m
  }

  function CompleteChangeSet(m: Manager, agent: AgentId, id: string, changeSet: ChangeSet): Manager {
    var key := Key(Coding, agent, id);
    if Open(m, key) then SettleKey(m, key, Captured(changeSet)) else m
  }

  function DeliverChangeSet(m: Manager, agent: AgentId, id: string, value: Option<ChangeSet>): Manager {
    var key := Key(Coding, agent, id);
    match ValidateChangeSet(m, agent, id, value)
    case Err(problem) => SettleKey(m, key, problem)
    case Ok(None) => m
    case Ok(Some(changeSet)) => CompleteChangeSet(m, agent, id, changeSet)
  }

  function FailureOutcome(error: Value): Outcome {
    if error.Str? && error.s != "" && |error.s| <= 4096 then RemoteError(error.s) else InvalidPayload
  }

  function DeliverCodingFailure(m: Manager, agent: AgentId, id: string, error: Value): Manager {
    var key := Key(Coding, agent, id);
    if Open(m, key) then SettleKey(m, key, FailureOutcome(error)) else m
  }

  function AllowedStatuses(action: string): set<string> {
    if action == "retain" then {"retained", "already_retained"} else {"removed", "already_removed"}
  }

  predicate ResultMatches(request: Request, result: ActionResult) {
    && request.WorkspaceRequest?
    && request.repository == result.repository && request.run == result.run
    && request.branch == result.branch && request.action == result.action
    && result.status in AllowedStatuses(request.action)
  }

  predicate OpenOnSocket(m: Manager, key: Key, socket: Socket) {
    Open(m, key) && key in m.owners && m.owners[key] == socket
  }

  function DeliverActionResult(m: Manager, agent: AgentId, id: string, value: Option<ActionResult>,
      socket: Socket): Manager {
    var key := Key(Workspace, agent, id);
    if !OpenOnSocket(m, key, socket) || key !in m.expectations then m
    else if value.None? then SettleKey(m, key, InvalidPayload)
    else if !ResultMatches(m.expectations[key], value.value) then SettleKey(m, key, Mismatch)
    else SettleKey(m, key, Acted(value.value))
  }

  /** The result is of the workspace request that waits on this socket. */
  predicate AnswersAction(m: Manager, agent: AgentId, id: string, value: Option<ActionResult>, socket: Socket) {
    var key := Key(Workspace, agent, id);
    OpenOnSocket(m, key, socket) && key in m.expectations && value.Some? && ResultMatches(m.expectations[key], value.value)
  }

  function DeliverActionFailure(m: Manager, agent: AgentId, id: string, error: Value, socket: Socket): Manager {
    var key := Key(Workspace, agent, id);
    if OpenOnSocket(m, key, socket) then SettleKey(m, key, FailureOutcome(error)) else m
  }

  // ---- Runs ----

  datatype Event =
    | Connected(agent: AgentId, socket: Socket)
    | Disconnected(agent: AgentId, socket: Socket)
    | Closed(agent: AgentId)
    | ShutDown
    | HelloIn(agent: AgentId, socket: Socket, hello: seq<Member>, session: string)
    | FrameIn(agent: AgentId, socket: Socket, frame: seq<Member>)
    | ActivityIn(agent: AgentId, socket: Socket, active: Value)
    | Began(key: Key, request: Request)
    | Returned(key: Key)
    | GaveUp(key: Key)
    | ReplyIn(agent: AgentId, id: string, text: Value)
    | ProgressIn(agent: AgentId, id: string, size: nat)
    | ChangeSetChecked(agent: AgentId, id: string, value: Option<ChangeSet>)
    | ChangeSetDone(agent: AgentId, id: string, changeSet: ChangeSet)
    | ChangeSetIn(agent: AgentId, id: string, value: Option<ChangeSet>)
    | CodingFailureIn(agent: AgentId, id: string, error: Value)
    | ActionResultIn(agent: AgentId, id: string, result: Option<ActionResult>, socket: Socket)
    | ActionFailureIn(agent: AgentId, id: string, error: Value, socket: Socket)

  /**
   Sockets, session ids and request ids are new when they first appear, a request returns only
   while it is live, and a change set is completed only after it was validated.
   */
  predicate Possible(m: Manager, e: Event) {
    match e
    case Connected(_, socket) => socket !in m.log.usedSockets
    case HelloIn(_, _, _, session) => session !in m.log.usedSessions
    case Began(key, request) => key !in m.futures && key.kind == request.Kind()
    case Returned(key) => key in m.log.live
    case GaveUp(key) => key in m.log.live
    case ChangeSetDone(agent, id, changeSet) => (Key(Coding, agent, id), changeSet) in m.log.validated
    case _ => true
  }

  function Next(m: Manager, r: Result<Manager, Error>): Manager {
    if r.Ok? then r.value else m
  }

  function Apply(m: Manager, e: Event): Manager
    requires Possible(m, e)
  {
    match e
    case Connected(agent, socket) => Connect(m, agent, socket)
    case Disconnected(agent, socket) => Disconnect(m, agent, socket)
    case Closed(agent) => Close(m, agent)
    case ShutDown => Reset(m)
    case HelloIn(agent, socket, hello, session) => Next(m, Negotiate(m, agent, socket, hello, session))
    case FrameIn(agent, socket, frame) => ReceiveFrame(m, agent, socket, frame)
    case ActivityIn(agent, socket, active) => Next(m, UpdateActivity(m, agent, socket, active))
    case Began(key, request) => Next(m, Begin(m, key, request))
    case Returned(key) => Return(m, key, m.log.live[key])
    case GaveUp(key) => GiveUp(m, key)
    case ReplyIn(agent, id, text) => DeliverReply(m, agent, id, text)
    case ProgressIn(agent, id, size) => DeliverProgress(m, agent, id, size)
    case ChangeSetChecked(agent, id, value) => RememberValidated(m, agent, id, value)
    case ChangeSetDone(agent, id, changeSet) => CompleteChangeSet(m, agent, id, changeSet)
    case ChangeSetIn(agent, id, value) => DeliverChangeSet(m, agent, id, value)
    case CodingFailureIn(agent, id, error) => DeliverCodingFailure(m, agent, id, error)
    case ActionResultIn(agent, id, result, socket) => DeliverActionResult(m, agent, id, result, socket)
    case ActionFailureIn(agent, id, error, socket) => DeliverActionFailure(m, agent, id, error, socket)
  }

  predicate PossibleRun(m: Manager, events: seq<Event>)
    decreases events
  {
    events == [] || (Possible(m, events[0]) && PossibleRun(Apply(m, events[0]), events[1..]))
  }

  function Run(m: Manager, events: seq<Event>): Manager
    requires PossibleRun(m, events)
    decreases events
  {
    if events == [] then m else Run(Apply(m, events[0]), events[1..])
  }
}
