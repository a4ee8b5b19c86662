/**
 The coding frames, where the connection manager and the tables of runs meet: a change set is
 checked against its request, stored in one unit of work, and only then handed to its caller.
 */
module CodingFrames {
  import opened Wrappers
  import opened Json
  import opened ConnectionState
  import opened ConnectionProofs
  import opened ConnectionAnswers
  import opened AgentConnectionManager
  import Runs = CodingRuns
  import Outcomes = CodingRunOutcomes
  import opened CodingRunService

  /** What a handler has committed and not yet told its caller, because its unit of work is still being left. */
  datatype Owed =
    | OwedChangeSet(agent: AgentId, id: string, changeSet: ChangeSet)
    | OwedFailure(agent: AgentId, id: string, error: Value)

  datatype System = System(manager: Manager, db: Runs.Database, owed: multiset<Owed>)

  // ---- The handlers as steps ----

  /** A run that has ended: its late or repeated frame is dropped without a word. */
  predicate HasEnded(db: Runs.Database, run: string) { run in db.runs && !Runs.IsActive(db.runs[run].status) }

  function RefusalText(e: Runs.CaptureError): string {
    match e
    case UnknownRun => "'Coding run not found'"
    case NotAccepting => "Coding run is not accepting a change set"
    case NotAuthorized => "Change set does not match the authorized coding run"
  }

  /** The unit of work of a change-set frame: a refusal is told at once, a stored change set is told later. */
  function Store(s: System, agent: AgentId, id: string, changeSet: ChangeSet, now: int): System {
    var refusal := Runs.CaptureRefusal(s.db, changeSet.run, agent, id, changeSet.repository);
    if HasEnded(s.db, changeSet.run) then s
    else if refusal.Some? then s.(manager := DeliverCodingFailure(s.manager, agent, id, Str(RefusalText(refusal.value))))
    else s.(db := Runs.Capture(s.db, changeSet.run, agent, id, changeSet.repository, now),
            owed := s.owed + multiset{OwedChangeSet(agent, id, changeSet)})
  }

  /** The text a failure frame gives as its reason: that of a string is the string, that of anything else an input. */
  predicate IsTextOf(text: string, error: Value) {
    match error
    case Str(text') => text == text'
    case Null => text == ""
    case _ => true
  }

  /** The unit of work of a failure frame, which finds its run by the request id alone. */
  ghost function FailRun(s: System, agent: AgentId, id: string, error: Value, text: string, now: int): System {
    if !Supports(s.manager, agent, "coding_workspace") then s
    else s.(db := Runs.FailRequest(s.db, id, text, now),
            owed := if Runs.RequestHasEnded(s.db, id) then s.owed else s.owed + multiset{OwedFailure(agent, id, error)})
  }

  function Told(m: Manager, o: Owed): Manager {
    match o
    case OwedChangeSet(agent, id, changeSet) => CompleteChangeSet(m, agent, id, changeSet)
    case OwedFailure(agent, id, error) => DeliverCodingFailure(m, agent, id, error)
  }

  function Tell(s: System, o: Owed): System { s.(manager := Told(s.manager, o), owed := s.owed - multiset{o}) }

  // ---- The handlers ----

  /**
   What follows the check of a change-set frame, up to the end of its unit of work: the error sent
   back, or whether the caller is to be told of the change set now stored.
   */
  method StoreCodingChangeSet(manager: Connections, tables: Tables, agent: AgentId, id: string, changeSet: ChangeSet,
      now: int, ghost owed: multiset<Owed>)
    returns (r: Result<bool, string>)
    requires manager.Valid() && tables.Valid()
    modifies manager, tables
    ensures manager.Valid() && tables.Valid()
    ensures System(manager.Value(), tables.Value(),
        if r == Ok(true) then owed + multiset{OwedChangeSet(agent, id, changeSet)} else owed)
      == Store(old(System(manager.Value(), tables.Value(), owed)), agent, id, changeSet, now)
    ensures r == Ok(true) ==> manager.Value() == old(manager.Value())
    ensures r != Ok(true) ==> tables.Value() == old(tables.Value())
  {
    hide ConnectionState.DeliverCodingFailure, CompleteChangeSet, Runs.Sound;
    if changeSet.run in tables.runs && !Runs.IsActive(tables.runs[changeSet.run].status) {
      return Ok(false);
    }
    var stored := tables.RecordCapture(changeSet.run, agent, id, changeSet.repository, now);
    match stored
    case Err(e) =>
      var told := manager.DeliverCodingFailure(agent, id, Str(RefusalText(e)));
      return Err(RefusalText(e));
    case Ok(_) =>
      return Ok(true);
  }

  /** A failure frame up to the end of its unit of work: nobody is told yet. */
  method FailCodingRun(manager: Connections, tables: Tables, agent: AgentId, id: string, error: Json.Value, text: string,
      now: int, ghost owed: multiset<Owed>)
    returns (unsupported: bool, deliver: bool)
    requires manager.Valid() && tables.Valid()
    modifies tables
    ensures tables.Valid()
    ensures System(manager.Value(), tables.Value(), if deliver then owed + multiset{OwedFailure(agent, id, error)} else owed)
      == FailRun(old(System(manager.Value(), tables.Value(), owed)), agent, id, error, text, now)
    ensures unsupported <==> !Supports(manager.Value(), agent, "coding_workspace")
    ensures deliver <==> !unsupported && !old(Runs.RequestHasEnded(tables.Value(), id))
  {
    hide Runs.Sound;
    if agent !in manager.profiles || "coding_workspace" !in manager.profiles[agent].capabilities {
      return true, false;
    }
    deliver := tables.FailCodingRequest(id, text, now);
    unsupported := false;
  }

  /** The rest of either handler. */
  method TellCaller(manager: Connections, o: Owed) returns (delivered: bool)
    requires manager.Valid()
    modifies manager
    ensures manager.Valid() && manager.Value() == Told(old(manager.Value()), o)
    ensures delivered ==> Open(old(manager.Value()), Key(Coding, o.agent, o.id))
  {
    match o
    case OwedChangeSet(agent, id, changeSet) => delivered := manager.CompleteCodingChangeSet(agent, id, changeSet);
    case OwedFailure(agent, id, error) => delivered := manager.DeliverCodingFailure(agent, id, error);
  }

  // ---- Runs of the whole ----

  datatype Event =
    | OnManager(step: ConnectionState.Event)
    | OnTables(change: Runs.Event)
    | StoreFrame(agent: AgentId, id: string, changeSet: ChangeSet, now: int)
    | FailFrame(agent: AgentId, id: string, error: Value, text: string, now: int)
    | TellOwed(owed: Owed)

  /** A change set reaches its caller through StoreFrame and TellOwed alone: the check by itself only ever reports an error. */
  predicate Possible(s: System, e: Event) {
    match e
    case OnManager(step) =>
      && ConnectionState.Possible(s.manager, step) && !step.ChangeSetDone?
      && (step.ChangeSetIn? ==> ValidateChangeSet(s.manager, step.agent, step.id, step.value).Err?)
    case OnTables(change) => Runs.Possible(s.db, change)
    case StoreFrame(agent, id, changeSet, _) => (Key(Coding, agent, id), changeSet) in s.manager.log.validated
    case FailFrame(_, _, error, text, _) => IsTextOf(text, error)
    case TellOwed(o) => o in s.owed
  }

  ghost function Apply(s: System, e: Event): System
    requires Possible(s, e)
  {
    match e
    case OnManager(step) => s.(manager := ConnectionState.Apply(s.manager, step))
    case OnTables(change) => s.(db := Runs.Apply(s.db, change))
    case StoreFrame(agent, id, changeSet, now) => Store(s, agent, id, changeSet, now)
    case FailFrame(agent, id, error, text, now) => FailRun(s, agent, id, error, text, now)
    case TellOwed(o) => Tell(s, o)
  }

  ghost predicate PossibleRun(s: System, events: seq<Event>)
    decreases events
  {
    events == [] || (Possible(s, events[0]) && PossibleRun(Apply(s, events[0]), events[1..]))
  }

  ghost function After(s: System, events: seq<Event>): System
    requires PossibleRun(s, events)
    decreases events
  {
    if events == [] then s else After(Apply(s, events[0]), events[1..])
  }

  // ---- Nobody else reports a change set ----

  /** Where a future holds a change set now, it held the same before. */
  predicate NothingCaptured(before: map<Key, Future>, after: map<Key, Future>, key: Key) {
    key in after && after[key].Done? && after[key].outcome.Captured? ==> key in before && before[key] == after[key]
  }

  lemma SameCapturesNothing(futures: map<Key, Future>, key: Key)
    ensures NothingCaptured(futures, futures, key)
  {
  }

  lemma SettlingCapturesNothing(m: Manager, settled: Key, outcome: Outcome, key: Key)
    requires !outcome.Captured?
    ensures NothingCaptured(m.futures, m.futures, key)
    ensures NothingCaptured(m.futures, SettleKey(m, settled, outcome).futures, key)
  {
  }

  lemma FailingCapturesNothing(m: Manager, agent: AgentId, socket: Socket, reason: string, key: Key)
    ensures NothingCaptured(m.futures, FailSocketRequests(m, agent, socket, reason).futures, key)
  {
    hide OwnedBy;
  }

  lemma LossCapturesNothing(m: Manager, agent: AgentId, socket: Socket, key: Key)
    ensures NothingCaptured(m.futures, Disconnect(m, agent, socket).futures, key)
    ensures NothingCaptured(m.futures, Connect(m, agent, socket).futures, key)
    ensures NothingCaptured(m.futures, Close(m, agent).futures, key)
  {
    hide FailSocketRequests, SlotsOf;
    var accepted := m.(conns := m.conns[agent := socket], log := m.log.(usedSockets := m.log.usedSockets + {socket}));
    var dropped := Forget(m, agent).(reserved := m.reserved - SlotsOf(m, agent));
    if agent in m.conns {
      FailingCapturesNothing(m, agent, m.conns[agent], "agent disconnected", key);
      FailingCapturesNothing(accepted, agent, m.conns[agent], "agent connection replaced", key);
      FailingCapturesNothing(dropped, agent, m.conns[agent], "agent connection closed", key);
    }
  }

  lemma SocketCapturesNothing(m: Manager, e: ConnectionState.Event, key: Key)
    requires ConnectionState.Possible(m, e) && (e.Connected? || e.Disconnected? || e.Closed? || e.ShutDown?)
    ensures NothingCaptured(m.futures, ConnectionState.Apply(m, e).futures, key)
  {
    hide Connect, Disconnect, Close;
    match e
    case Connected(agent, socket) => LossCapturesNothing(m, agent, socket, key);
    case Disconnected(agent, socket) => LossCapturesNothing(m, agent, socket, key);
    case Closed(agent) => LossCapturesNothing(m, agent, 0, key);
    case ShutDown =>
  }

  lemma ReservingLeavesFutures(m: Manager, e: ConnectionState.Event)
    ensures forall agent :: ReserveSlot(m, agent).Ok? ==> ReserveSlot(m, agent).value.futures == m.futures
    ensures forall n, agent, socket :: ReleaseSlot(n, agent, socket).futures == n.futures
  {
    hide OneLess, EffectiveActiveRuns;
  }

  lemma RequestCapturesNothing(m: Manager, e: ConnectionState.Event, key: Key)
    requires ConnectionState.Possible(m, e) && (e.Began? || e.Returned? || e.GaveUp?)
    ensures NothingCaptured(m.futures, ConnectionState.Apply(m, e).futures, key)
  {
    hide RequestError, ReserveSlot, ReleaseSlot, SettleKey;
    ReservingLeavesFutures(m, e);
    if e.GaveUp? {
      SettlingCapturesNothing(m, e.key, Cancelled, key);
    }
  }

  lemma ReplyCapturesNothing(m: Manager, agent: AgentId, id: string, text: Value, key: Key)
    ensures NothingCaptured(m.futures, DeliverReply(m, agent, id, text).futures, key)
  {
    hide SettleKey, Open;
    SettlingCapturesNothing(m.(waiters := m.waiters - {Key(Chat, agent, id)}), Key(Chat, agent, id), Text(text), key);
  }

  lemma ResultCapturesNothing(m: Manager, agent: AgentId, id: string, value: Option<ActionResult>, socket: Socket,
      key: Key)
    ensures NothingCaptured(m.futures, DeliverActionResult(m, agent, id, value, socket).futures, key)
  {
    hide SettleKey, NothingCaptured, ResultMatches, OpenOnSocket;
    SettlingCapturesNothing(m, Key(Workspace, agent, id), InvalidPayload, key);
    SettlingCapturesNothing(m, Key(Workspace, agent, id), Mismatch, key);
    if value.Some? {
      SettlingCapturesNothing(m, Key(Workspace, agent, id), Acted(value.value), key);
    }
  }

  lemma FailureCapturesNothing(m: Manager, agent: AgentId, id: string, error: Value, key: Key)
    ensures NothingCaptured(m.futures, DeliverCodingFailure(m, agent, id, error).futures, key)
  {
    hide SettleKey, Open, NothingCaptured;
    SettlingCapturesNothing(m, Key(Coding, agent, id), FailureOutcome(error), key);
  }

  lemma CheckCapturesNothing(m: Manager, agent: AgentId, id: string, value: Option<ChangeSet>, key: Key)
    requires ValidateChangeSet(m, agent, id, value).Err?
    ensures NothingCaptured(m.futures, DeliverChangeSet(m, agent, id, value).futures, key)
  {
    hide SettleKey, Open, MatchesRequest, NothingCaptured;
    SettlingCapturesNothing(m, Key(Coding, agent, id), InvalidPayload, key);
    SettlingCapturesNothing(m, Key(Coding, agent, id), Mismatch, key);
  }

  lemma NoticeLeavesFutures(m: Manager, e: ConnectionState.Event)
    requires e.ProgressIn? || e.ChangeSetChecked?
    ensures ConnectionState.Apply(m, e).futures == m.futures
  {
    hide AcceptsProgress, ValidateChangeSet;
  }

  lemma DeliveryCapturesNothing(m: Manager, e: ConnectionState.Event, key: Key)
    requires ConnectionState.Possible(m, e) && IsDelivery(e) && !e.ChangeSetDone?
    requires e.ChangeSetIn? ==> ValidateChangeSet(m, e.agent, e.id, e.value).Err?
    ensures NothingCaptured(m.futures, ConnectionState.Apply(m, e).futures, key)
  {
    hide SettleKey, NothingCaptured, AcceptsProgress, ValidateChangeSet, Open, OpenOnSocket, DeliverReply,
      DeliverChangeSet, DeliverActionResult, DeliverCodingFailure, DeliverActionFailure, ConnectionState.Possible,
      CompleteChangeSet, RememberValidated, DeliverProgress;
    match e
    case ReplyIn(agent, id, text) => ReplyCapturesNothing(m, agent, id, text, key);
    case ChangeSetIn(agent, id, value) => CheckCapturesNothing(m, agent, id, value, key);
    case CodingFailureIn(agent, id, error) => FailureCapturesNothing(m, agent, id, error, key);
    case ActionResultIn(agent, id, result, socket) => ResultCapturesNothing(m, agent, id, result, socket, key);
    case ActionFailureIn(agent, id, error, socket) => ActionFailureCapturesNothing(m, agent, id, error, socket, key);
    case _ =>
      NoticeLeavesFutures(m, e);
      SameCapturesNothing(m.futures, key);
  }

  lemma ActionFailureCapturesNothing(m: Manager, agent: AgentId, id: string, error: Value, socket: Socket, key: Key)
    ensures NothingCaptured(m.futures, DeliverActionFailure(m, agent, id, error, socket).futures, key)
  {
    hide SettleKey, OpenOnSocket, NothingCaptured;
    SettlingCapturesNothing(m, Key(Workspace, agent, id), FailureOutcome(error), key);
  }

  lemma {:induction false} ManagerCapturesNothing(m: Manager, e: ConnectionState.Event, key: Key)
    requires ConnectionState.Possible(m, e) && !e.ChangeSetDone?
    requires e.ChangeSetIn? ==> ValidateChangeSet(m, e.agent, e.id, e.value).Err?
    ensures NothingCaptured(m.futures, ConnectionState.Apply(m, e).futures, key)
  {
    hide ConnectionState.Apply, ConnectionState.Possible, NothingCaptured, ValidateChangeSet;
    if IsDelivery(e) {
      DeliveryCapturesNothing(m, e, key);
    } else if e.Began? || e.Returned? || e.GaveUp? {
      RequestCapturesNothing(m, e, key);
    } else if e.HelloIn? || e.FrameIn? || e.ActivityIn? {
      FrameLeavesFutures(m, e);
      SameCapturesNothing(m.futures, key);
    } else {
      SocketCapturesNothing(m, e, key);
    }
  }

  // ---- What is stored stays stored ----

  /** The change set is stored, for this very request of this agent. */
  predicate StoredFor(db: Runs.Database, key: Key, changeSet: ChangeSet) {
    && changeSet.run in db.changeSets && changeSet.run in db.runs
    && db.runs[changeSet.run].agent == key.agent && db.runs[changeSet.run].requestId == key.id
    && db.runs[changeSet.run].repository == changeSet.repository
  }

  lemma TablesKeepStored(db: Runs.Database, e: Runs.Event, key: Key, changeSet: ChangeSet)
    requires Runs.Possible(db, e) && StoredFor(db, key, changeSet)
    ensures StoredFor(Runs.Apply(db, e), key, changeSet)
  {
    hide Runs.RunOfRequest, Runs.Allowed, Runs.DecisionTarget, Runs.Bounded, Runs.Noted, Runs.Counted, Runs.Audited;
  }

  ghost predicate ToldIsStored(futures: map<Key, Future>, db: Runs.Database) {
    forall key :: key in futures && futures[key].Done? && futures[key].outcome.Captured? ==>
      StoredFor(db, key, futures[key].outcome.changeSet)
  }

  lemma ManagerKeepsTold(s: System, e: ConnectionState.Event)
    requires Possible(s, OnManager(e)) && ToldIsStored(s.manager.futures, s.db)
    ensures ToldIsStored(ConnectionState.Apply(s.manager, e).futures, s.db)
  {
    hide StoredFor, ValidateChangeSet, ConnectionState.Apply, ConnectionState.Possible;
    var after := ConnectionState.Apply(s.manager, e);
    forall key | key in after.futures && after.futures[key].Done? && after.futures[key].outcome.Captured?
      ensures StoredFor(s.db, key, after.futures[key].outcome.changeSet)
    {
      ManagerCapturesNothing(s.manager, e, key);
    }
  }

  lemma FailureKeepsTold(m: Manager, db: Runs.Database, agent: AgentId, id: string, error: Value)
    requires ToldIsStored(m.futures, db)
    ensures ToldIsStored(DeliverCodingFailure(m, agent, id, error).futures, db)
  {
    hide StoredFor, DeliverCodingFailure;
    var after := DeliverCodingFailure(m, agent, id, error);
    forall key | key in after.futures && after.futures[key].Done? && after.futures[key].outcome.Captured?
      ensures StoredFor(db, key, after.futures[key].outcome.changeSet)
    {
      FailureCapturesNothing(m, agent, id, error, key);
    }
  }

  lemma TablesKeepTold(futures: map<Key, Future>, db: Runs.Database, e: Runs.Event)
    requires Runs.Possible(db, e) && ToldIsStored(futures, db)
    ensures ToldIsStored(futures, Runs.Apply(db, e))
  {
    hide StoredFor, Runs.Apply, Runs.Possible;
    forall key | key in futures && futures[key].Done? && futures[key].outcome.Captured?
      ensures StoredFor(Runs.Apply(db, e), key, futures[key].outcome.changeSet)
    {
      TablesKeepStored(db, e, key, futures[key].outcome.changeSet);
    }
  }

  lemma CaptureStores(db: Runs.Database, agent: AgentId, id: string, changeSet: ChangeSet, now: int)
    requires Runs.Sound(db)
    requires Runs.CaptureRefusal(db, changeSet.run, agent, id, changeSet.repository).None?
    ensures StoredFor(Runs.Capture(db, changeSet.run, agent, id, changeSet.repository, now), Key(Coding, agent, id), changeSet)
  {
    hide Runs.Sound;
    Runs.CaptureKeeps(db, changeSet.run, agent, id, changeSet.repository, now);
  }

  lemma CompletionKeepsTold(m: Manager, db: Runs.Database, agent: AgentId, id: string, changeSet: ChangeSet)
    requires ToldIsStored(m.futures, db) && StoredFor(db, Key(Coding, agent, id), changeSet)
    ensures ToldIsStored(CompleteChangeSet(m, agent, id, changeSet).futures, db)
  {
    hide StoredFor;
  }

  // ---- What was checked stays checked ----

  /** Every change set that a caller is owed was checked against its request, and is stored. */
  ghost predicate OwedIsStored(owed: multiset<Owed>, checks: set<(Key, ChangeSet)>, db: Runs.Database) {
    forall o :: o in owed && o.OwedChangeSet? ==>
      (Key(Coding, o.agent, o.id), o.changeSet) in checks && StoredFor(db, Key(Coding, o.agent, o.id), o.changeSet)
  }

  lemma TablesKeepOwed(owed: multiset<Owed>, checks: set<(Key, ChangeSet)>, db: Runs.Database, e: Runs.Event)
    requires Runs.Possible(db, e) && OwedIsStored(owed, checks, db)
    ensures OwedIsStored(owed, checks, Runs.Apply(db, e))
  {
    hide StoredFor, Runs.Apply, Runs.Possible;
    forall o | o in owed && o.OwedChangeSet?
      ensures StoredFor(Runs.Apply(db, e), Key(Coding, o.agent, o.id), o.changeSet)
    {
      TablesKeepStored(db, e, Key(Coding, o.agent, o.id), o.changeSet);
    }
  }

  // ---- Each step keeps the whole ----

  ghost predicate SystemSound(s: System) {
    && Invariant(s.manager) && Runs.Sound(s.db)
    && ToldIsStored(s.manager.futures, s.db) && OwedIsStored(s.owed, s.manager.log.validated, s.db)
  }

  lemma StoringKeeps(s: System, agent: AgentId, id: string, changeSet: ChangeSet, now: int)
    requires SystemSound(s) && Possible(s, StoreFrame(agent, id, changeSet, now))
    requires Runs.CaptureRefusal(s.db, changeSet.run, agent, id, changeSet.repository).None?
    ensures SystemSound(Store(s, agent, id, changeSet, now))
  {
    hide Invariant, Runs.Sound, ToldIsStored, StoredFor, Runs.Capture;
    var frame := Runs.Event.ChangeSetFrame(changeSet.run, agent, id, changeSet.repository, now);
    Runs.CaptureKeeps(s.db, changeSet.run, agent, id, changeSet.repository, now);
    TablesKeepTold(s.manager.futures, s.db, frame);
    TablesKeepOwed(s.owed, s.manager.log.validated, s.db, frame);
    CaptureStores(s.db, agent, id, changeSet, now);
  }

  lemma FailureDelivered(m: Manager, db: Runs.Database, owed: multiset<Owed>, agent: AgentId, id: string, error: Value)
    requires SystemSound(System(m, db, owed))
    ensures SystemSound(System(DeliverCodingFailure(m, agent, id, error), db, owed))
  {
    hide Invariant, Runs.Sound, ToldIsStored, OwedIsStored, SettleKey;
    StepKeepsInvariant(m, CodingFailureIn(agent, id, error));
    FailureKeepsTold(m, db, agent, id, error);
    SettlingKeepsLog(m, Key(Coding, agent, id), FailureOutcome(error));
  }

  lemma StoreKeeps(s: System, agent: AgentId, id: string, changeSet: ChangeSet, now: int)
    requires SystemSound(s) && Possible(s, StoreFrame(agent, id, changeSet, now))
    ensures SystemSound(Store(s, agent, id, changeSet, now))
  {
    hide SystemSound, Runs.Capture, DeliverCodingFailure;
    var refusal := Runs.CaptureRefusal(s.db, changeSet.run, agent, id, changeSet.repository);
    if refusal.Some? {
      FailureDelivered(s.manager, s.db, s.owed, agent, id, Str(RefusalText(refusal.value)));
    } else {
      StoringKeeps(s, agent, id, changeSet, now);
    }
  }

  lemma FailKeeps(s: System, agent: AgentId, id: string, error: Value, text: string, now: int)
    requires SystemSound(s)
    ensures SystemSound(FailRun(s, agent, id, error, text, now))
  {
    hide Invariant, Runs.Sound, ToldIsStored, Runs.RequestHasEnded, Supports, Runs.FailRequest, StoredFor;
    var frame := Runs.Event.FailureFrame(id, text, now);
    assert Runs.Possible(s.db, frame) && Runs.Apply(s.db, frame) == Runs.FailRequest(s.db, id, text, now);
    Runs.StepKeepsSound(s.db, frame);
    TablesKeepTold(s.manager.futures, s.db, frame);
    TablesKeepOwed(s.owed, s.manager.log.validated, s.db, frame);
  }

  lemma TellingKeeps(s: System, o: Owed)
    requires SystemSound(s) && o in s.owed
    ensures SystemSound(Tell(s, o))
  {
    hide Invariant, Runs.Sound, ToldIsStored, StoredFor, CompleteChangeSet, DeliverCodingFailure;
    var left := s.owed - multiset{o};
    assert forall other :: other in left ==> other in s.owed;
    match o
    case OwedChangeSet(agent, id, changeSet) =>
      CompletionKeeps(s.manager, agent, id, changeSet);
      CompletionKeepsTold(s.manager, s.db, agent, id, changeSet);
      CompletionKeepsLog(s.manager, agent, id, changeSet);
    case OwedFailure(agent, id, error) => FailureDelivered(s.manager, s.db, left, agent, id, error);
  }

  lemma StepKeepsSystem(s: System, e: Event)
    requires SystemSound(s) && Possible(s, e)
    ensures SystemSound(Apply(s, e))
  {
    hide Invariant, Runs.Sound, ToldIsStored, StoredFor, Store, FailRun, Tell, ValidateChangeSet, ConnectionState.Apply,
      ConnectionState.Possible, Runs.Apply, Runs.Possible, IsTextOf;
    match e
    case OnManager(step) =>
      StepKeepsInvariant(s.manager, step);
      ManagerKeepsTold(s, step);
      StepKeepsPast(s.manager, step);
    case OnTables(change) =>
      Runs.StepKeepsSound(s.db, change);
      TablesKeepTold(s.manager.futures, s.db, change);
      TablesKeepOwed(s.owed, s.manager.log.validated, s.db, change);
    case StoreFrame(agent, id, changeSet, now) => StoreKeeps(s, agent, id, changeSet, now);
    case FailFrame(agent, id, error, text, now) => FailKeeps(s, agent, id, error, text, now);
    case TellOwed(o) => TellingKeeps(s, o);
  }

  lemma {:induction false} RunKeepsSystem(s: System, events: seq<Event>)
    requires SystemSound(s) && PossibleRun(s, events)
    ensures SystemSound(After(s, events))
    decreases events
  {
    if events != [] {
      hide SystemSound, Apply, Possible;
      StepKeepsSystem(s, events[0]);
      RunKeepsSystem(Apply(s, events[0]), events[1..]);
    }
  }

  function Start(grants: set<(string, string)>): System { System(EMPTY, Runs.Empty(grants), multiset{}) }

  lemma StartIsSound(grants: set<(string, string)>)
    ensures SystemSound(Start(grants))
  {
  }

  lemma StoredSucceeded(s: System, key: Key, changeSet: ChangeSet)
    requires SystemSound(s) && StoredFor(s.db, key, changeSet)
    ensures s.db.runs[changeSet.run].status.Succeeded?
  {
    hide Invariant, Runs.Sound;
    Runs.CapturedRunSucceeded(s.db, changeSet.run);
  }

  // ---- Main results ----

  /** The caller of this request holds the change set, or its handler is about to hand it over. */
  ghost predicate ToldOrOwed(s: System, key: Key, changeSet: ChangeSet) {
    || (key in s.manager.futures && s.manager.futures[key] == Done(Captured(changeSet)))
    || (key.kind.Coding? && OwedChangeSet(key.agent, key.id, changeSet) in s.owed)
  }

  /**
   Whatever else happens to the connections and the tables, also between the commit of a change set
   and its delivery, a caller is told of one only if it is stored, for the run of that very request,
   and that run succeeded. The same holds of a change set whose delivery is still to come.
   */
  lemma {:induction false} CallersAreToldOnlyWhatIsStored(grants: set<(string, string)>, events: seq<Event>, key: Key,
      changeSet: ChangeSet)
    requires PossibleRun(Start(grants), events) && ToldOrOwed(After(Start(grants), events), key, changeSet)
    ensures var db := After(Start(grants), events).db;
      StoredFor(db, key, changeSet) && db.runs[changeSet.run].status.Succeeded?
  {
    StartIsSound(grants);
    hide Invariant, Runs.Sound, PossibleRun, StoredFor;
    RunKeepsSystem(Start(grants), events);
    assert Key(Coding, key.agent, key.id) == key || !key.kind.Coding?;
    StoredSucceeded(After(Start(grants), events), key, changeSet);
  }

  // ---- What a frame comes to ----

  /** The frame's change set is what the run was dispatched for, and the run is still working on it. */
  predicate DeliversOrder(db: Runs.Database, agent: AgentId, id: string, changeSet: ChangeSet) {
    && changeSet.run in db.runs && db.runs[changeSet.run].status == Runs.Running
    && db.runs[changeSet.run].agent == agent && db.runs[changeSet.run].requestId == id
    && db.runs[changeSet.run].repository == changeSet.repository
  }

  /** A frame that delivers a running run's own order is stored, and owed to its caller. */
  lemma {:induction false} DeliveriesAreStoredAndOwed(s: System, agent: AgentId, id: string, changeSet: ChangeSet, now: int)
    requires Runs.Sound(s.db) && DeliversOrder(s.db, agent, id, changeSet)
    ensures var after, run := Store(s, agent, id, changeSet, now), changeSet.run;
      && after.manager == s.manager && after.owed == s.owed + multiset{OwedChangeSet(agent, id, changeSet)}
      && after.db.changeSets == s.db.changeSets[run := Outcomes.Delivered(s.db.runs[run])]
      && run in after.db.runs && after.db.runs[run].status == Runs.Succeeded
  {
    Outcomes.CaptureStoresWhatWasOrdered(s.db, changeSet.run, agent, id, changeSet.repository, now);
    hide Runs.Capture, Runs.Sound, Outcomes.Delivered, Runs.CaptureRefusal;
  }

  /** Why a frame is refused, as its caller is told. */
  function Reason(db: Runs.Database, run: string): string {
    if run !in db.runs then "'Coding run not found'"
    else if db.runs[run].status != Runs.Running then "Coding run is not accepting a change set"
    else "Change set does not match the authorized coding run"
  }

  /** Any other frame stores nothing: for a run that ended it is dropped, and otherwise a caller that waits is told why at once. */
  lemma {:induction false} OtherFramesStoreNothing(s: System, agent: AgentId, id: string, changeSet: ChangeSet, now: int, key: Key)
    requires Runs.Sound(s.db) && Invariant(s.manager) && key in s.manager.futures
    requires !DeliversOrder(s.db, agent, id, changeSet)
    ensures var after := Store(s, agent, id, changeSet, now);
      && after.db == s.db && after.owed == s.owed && key in after.manager.futures
      && after.manager.futures[key] ==
           if HasEnded(s.db, changeSet.run) || !Waits(s.manager, key) || key != Key(Coding, agent, id)
           then s.manager.futures[key] else Done(RemoteError(Reason(s.db, changeSet.run)))
  {
    Outcomes.CaptureStoresWhatWasOrdered(s.db, changeSet.run, agent, id, changeSet.repository, now);
    var refusal := Runs.CaptureRefusal(s.db, changeSet.run, agent, id, changeSet.repository);
    ReasonIsTold(s.db, changeSet.run, agent, id, changeSet.repository);
    RefusalReaches(s.manager, agent, id, refusal.value, key);
    hide Runs.Capture, Runs.Sound, Runs.CaptureRefusal, RefusalText, Reason, DeliverCodingFailure, Invariant, Waits,
      Outcomes.Delivered;
  }

  lemma ReasonIsTold(db: Runs.Database, run: string, agent: AgentId, id: string, repository: string)
    ensures Runs.CaptureRefusal(db, run, agent, id, repository).Some? ==>
      RefusalText(Runs.CaptureRefusal(db, run, agent, id, repository).value) == Reason(db, run)
  {
  }

  lemma RefusalReaches(m: Manager, agent: AgentId, id: string, refusal: Runs.CaptureError, key: Key)
    requires Invariant(m) && key in m.futures
    ensures var after := DeliverCodingFailure(m, agent, id, Str(RefusalText(refusal))).futures;
      key in after && after[key] ==
        if Waits(m, key) && key == Key(Coding, agent, id) then Done(RemoteError(RefusalText(refusal))) else m.futures[key]
  {
    hide Invariant, DeliverCodingFailure, Waits;
    AllKnown(m, key);
    FailureAnswers(m, agent, id, Str(RefusalText(refusal)), key);
    WaitsIsPending(m, key);
  }

  /** What is owed is paid in full: a caller that still waits gets the very change set or error, and nobody else anything. */
  lemma {:induction false} OwedIsPaid(s: System, o: Owed, key: Key)
    requires Invariant(s.manager) && key in s.manager.futures
    ensures var after := Tell(s, o);
      && after.db == s.db && after.owed == s.owed - multiset{o} && key in after.manager.futures
      && after.manager.futures[key] ==
           if !Waits(s.manager, key) || key != Key(Coding, o.agent, o.id) then s.manager.futures[key]
           else match o
             case OwedChangeSet(_, _, changeSet) => Done(Captured(changeSet))
             case OwedFailure(_, _, error) => Done(ErrorOutcome(error))
  {
    hide Invariant, DeliverCodingFailure, CompleteChangeSet, Waits;
    AllKnown(s.manager, key);
    WaitsIsPending(s.manager, key);
    match o
    case OwedChangeSet(agent, id, changeSet) => CompletionAnswers(s.manager, agent, id, changeSet, key);
    case OwedFailure(agent, id, error) => FailureAnswers(s.manager, agent, id, error, key);
  }

  /** A failure frame is owed to its caller exactly when its agent has the capability and the request's run has not ended. */
  lemma {:induction false} FailureFramesAreOwed(s: System, agent: AgentId, id: string, error: Value, text: string, now: int)
    ensures var after := FailRun(s, agent, id, error, text, now);
      && after.manager == s.manager
      && after.owed == s.owed + (
           if agent in s.manager.profiles && "coding_workspace" in s.manager.profiles[agent].capabilities
              && !(exists run :: run in s.db.runs && s.db.runs[run].requestId == id && !Runs.IsActive(s.db.runs[run].status))
           then multiset{OwedFailure(agent, id, error)} else multiset{})
  {
    hide Runs.FailRequest;
  }

  // ---- Who may fail a run ----

  predicate FailsRun(before: Runs.Database, after: Runs.Database, run: string) {
    run in before.runs && run in after.runs && Runs.IsActive(before.runs[run].status) && after.runs[run].status.Failed?
  }

  /**
   Which failure frames fail a run: those of any agent with the capability that name the run's
   request, the agent the run was dispatched to or not.
   */
  lemma {:induction false} FailureFrameFails(s: System, agent: AgentId, id: string, error: Value,
      text: string, now: int, run: string)
    requires Runs.Sound(s.db) && run in s.db.runs
    ensures FailsRun(s.db, FailRun(s, agent, id, error, text, now).db, run) <==>
      Supports(s.manager, agent, "coding_workspace") && s.db.runs[run].requestId == id
      && Runs.IsActive(s.db.runs[run].status)
  {
    hide Runs.Sound, Supports;
    RequestFails(s.db, id, text, now, run);
  }

  lemma RequestFails(db: Runs.Database, id: string, text: string, now: int, run: string)
    requires Runs.Sound(db) && run in db.runs
    ensures FailsRun(db, Runs.FailRequest(db, id, text, now), run) <==>
      db.runs[run].requestId == id && Runs.IsActive(db.runs[run].status)
  {
    hide Runs.RunsSound, Runs.AuditsSound;
    assert db.runs[run].requestId == id ==> Runs.RunOfRequest(db, id) == {run};
  }

  ghost predicate SomeFrameFails(s: System, agent: AgentId, run: string) {
    exists id, text, now :: FailsRun(s.db, FailRun(s, agent, id, Null, text, now).db, run)
  }

  /**
   When only its own agent can fail a run by a frame: exactly when the run has ended or no other
   agent with the coding capability is connected.
   */
  lemma {:induction false} OnlyTheOwnerFails(s: System, run: string)
    requires Runs.Sound(s.db) && run in s.db.runs
    ensures (forall agent :: SomeFrameFails(s, agent, run) ==> agent == s.db.runs[run].agent) <==>
      !Runs.IsActive(s.db.runs[run].status)
      || forall agent :: Supports(s.manager, agent, "coding_workspace") ==> agent == s.db.runs[run].agent
  {
    hide Runs.Sound, Supports, FailRun;
    forall agent
      ensures SomeFrameFails(s, agent, run) <==>
        Supports(s.manager, agent, "coding_workspace") && Runs.IsActive(s.db.runs[run].status)
    {
      FailureFrameFails(s, agent, s.db.runs[run].requestId, Null, "", 0, run);
      if SomeFrameFails(s, agent, run) {
        var id, text, now :| FailsRun(s.db, FailRun(s, agent, id, Null, text, now).db, run);
        FailureFrameFails(s, agent, id, Null, text, now, run);
      }
    }
  }

  /** After another agent failed a run, the frames of its own agent are dropped and its caller is never owed a word. */
  lemma {:induction false} StrangersFailureSilencesTheOwner(s: System, other: AgentId, error: Value,
      text: string, now: int, run: string)
    requires Runs.Sound(s.db) && run in s.db.runs && Runs.IsActive(s.db.runs[run].status)
    requires Supports(s.manager, other, "coding_workspace") && other != s.db.runs[run].agent
    ensures var owner, id := s.db.runs[run].agent, s.db.runs[run].requestId;
      var failed := FailRun(s, other, id, error, text, now);
      && failed.owed == s.owed + multiset{OwedFailure(other, id, error)}
      && (forall changeSet: ChangeSet, later | changeSet.run == run :: Store(failed, owner, id, changeSet, later) == failed)
      && (forall late, text', later :: FailRun(failed, owner, id, late, text', later).owed == failed.owed)
  {
    hide Supports, Runs.FailRequest, Runs.AuditsSound, Runs.RunsSound;
    var id := s.db.runs[run].requestId;
    FailureFrameFails(s, other, id, error, text, now, run);
    var failed := FailRun(s, other, id, error, text, now);
    RequestStays(s.db, id, text, now, run);
    assert Runs.RequestHasEnded(failed.db, id);
  }

  lemma RequestStays(db: Runs.Database, id: string, text: string, now: int, run: string)
    requires run in db.runs
    ensures run in Runs.FailRequest(db, id, text, now).runs
    ensures Runs.FailRequest(db, id, text, now).runs[run].requestId == db.runs[run].requestId
  {
  }
}
