/**
 What the caller of a request is told, and why: a future holds exactly the answer that was sent for
 its request while it waited, or the reason why none came.
 */
module ConnectionAnswers {
  import opened Wrappers
  import opened Json
  import opened ConnectionState
  import opened ConnectionProofs

  // ---- How a wait ends ----

  predicate IsErrorText(error: Value) { error.Str? && 0 < |error.s| <= 4096 }

  predicate AsksForRun(request: Request, c: ChangeSet) {
    request.CodingRequest? && c.repository == request.repository && c.run == request.run
  }

  predicate AsksForAction(request: Request, r: ActionResult) {
    && request.WorkspaceRequest? && r.repository == request.repository && r.run == request.run
    && r.branch == request.branch && r.action == request.action
    && (if request.action == "retain" then r.status == "retained" || r.status == "already_retained"
        else r.status == "removed" || r.status == "already_removed")
  }

  function ErrorOutcome(error: Value): Outcome { if IsErrorText(error) then RemoteError(error.s) else InvalidPayload }

  function ChangeSetOutcome(request: Request, value: Option<ChangeSet>): Outcome {
    if value.None? then InvalidPayload else if AsksForRun(request, value.value) then Captured(value.value) else Mismatch
  }

  function ResultOutcome(request: Request, value: Option<ActionResult>): Outcome {
    if value.None? then InvalidPayload else if AsksForAction(request, value.value) then Acted(value.value) else Mismatch
  }

  /** How this event ends the wait for the request that was made under this key on this socket, if it does. */
  function EndOf(e: Event, key: Key, request: Request, socket: Socket): Option<Outcome> {
    match e
    case ReplyIn(agent, id, text) => if key == Key(Chat, agent, id) then Some(Text(text)) else None
    case ChangeSetDone(agent, id, changeSet) => if key == Key(Coding, agent, id) then Some(Captured(changeSet)) else None
    case ChangeSetIn(agent, id, value) =>
      if key == Key(Coding, agent, id) then Some(ChangeSetOutcome(request, value)) else None
    case CodingFailureIn(agent, id, error) => if key == Key(Coding, agent, id) then Some(ErrorOutcome(error)) else None
    case ActionResultIn(agent, id, result, on) =>
      if key == Key(Workspace, agent, id) && on == socket then Some(ResultOutcome(request, result)) else None
    case ActionFailureIn(agent, id, error, on) =>
      if key == Key(Workspace, agent, id) && on == socket then Some(ErrorOutcome(error)) else None
    case GaveUp(k) => if k == key then Some(Cancelled) else None
    case ShutDown => Some(Cancelled)
    case Connected(agent, _) => if agent == key.agent then Some(ConnectionLost("agent connection replaced")) else None
    case Disconnected(agent, on) =>
      if agent == key.agent && on == socket then Some(ConnectionLost("agent disconnected")) else None
    case Closed(agent) => if agent == key.agent then Some(ConnectionLost("agent connection closed")) else None
    case _ => None
  }

  /** Its caller waits: the request is registered on its agent's current socket and still without an answer. */
  predicate Waits(m: Manager, key: Key) {
    && key in m.waiters && key in m.futures && m.futures[key].Pending?
    && key in m.owners && key.agent in m.conns && m.conns[key.agent] == m.owners[key]
    && key in m.log.requests && m.log.requests[key].Kind() == key.kind
    && (key.kind != Chat ==> key in m.expectations && m.expectations[key] == m.log.requests[key])
  }

  /** The future after the event: what ended the wait, or as it was. */
  function Answered(m: Manager, e: Event, key: Key): Future
    requires key in m.futures
  {
    if Waits(m, key) && EndOf(e, key, m.log.requests[key], m.owners[key]).Some?
    then Done(EndOf(e, key, m.log.requests[key], m.owners[key]).value)
    else m.futures[key]
  }

  lemma {:induction false} WaitersWait(m: Manager, key: Key)
    requires Invariant(m) && key in m.waiters && key in m.futures && m.futures[key].Pending?
    ensures Waits(m, key)
  {
    hide ReplayProtection, SlotsBalanced, WithinCapacity, ResultsCorrelated, ProgressBounded;
  }

  predicate Known(m: Manager, key: Key) { key in m.futures && (Open(m, key) ==> Waits(m, key)) }

  // ---- One step ----

  lemma SettledIs(m: Manager, settled: Key, outcome: Outcome, key: Key)
    requires key in m.futures && (settled in m.futures ==> m.futures[settled].Pending?)
    ensures key in SettleKey(m, settled, outcome).futures
    ensures SettleKey(m, settled, outcome).futures[key] == if settled == key then Done(outcome) else m.futures[key]
  {
  }

  lemma ReplyAnswers(m: Manager, agent: AgentId, id: string, text: Value, key: Key)
    requires Known(m, key)
    ensures key in DeliverReply(m, agent, id, text).futures
    ensures DeliverReply(m, agent, id, text).futures[key] == Answered(m, ReplyIn(agent, id, text), key)
  {
    hide SettleKey;
    var k := Key(Chat, agent, id);
    if Open(m, k) {
      SettledIs(m.(waiters := m.waiters - {k}), k, Text(text), key);
    }
  }

  lemma CompletionAnswers(m: Manager, agent: AgentId, id: string, changeSet: ChangeSet, key: Key)
    requires Known(m, key)
    ensures key in CompleteChangeSet(m, agent, id, changeSet).futures
    ensures CompleteChangeSet(m, agent, id, changeSet).futures[key] == Answered(m, ChangeSetDone(agent, id, changeSet), key)
  {
    hide SettleKey;
    if Open(m, Key(Coding, agent, id)) {
      SettledIs(m, Key(Coding, agent, id), Captured(changeSet), key);
    }
  }

  lemma ChangeSetAnswers(m: Manager, agent: AgentId, id: string, value: Option<ChangeSet>, key: Key)
    requires Known(m, key) && (Open(m, Key(Coding, agent, id)) ==> Waits(m, Key(Coding, agent, id)))
    ensures key in DeliverChangeSet(m, agent, id, value).futures
    ensures DeliverChangeSet(m, agent, id, value).futures[key] == Answered(m, ChangeSetIn(agent, id, value), key)
  {
    hide SettleKey;
    var k := Key(Coding, agent, id);
    if Open(m, k) {
      SettledIs(m, k, ChangeSetOutcome(m.log.requests[k], value), key);
    }
  }

  lemma FailureAnswers(m: Manager, agent: AgentId, id: string, error: Value, key: Key)
    requires Known(m, key)
    ensures key in DeliverCodingFailure(m, agent, id, error).futures
    ensures DeliverCodingFailure(m, agent, id, error).futures[key] == Answered(m, CodingFailureIn(agent, id, error), key)
  {
    hide SettleKey;
    if Open(m, Key(Coding, agent, id)) {
      SettledIs(m, Key(Coding, agent, id), ErrorOutcome(error), key);
    }
  }

  lemma ResultAnswers(m: Manager, agent: AgentId, id: string, value: Option<ActionResult>, socket: Socket, key: Key)
    requires Known(m, key) && (Open(m, Key(Workspace, agent, id)) ==> Waits(m, Key(Workspace, agent, id)))
    ensures key in DeliverActionResult(m, agent, id, value, socket).futures
    ensures DeliverActionResult(m, agent, id, value, socket).futures[key] ==
      Answered(m, ActionResultIn(agent, id, value, socket), key)
  {
    hide SettleKey;
    var k := Key(Workspace, agent, id);
    if Open(m, k) && m.owners[k] == socket {
      SettledIs(m, k, ResultOutcome(m.log.requests[k], value), key);
    }
  }

  lemma ActionFailureAnswers(m: Manager, agent: AgentId, id: string, error: Value, socket: Socket, key: Key)
    requires Known(m, key) && (Open(m, Key(Workspace, agent, id)) ==> Waits(m, Key(Workspace, agent, id)))
    ensures key in DeliverActionFailure(m, agent, id, error, socket).futures
    ensures DeliverActionFailure(m, agent, id, error, socket).futures[key] ==
      Answered(m, ActionFailureIn(agent, id, error, socket), key)
  {
    hide SettleKey;
    var k := Key(Workspace, agent, id);
    if Open(m, k) && m.owners[k] == socket {
      SettledIs(m, k, ErrorOutcome(error), key);
    }
  }

  lemma DropAnswers(m: Manager, agent: AgentId, reason: string, key: Key)
    requires Invariant(m) && agent in m.conns && key in m.futures
    ensures key in Drop(m, agent, reason).futures
    ensures Drop(m, agent, reason).futures[key] ==
      if Waits(m, key) && key.agent == agent then Done(ConnectionLost(reason)) else m.futures[key]
  {
    hide Drop, Accounting, ReplayProtection, PendingAwaited, ResultsCorrelated, ProgressBounded;
    DropKeepsKeys(m, agent, reason, key);
    DropFailsExactly(m, agent, reason, key);
    PendingWaits(m, key);
  }

  lemma DropKeepsKeys(m: Manager, agent: AgentId, reason: string, key: Key)
    requires agent in m.conns && key in m.futures
    ensures key in Drop(m, agent, reason).futures
  {
    hide OwnedBy;
  }

  /** On its agent's current socket a live request that has no answer waits, and nobody else does. */
  lemma {:induction false} PendingWaits(m: Manager, key: Key)
    requires Invariant(m) && key in m.futures
    ensures Waits(m, key) <==>
      m.futures[key].Pending? && key in m.log.live && IsActiveSocket(m, key.agent, m.log.live[key])
    ensures Waits(m, key) ==> m.owners[key] == m.log.live[key]
    ensures m.futures[key].Pending? && key in m.log.live ==> Waits(m, key)
  {
    hide ReplayProtection, SlotsBalanced, WithinCapacity, ResultsCorrelated, ProgressBounded;
  }

  lemma ConnectAnswers(m: Manager, agent: AgentId, socket: Socket, key: Key)
    requires Invariant(m) && socket !in m.log.usedSockets && key in m.futures
    ensures key in Connect(m, agent, socket).futures
    ensures Connect(m, agent, socket).futures[key] == Answered(m, ConnectionState.Connected(agent, socket), key)
  {
    hide Drop, Connect, Correlation, ReplayProtection, SlotsBalanced, WithinCapacity;
    if agent in m.conns {
      var dropped := Drop(m, agent, "agent connection replaced");
      DropAnswers(m, agent, "agent connection replaced", key);
      DropTables(m, agent, "agent connection replaced");
      ReplaceIsDropThenConnect(m, agent, socket);
      FirstConnectTables(dropped, agent, socket);
    } else {
      FirstConnectTables(m, agent, socket);
    }
  }

  lemma DisconnectAnswers(m: Manager, agent: AgentId, socket: Socket, key: Key)
    requires Invariant(m) && key in m.futures
    ensures key in Disconnect(m, agent, socket).futures
    ensures Disconnect(m, agent, socket).futures[key] == Answered(m, Disconnected(agent, socket), key)
  {
    hide Drop, Invariant;
    if IsActiveSocket(m, agent, socket) {
      DropAnswers(m, agent, "agent disconnected", key);
    }
  }

  lemma CloseAnswers(m: Manager, agent: AgentId, key: Key)
    requires Invariant(m) && key in m.futures
    ensures key in Close(m, agent).futures && Close(m, agent).futures[key] == Answered(m, Closed(agent), key)
  {
    hide Drop, Close, Correlation, ReplayProtection, SlotsBalanced;
    if agent in m.conns {
      DropAnswers(m, agent, "agent connection closed", key);
      CloseIsDrop(m, agent);
    } else {
      CloseAgain(m, agent);
    }
  }

  lemma GiveUpAnswers(m: Manager, k: Key, key: Key)
    requires Invariant(m) && k in m.log.live && key in m.futures
    ensures key in GiveUp(m, k).futures && GiveUp(m, k).futures[key] == Answered(m, GaveUp(k), key)
  {
    hide Invariant, Waits, SettleKey;
    if k != key {
      OthersSettled(m, k, Cancelled, key);
    } else {
      PendingWaits(m, key);
      OwnSettled(m, key, Cancelled);
      WaitsIsPending(m, key);
    }
  }

  lemma WaitsIsPending(m: Manager, key: Key)
    ensures Waits(m, key) ==> key in m.futures && m.futures[key].Pending? && key in m.owners && key in m.log.requests
  {
  }

  lemma OwnSettled(m: Manager, key: Key, outcome: Outcome)
    requires key in m.futures
    ensures key in SettleKey(m, key, outcome).futures
    ensures SettleKey(m, key, outcome).futures[key] == if m.futures[key].Pending? then Done(outcome) else m.futures[key]
  {
  }

  lemma OthersSettled(m: Manager, k: Key, outcome: Outcome, key: Key)
    requires key in m.futures && k != key
    ensures key in SettleKey(m, k, outcome).futures && SettleKey(m, k, outcome).futures[key] == m.futures[key]
  {
  }

  lemma BeginAnswers(m: Manager, k: Key, request: Request, key: Key)
    requires k !in m.futures && key in m.futures
    ensures key in Next(m, Begin(m, k, request)).futures
    ensures Next(m, Begin(m, k, request)).futures[key] == m.futures[key]
  {
    hide Begin, Next;
    BeginFutures(m, k, request);
  }

  lemma ShutDownAnswers(m: Manager, key: Key)
    requires Invariant(m) && key in m.futures
    ensures key in Reset(m).futures && Reset(m).futures[key] == Answered(m, ShutDown, key)
  {
    hide ReplayProtection, SlotsBalanced, WithinCapacity, ResultsCorrelated, ProgressBounded;
  }

  lemma BeginFutures(m: Manager, key: Key, request: Request)
    ensures Next(m, Begin(m, key, request)).futures == m.futures
            || Next(m, Begin(m, key, request)).futures == m.futures[key := Pending]
  {
    hide RequestError, IsAvailable, EffectiveActiveRuns;
  }

  lemma NoticeAnswers(m: Manager, e: Event, key: Key)
    requires e.ProgressIn? || e.ChangeSetChecked?
    ensures Apply(m, e).futures == m.futures
  {
    hide AcceptsProgress, RememberValidated;
    if e.ChangeSetChecked? {
      RememberedIs(m, e.agent, e.id, e.value);
    }
  }

  lemma DeliveryAnswers(m: Manager, e: Event, key: Key)
    requires Invariant(m) && Possible(m, e) && key in m.futures && IsDelivery(e)
    ensures key in Apply(m, e).futures && Apply(m, e).futures[key] == Answered(m, e, key)
  {
    hide Invariant, Answered, Waits, DeliverReply, DeliverProgress, RememberValidated, CompleteChangeSet, DeliverChangeSet,
      DeliverCodingFailure, DeliverActionResult, DeliverActionFailure;
    AllKnown(m, key);
    match e
    case ReplyIn(agent, id, text) => ReplyAnswers(m, agent, id, text, key);
    case ChangeSetDone(agent, id, changeSet) => CompletionAnswers(m, agent, id, changeSet, key);
    case ChangeSetIn(agent, id, value) =>
      AllKnown(m, Key(Coding, agent, id));
      ChangeSetAnswers(m, agent, id, value, key);
    case CodingFailureIn(agent, id, error) => FailureAnswers(m, agent, id, error, key);
    case ActionResultIn(agent, id, result, socket) =>
      AllKnown(m, Key(Workspace, agent, id));
      ResultAnswers(m, agent, id, result, socket, key);
    case ActionFailureIn(agent, id, error, socket) =>
      AllKnown(m, Key(Workspace, agent, id));
      ActionFailureAnswers(m, agent, id, error, socket, key);
    case _ =>
      NoticeAnswers(m, e, key);
      NoticeEndsNothing(m, e, key);
  }

  lemma NoticeEndsNothing(m: Manager, e: Event, key: Key)
    requires key in m.futures
    requires e.ProgressIn? || e.ChangeSetChecked? || e.HelloIn? || e.FrameIn? || e.ActivityIn? || e.Began? || e.Returned?
    ensures Answered(m, e, key) == m.futures[key]
  {
  }

  lemma AllKnown(m: Manager, key: Key)
    requires Invariant(m)
    ensures Open(m, key) ==> Waits(m, key)
  {
    hide Invariant, Waits;
    if Open(m, key) {
      WaitersWait(m, key);
    }
  }

  /**
   One step ends exactly the waits it is the end of: a waiting caller is handed the very answer that
   was sent for its request, or the reason why none will come; every other future stays as it was.
   */
  lemma {:induction false} StepAnswers(m: Manager, e: Event, key: Key)
    requires Invariant(m) && Possible(m, e) && key in m.futures
    ensures key in Apply(m, e).futures && Apply(m, e).futures[key] == Answered(m, e, key)
  {
    hide Invariant, Answered, Connect, Disconnect, Close, Return, Reset, GiveUp, Negotiate, ReceiveFrame, UpdateActivity,
      Begin, Next;
    if IsDelivery(e) {
      DeliveryAnswers(m, e, key);
    } else if e.HelloIn? || e.FrameIn? || e.ActivityIn? {
      FrameLeavesFutures(m, e);
      NoticeEndsNothing(m, e, key);
    } else {
      match e
      case Connected(agent, socket) => ConnectAnswers(m, agent, socket, key);
      case Disconnected(agent, socket) => DisconnectAnswers(m, agent, socket, key);
      case Closed(agent) => CloseAnswers(m, agent, key);
      case ShutDown => ShutDownAnswers(m, key);
      case GaveUp(k) => GiveUpAnswers(m, k, key);
      case Began(k, request) =>
        BeginAnswers(m, k, request, key);
        NoticeEndsNothing(m, e, key);
      case Returned(k) =>
        ReturnTables(m, k, m.log.live[k]);
        NoticeEndsNothing(m, e, key);
    }
  }

  // ---- Runs ----

  lemma {:induction false} RunsOn(m: Manager, events: seq<Event>, e: Event)
    requires PossibleRun(m, events + [e])
    ensures PossibleRun(m, events) && Possible(Run(m, events), e)
    ensures Run(m, events + [e]) == Apply(Run(m, events), e)
    decreases events
  {
    hide Apply, Possible;
    if events == [] {
      assert events + [e] == [e] && [e][1..] == [];
    } else {
      assert (events + [e])[0] == events[0] && (events + [e])[1..] == events[1..] + [e];
      RunsOn(Apply(m, events[0]), events[1..], e);
    }
  }

  predicate EndsNow(m: Manager, e: Event, key: Key, outcome: Outcome) {
    Waits(m, key) && EndOf(e, key, m.log.requests[key], m.owners[key]) == Some(outcome)
  }

  /** Event `i` found the caller waiting and ended the wait with this outcome. */
  predicate EndedAt(events: seq<Event>, i: nat, key: Key, outcome: Outcome) {
    && i < |events| && PossibleRun(EMPTY, events[..i])
    && var m := Run(EMPTY, events[..i]);
       EndsNow(m, events[i], key, outcome)
  }

  lemma EndedBefore(events: seq<Event>, e: Event, i: nat, key: Key, outcome: Outcome)
    ensures i < |events| ==> (EndedAt(events + [e], i, key, outcome) <==> EndedAt(events, i, key, outcome))
    ensures PossibleRun(EMPTY, events) ==>
      (EndedAt(events + [e], |events|, key, outcome) <==> EndsNow(Run(EMPTY, events), e, key, outcome))
  {
    hide Run, PossibleRun, EndsNow;
    if i < |events| {
      assert (events + [e])[..i] == events[..i];
    }
    assert (events + [e])[..|events|] == events;
  }

  lemma EndedOneMore(events: seq<Event>, e: Event, key: Key, outcome: Outcome)
    requires PossibleRun(EMPTY, events)
    ensures (exists i: nat :: EndedAt(events + [e], i, key, outcome)) <==>
      (exists i: nat :: EndedAt(events, i, key, outcome)) || EndsNow(Run(EMPTY, events), e, key, outcome)
  {
    hide Run, PossibleRun, EndsNow;
    EndedBefore(events, e, 0, key, outcome);
    hide EndedAt;
    if i: nat :| EndedAt(events + [e], i, key, outcome) {
      EndedInside(events + [e], i, key, outcome);
      EndedBefore(events, e, i, key, outcome);
    }
    if i: nat :| EndedAt(events, i, key, outcome) {
      EndedInside(events, i, key, outcome);
      EndedBefore(events, e, i, key, outcome);
    }
  }

  lemma EndedInside(events: seq<Event>, i: nat, key: Key, outcome: Outcome)
    requires EndedAt(events, i, key, outcome)
    ensures i < |events|
  {
  }

  lemma StepHolds(m: Manager, e: Event, key: Key, outcome: Outcome)
    requires Invariant(m) && Possible(m, e)
    ensures Holds(Apply(m, e).futures, key, outcome) <==> Holds(m.futures, key, outcome) || EndsNow(m, e, key, outcome)
  {
    hide Invariant, Apply, Possible, EndOf;
    if key in m.futures {
      StepAnswers(m, e, key);
    } else {
      NotYetBegun(m, e, key);
    }
  }

  predicate Holds(futures: map<Key, Future>, key: Key, outcome: Outcome) { key in futures && futures[key] == Done(outcome) }

  lemma NotYetBegun(m: Manager, e: Event, key: Key)
    requires Invariant(m) && Possible(m, e) && key !in m.futures
    ensures key in Apply(m, e).futures ==> Apply(m, e).futures[key].Pending?
  {
    if e.Began? {
      BeginFutures(m, e.key, e.request);
    } else {
      StepKeepsInvariant(m, e);
      StepKeepsPast(m, e);
      hide Apply, Possible, Correlation, ReplayProtection, SocketsDistinct, SlotsBalanced, WithinCapacity;
    }
  }

  /**
   A future holds an outcome exactly when some event of the run found its caller waiting and ended
   the wait with that very outcome; so no answer is made up, changed or lost.
   */
  lemma {:induction false} OutcomesAreWhatWasSent(events: seq<Event>, key: Key, outcome: Outcome)
    requires PossibleRun(EMPTY, events)
    ensures Holds(Run(EMPTY, events).futures, key, outcome) <==> exists i: nat :: EndedAt(events, i, key, outcome)
  {
    hide EndedAt;
    if events == [] {
      forall i: nat ensures !EndedAt(events, i, key, outcome) {
        if EndedAt(events, i, key, outcome) {
          EndedInside(events, i, key, outcome);
        }
      }
    } else {
      var init, e := events[..|events| - 1], events[|events| - 1];
      assert events == init + [e];
      RunsOn(EMPTY, init, e);
      OutcomesAreWhatWasSent(init, key, outcome);
      ReachableInvariant(init);
      hide Run, PossibleRun, Invariant, Apply, Possible, EndsNow, Holds;
      StepHolds(Run(EMPTY, init), e, key, outcome);
      EndedOneMore(init, e, key, outcome);
    }
  }
}
