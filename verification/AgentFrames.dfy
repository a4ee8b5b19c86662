/**
 The frame loop of an agent's socket: the gates every frame passes in order, and what each kind of
 frame then does. A frame takes the manager through steps of its machine, so whatever every run of
 those steps keeps, the loop keeps too.
 */
module AgentFrames {
  import opened Wrappers
  import opened Json
  import opened ConnectionState
  import opened ConnectionProofs
  import opened AgentConnectionManager
  import OutputTail
  import opened ConnectionAnswers
  import opened ConnectionGrants

  /** What a frame asks for, its payload already parsed. */
  datatype Body =
    | HelloBody
    | ReplyBody(id: string, text: Value)
    | ProgressBody(id: string, text: Value)
    | ToolBody
    | ActivityBody(active: Value)
    | ChangeSetBody(id: string, changeSet: Option<ChangeSet>)
    | RunFailedBody(id: string, error: Value)
    | ActionResultBody(id: string, result: Option<ActionResult>)
    | ActionFailedBody(id: string, error: Value)
    | OtherBody

  /** A frame as received; whether its signature verified is an input. */
  datatype Frame = Frame(body: Body, members: seq<Member>, signed: bool)

  datatype Answer =
    | Silent
    | StaleConnection | BadSignature | InvalidSequence
    | MissingCapability(capability: string) | InvalidProgress
    | HelloAck(profile: Profile) | HelloRefused(error: Error)
    | ActivityAck(profile: Profile) | ActivityRefused(error: Error)
    | CheckedChangeSet(checked: Result<Option<ChangeSet>, Outcome>)

  // ---- The gates ----

  function Gate(m: Manager, agent: AgentId, socket: Socket, f: Frame): Option<Answer> {
    if !IsActiveSocket(m, agent, socket) then Some(StaleConnection)
    else if !f.signed then Some(BadSignature)
    else if !f.body.HelloBody? && !AcceptsFrame(m, agent, socket, f.members) then Some(InvalidSequence)
    else None
  }

  predicate Negotiated(m: Manager, agent: AgentId) { agent in m.profiles && !m.profiles[agent].legacy }

  predicate ValidProgress(text: Value) { text.Str? && text.s != "" && |text.s| <= 16_384 }

  /** The step a frame takes once it passed the gates; none when a capability is missing. */
  function Action(m: Manager, agent: AgentId, socket: Socket, body: Body): seq<Event> {
    match body
    case ReplyBody(id, text) => [ReplyIn(agent, id, text)]
    case ProgressBody(id, text) =>
      if Supports(m, agent, "progress") && ValidProgress(text) then [ProgressIn(agent, id, |OutputTail.Encode(text.s)|)] else []
    case ActivityBody(active) => if Negotiated(m, agent) then [ActivityIn(agent, socket, active)] else []
    case ChangeSetBody(id, changeSet) =>
      if !Supports(m, agent, "coding_workspace") then []
      else if ValidateChangeSet(m, agent, id, changeSet).Err? then [ChangeSetIn(agent, id, changeSet)]
      else [ChangeSetChecked(agent, id, changeSet)]
    case ActionResultBody(id, result) =>
      if Supports(m, agent, "coding_workspace") then [ActionResultIn(agent, id, result, socket)] else []
    case ActionFailedBody(id, error) =>
      if Supports(m, agent, "coding_workspace") then [ActionFailureIn(agent, id, error, socket)] else []
    case _ => []
  }

  function Steps(m: Manager, agent: AgentId, socket: Socket, f: Frame, session: string): seq<Event> {
    if Gate(m, agent, socket, f).Some? then []
    else if f.body.HelloBody? then [HelloIn(agent, socket, f.members, session)]
    else [FrameIn(agent, socket, f.members)] + Action(m, agent, socket, f.body)
  }

  lemma OneStep(m: Manager, e: Event)
    requires Possible(m, e)
    ensures PossibleRun(m, [e]) && Run(m, [e]) == Apply(m, e)
  {
    hide Apply, Possible;
    assert [e][1..] == [];
  }

  lemma TwoSteps(m: Manager, e: Event, f: Event)
    requires Possible(m, e) && Possible(Apply(m, e), f)
    ensures PossibleRun(m, [e] + [f]) && Run(m, [e] + [f]) == Apply(Apply(m, e), f)
  {
    hide Apply, Possible;
    OneStep(Apply(m, e), f);
    assert ([e] + [f])[1..] == [f];
  }

  predicate IsFrameAction(e: Event) {
    || e.ReplyIn? || e.ProgressIn? || e.ActivityIn? || e.ChangeSetIn? || e.ChangeSetChecked?
    || e.ActionResultIn? || e.ActionFailureIn?
  }

  /** The steps of a frame are always possible ones. */
  lemma {:induction false} StepsArePossible(m: Manager, agent: AgentId, socket: Socket, f: Frame, session: string)
    requires session !in m.log.usedSessions
    ensures PossibleRun(m, Steps(m, agent, socket, f, session))
    ensures var steps := Steps(m, agent, socket, f, session);
      Run(m, steps) ==
        if steps == [] then m
        else if |steps| == 1 then Apply(m, steps[0])
        else Apply(Apply(m, steps[0]), steps[1])
  {
    hide Apply;
    var steps := Steps(m, agent, socket, f, session);
    if |steps| == 1 {
      OneStep(m, steps[0]);
      assert steps == [steps[0]];
    } else if |steps| == 2 {
      TwoSteps(m, steps[0], steps[1]);
      assert steps == [steps[0]] + [steps[1]];
    }
  }

  /** Reading a frame's number changes nothing its action looks at. */
  lemma NumberLeavesTheRest(m: Manager, agent: AgentId, socket: Socket, members: seq<Member>)
    ensures var n := ReceiveFrame(m, agent, socket, members);
      n == m.(sessions := n.sessions, log := n.log)
  {
    hide AcceptsFrame, Lookup;
    var n := ReceiveFrame(m, agent, socket, members);
    if n != m {
      assert n.log == m.log.(accepted := n.log.accepted);
    }
  }

  // ---- The loop body ----

  /** What is sent back for a frame that passed the gates. */
  predicate IsReply(m: Manager, after: Manager, agent: AgentId, socket: Socket, f: Frame, answer: Answer) {
    if !f.body.HelloBody? then IsAnswer(m, agent, socket, f.body, answer)
    else if HelloError(m, agent, socket, f.members).Some?
    then answer == HelloRefused(HelloError(m, agent, socket, f.members).value)
    else agent in after.profiles && answer == HelloAck(after.profiles[agent])
  }

  method HandleFrame(manager: Connections, agent: AgentId, socket: Socket, f: Frame,
      session: string) returns (answer: Answer)
    requires manager.Valid() && session !in manager.log.usedSessions
    modifies manager
    ensures manager.Valid()
    ensures PossibleRun(old(manager.Value()), Steps(old(manager.Value()), agent, socket, f, session))
    ensures manager.Value() == Run(old(manager.Value()), Steps(old(manager.Value()), agent, socket, f, session))
    ensures Gate(old(manager.Value()), agent, socket, f).Some? ==>
      answer == Gate(old(manager.Value()), agent, socket, f).value && manager.Value() == old(manager.Value())
    ensures Gate(old(manager.Value()), agent, socket, f).None? ==>
      IsReply(old(manager.Value()), manager.Value(), agent, socket, f, answer)
  {
    hide ReceiveFrame, AcceptsFrame, Negotiate, HelloError, ValidateChangeSet, ConnectionState.UpdateActivity;
    ghost var m := manager.Value();
    StepsArePossible(m, agent, socket, f, session);
    NumberLeavesTheRest(m, agent, socket, f.members);
    if Get(manager.conns, agent) != Some(socket) {
      return StaleConnection;
    }
    if !f.signed {
      return BadSignature;
    }
    if f.body.HelloBody? {
      var r := manager.NegotiateCapabilities(agent, socket, f.members, session);
      return if r.Ok? then HelloAck(r.value) else HelloRefused(r.error);
    }
    RefusedLeavesAll(m, agent, socket, f.members);
    var accepted := manager.ValidateFrameSequence(agent, socket, f.members);
    if !accepted {
      return InvalidSequence;
    }
    answer := HandleBody(manager, agent, socket, f.body);
    SameAction(m, manager.Value(), agent, socket, f);
    SameAnswer(m, ReceiveFrame(m, agent, socket, f.members), agent, socket, f.body, answer);
  }

  lemma RefusedLeavesAll(m: Manager, agent: AgentId, socket: Socket, members: seq<Member>)
    ensures !AcceptsFrame(m, agent, socket, members) ==> ReceiveFrame(m, agent, socket, members) == m
  {
  }

  predicate AtMostOneAction(actions: seq<Event>) { |actions| <= 1 && (|actions| == 1 ==> IsFrameAction(actions[0])) }

  /** What the rest of the loop body does, as a step on the manager that read the frame's number. */
  function TakeAction(m: Manager, actions: seq<Event>): Manager
    requires AtMostOneAction(actions)
  {
    if actions == [] then m else Apply(m, actions[0])
  }

  lemma ActionIsOneStep(m: Manager, agent: AgentId, socket: Socket, body: Body)
    ensures AtMostOneAction(Action(m, agent, socket, body))
  {
  }

  lemma SameAction(m: Manager, after: Manager, agent: AgentId, socket: Socket, f: Frame)
    requires Gate(m, agent, socket, f).None? && !f.body.HelloBody?
    requires var n := ReceiveFrame(m, agent, socket, f.members);
      && AtMostOneAction(Action(n, agent, socket, f.body))
      && after == TakeAction(n, Action(n, agent, socket, f.body))
    ensures var steps := Steps(m, agent, socket, f, "");
      && |steps| >= 1 && Possible(m, steps[0])
      && after == if |steps| == 1 then Apply(m, steps[0]) else Apply(Apply(m, steps[0]), steps[1])
  {
    hide ReceiveFrame, AcceptsFrame, Supports;
    NumberLeavesTheRest(m, agent, socket, f.members);
    SameValidation(m, ReceiveFrame(m, agent, socket, f.members), agent, f.body);
    hide ValidateChangeSet;
    assert Action(m, agent, socket, f.body) == Action(ReceiveFrame(m, agent, socket, f.members), agent, socket, f.body);
  }

  lemma SameValidation(m: Manager, n: Manager, agent: AgentId, body: Body)
    requires n == m.(sessions := n.sessions, log := n.log)
    ensures body.ChangeSetBody? ==>
      ValidateChangeSet(m, agent, body.id, body.changeSet) == ValidateChangeSet(n, agent, body.id, body.changeSet)
    ensures forall capability :: Supports(m, agent, capability) == Supports(n, agent, capability)
  {
  }

  lemma SameAnswer(m: Manager, n: Manager, agent: AgentId, socket: Socket, body: Body, answer: Answer)
    requires n == m.(sessions := n.sessions, log := n.log)
    ensures IsAnswer(n, agent, socket, body, answer) <==> IsAnswer(m, agent, socket, body, answer)
  {
    SameValidation(m, n, agent, body);
    if body.ActivityBody? {
      SameReport(m, n, agent, socket, body.active, answer);
    }
    hide ValidateChangeSet, Supports, IsActivityAnswer;
  }

  lemma SameReport(m: Manager, n: Manager, agent: AgentId, socket: Socket, active: Value, answer: Answer)
    requires n == m.(sessions := n.sessions, log := n.log)
    ensures IsActivityAnswer(ConnectionState.UpdateActivity(n, agent, socket, active), agent, answer) <==>
      IsActivityAnswer(ConnectionState.UpdateActivity(m, agent, socket, active), agent, answer)
  {
    SameActivityError(m, n, agent, socket, active);
    ReportResult(m, agent, socket, active);
    ReportResult(n, agent, socket, active);
    hide ConnectionState.UpdateActivity, ActivityError;
  }

  lemma SameActivityError(m: Manager, n: Manager, agent: AgentId, socket: Socket, active: Value)
    requires n == m.(sessions := n.sessions, log := n.log)
    ensures ActivityError(n, agent, socket, active) == ActivityError(m, agent, socket, active)
    ensures ActiveReservedSlots(n, agent) == ActiveReservedSlots(m, agent)
  {
  }

  /** A report is refused with its error, or the agent's profile counts it. */
  lemma ReportResult(m: Manager, agent: AgentId, socket: Socket, active: Value)
    ensures var r, error := ConnectionState.UpdateActivity(m, agent, socket, active), ActivityError(m, agent, socket, active);
      && (r.Err? <==> error.Some?) && (r.Err? ==> r.error == error.value)
      && (r.Ok? ==>
            && active.Int? && agent in m.profiles && agent in r.value.profiles
            && r.value.profiles[agent] == m.profiles[agent].(activeRuns := active.n + ActiveReservedSlots(m, agent)))
  {
    hide ActiveReservedSlots;
  }

  /** The agent has the capability the frame needs; only a negotiated agent reports activity. */
  predicate MayAsk(m: Manager, agent: AgentId, body: Body) {
    match body
    case ProgressBody(_, _) => Supports(m, agent, "progress")
    case ToolBody => Supports(m, agent, "tools")
    case ActivityBody(_) => Negotiated(m, agent)
    case ChangeSetBody(_, _) => Supports(m, agent, "coding_workspace")
    case RunFailedBody(_, _) => Supports(m, agent, "coding_workspace")
    case ActionResultBody(_, _) => Supports(m, agent, "coding_workspace")
    case ActionFailedBody(_, _) => Supports(m, agent, "coding_workspace")
    case _ => true
  }

  /** The name under which the answer reports the capability that a frame lacks. */
  function NeededCapability(body: Body): string {
    match body
    case ProgressBody(_, _) => "progress"
    case ToolBody => "tools"
    case ActivityBody(_) => "agent_activity"
    case _ => "coding_workspace"
  }

  /** What is sent back for a frame that passed the gates and found this state; a checked change set goes on to its storage. */
  predicate IsAnswer(m: Manager, agent: AgentId, socket: Socket, body: Body, answer: Answer) {
    if !MayAsk(m, agent, body) then answer == MissingCapability(NeededCapability(body))
    else
      match body
      case ProgressBody(_, text) => answer == if ValidProgress(text) then Silent else InvalidProgress
      case ActivityBody(active) => IsActivityAnswer(ConnectionState.UpdateActivity(m, agent, socket, active), agent, answer)
      case ChangeSetBody(id, changeSet) => answer == CheckedChangeSet(ValidateChangeSet(m, agent, id, changeSet))
      case _ => answer == Silent
  }

  predicate IsActivityAnswer(r: Result<Manager, Error>, agent: AgentId, answer: Answer) {
    match r
    case Ok(after) => agent in after.profiles && answer == ActivityAck(after.profiles[agent])
    case Err(e) => answer == ActivityRefused(e)
  }

  method HandleBody(manager: Connections, agent: AgentId, socket: Socket, body: Body) returns (answer: Answer)
    requires manager.Valid()
    modifies manager
    ensures manager.Valid()
    ensures AtMostOneAction(Action(old(manager.Value()), agent, socket, body))
    ensures manager.Value() == TakeAction(old(manager.Value()), Action(old(manager.Value()), agent, socket, body))
    ensures answer.MissingCapability? || answer.InvalidProgress? ==> manager.Value() == old(manager.Value())
    ensures IsAnswer(old(manager.Value()), agent, socket, body, answer)
  {
    hide ConnectionState.DeliverReply, ConnectionState.DeliverProgress, ConnectionState.UpdateActivity, ValidateChangeSet;
    ActionIsOneStep(manager.Value(), agent, socket, body);
    match body
    case ReplyBody(id, text) =>
      var delivered := manager.DeliverReply(agent, id, text);
      return Silent;
    case ProgressBody(id, text) =>
      if agent !in manager.profiles || "progress" !in manager.profiles[agent].capabilities { return MissingCapability("progress"); }
      if !ValidProgress(text) { return InvalidProgress; }
      var delivered := manager.DeliverProgress(agent, id, |OutputTail.Encode(text.s)|);
      return Silent;
    case ActivityBody(active) =>
      if agent !in manager.profiles || manager.profiles[agent].legacy { return MissingCapability("agent_activity"); }
      ReportResult(manager.Value(), agent, socket, active);
      var r := manager.UpdateActivity(agent, socket, active);
      return if r.Ok? then ActivityAck(r.value) else ActivityRefused(r.error);
    case _ =>
      answer := HandleCodingBody(manager, agent, socket, body);
  }

  /** The action of a frame about coding work, spelled out. */
  lemma CodingActionIs(m: Manager, agent: AgentId, socket: Socket, body: Body)
    requires !body.ReplyBody? && !body.ProgressBody? && !body.ActivityBody?
    ensures AtMostOneAction(Action(m, agent, socket, body))
    ensures TakeAction(m, Action(m, agent, socket, body)) ==
      if !Supports(m, agent, "coding_workspace") then m
      else
        match body
        case ChangeSetBody(id, changeSet) =>
          if ValidateChangeSet(m, agent, id, changeSet).Err? then ConnectionState.DeliverChangeSet(m, agent, id, changeSet)
          else RememberValidated(m, agent, id, changeSet)
        case ActionResultBody(id, result) => DeliverActionResult(m, agent, id, result, socket)
        case ActionFailedBody(id, error) => DeliverActionFailure(m, agent, id, error, socket)
        case _ => m
  {
    hide ValidateChangeSet, ConnectionState.DeliverChangeSet, RememberValidated, DeliverActionResult,
      DeliverActionFailure, Supports;
  }

  method HandleCodingBody(manager: Connections, agent: AgentId, socket: Socket, body: Body) returns (answer: Answer)
    requires manager.Valid() && !body.ReplyBody? && !body.ProgressBody? && !body.ActivityBody?
    modifies manager
    ensures manager.Valid()
    ensures AtMostOneAction(Action(old(manager.Value()), agent, socket, body))
    ensures manager.Value() == TakeAction(old(manager.Value()), Action(old(manager.Value()), agent, socket, body))
    ensures answer.MissingCapability? || answer.InvalidProgress? ==> manager.Value() == old(manager.Value())
    ensures IsAnswer(old(manager.Value()), agent, socket, body, answer)
  {
    hide Apply, Action, TakeAction;
    ActionIsOneStep(manager.Value(), agent, socket, body);
    CodingActionIs(manager.Value(), agent, socket, body);
    hide ValidateChangeSet, ConnectionState.DeliverChangeSet, RememberValidated, DeliverActionResult, DeliverActionFailure;
    if body.ToolBody? {
      var supported := agent in manager.profiles && "tools" in manager.profiles[agent].capabilities;
      return if supported then Silent else MissingCapability("tools");
    }
    if body.HelloBody? || body.OtherBody? {
      return Silent;
    }
    if agent !in manager.profiles || "coding_workspace" !in manager.profiles[agent].capabilities {
      return MissingCapability("coding_workspace");
    }
    match body
    case ChangeSetBody(id, changeSet) =>
      answer := CheckCodingChangeSet(manager, agent, id, changeSet);
    case ActionResultBody(id, result) =>
      var delivered := manager.DeliverWorkspaceActionResult(agent, id, result, socket);
      return Silent;
    case ActionFailedBody(id, error) =>
      var delivered := manager.DeliverWorkspaceActionFailure(agent, id, error, socket);
      return Silent;
    case RunFailedBody(_, _) =>
      return Silent;
  }

  /** The first stretch of a change-set frame: check it, and tell the waiter at once when it does not belong. */
  method CheckCodingChangeSet(manager: Connections, agent: AgentId, id: string,
      changeSet: Option<ChangeSet>) returns (answer: Answer)
    requires manager.Valid()
    modifies manager
    ensures manager.Valid()
    ensures answer == CheckedChangeSet(ValidateChangeSet(old(manager.Value()), agent, id, changeSet))
    ensures manager.Value() ==
      if ValidateChangeSet(old(manager.Value()), agent, id, changeSet).Err?
      then ConnectionState.DeliverChangeSet(old(manager.Value()), agent, id, changeSet)
      else RememberValidated(old(manager.Value()), agent, id, changeSet)
  {
    hide ConnectionState.DeliverChangeSet, ValidateChangeSet;
    var checked := manager.ValidateCodingChangeSet(agent, id, changeSet);
    if checked.Err? {
      var delivered := manager.DeliverChangeSet(agent, id, changeSet);
    }
    return CheckedChangeSet(checked);
  }

  // ---- What a frame that passed does ----

  /** The outcome a frame's body hands the caller of this request; a change set that fits is handed over once it is stored. */
  function BodyOutcome(body: Body, key: Key, request: Request): Option<Outcome> {
    match body
    case ReplyBody(id, text) => if key.kind.Chat? && key.id == id then Some(Text(text)) else None
    case ChangeSetBody(id, changeSet) =>
      var outcome := ChangeSetOutcome(request, changeSet);
      if key.kind.Coding? && key.id == id && !outcome.Captured? then Some(outcome) else None
    case ActionResultBody(id, result) =>
      if key.kind.Workspace? && key.id == id then Some(ResultOutcome(request, result)) else None
    case ActionFailedBody(id, error) => if key.kind.Workspace? && key.id == id then Some(ErrorOutcome(error)) else None
    case _ => None
  }

  /** The future once the frame is dealt with: what its body hands to a caller that waits, or as it was. */
  function Handed(m: Manager, agent: AgentId, body: Body, key: Key): Future
    requires key in m.futures
  {
    if Waits(m, key) && key.agent == agent && MayAsk(m, agent, body) && BodyOutcome(body, key, m.log.requests[key]).Some?
    then Done(BodyOutcome(body, key, m.log.requests[key]).value)
    else m.futures[key]
  }

  /**
   A frame that passed the gates, from an agent with the capability, hands the caller that waits for
   it exactly what it carries; no other future changes, and none changes without the capability.
   */
  lemma {:induction false} PassingFramesAnswer(m: Manager, agent: AgentId, socket: Socket, f: Frame, session: string, key: Key)
    requires Invariant(m) && key in m.futures && session !in m.log.usedSessions
    requires Gate(m, agent, socket, f).None? && !f.body.HelloBody?
    ensures PossibleRun(m, Steps(m, agent, socket, f, session))
    ensures var after := Run(m, Steps(m, agent, socket, f, session)).futures;
      key in after && after[key] == Handed(m, agent, f.body, key)
  {
    hide Invariant, Run, PossibleRun, Steps, Action, Handed, TakeAction, AtMostOneAction, ReceiveFrame;
    StepsTaken(m, agent, socket, f, session);
    StepKeepsInvariant(m, FrameIn(agent, socket, f.members));
    NumberLeavesTheRest(m, agent, socket, f.members);
    SameNumberedRequests(m, agent, socket, f.members);
    TakenAnswers(m, ReceiveFrame(m, agent, socket, f.members), agent, socket, f.body, key);
  }

  lemma TakenAnswers(m: Manager, n: Manager, agent: AgentId, socket: Socket, body: Body, key: Key)
    requires Invariant(n) && key in m.futures && IsActiveSocket(m, agent, socket)
    requires n == m.(sessions := n.sessions, log := n.log) && n.log.requests == m.log.requests
    ensures AtMostOneAction(Action(m, agent, socket, body))
    ensures var after := TakeAction(n, Action(m, agent, socket, body)).futures;
      key in after && after[key] == Handed(m, agent, body, key)
  {
    hide Invariant, Action, Answered, Handed, Apply;
    ActionAnswers(m, n, agent, socket, body, key);
    if Action(m, agent, socket, body) != [] {
      StepAnswers(n, Action(m, agent, socket, body)[0], key);
    }
  }

  lemma SameNumberedRequests(m: Manager, agent: AgentId, socket: Socket, members: seq<Member>)
    ensures ReceiveFrame(m, agent, socket, members).futures == m.futures
    ensures ReceiveFrame(m, agent, socket, members).log.requests == m.log.requests
  {
    hide AcceptsFrame, Lookup;
  }

  /** A frame that passed is read, and then its action is taken. */
  lemma StepsTaken(m: Manager, agent: AgentId, socket: Socket, f: Frame, session: string)
    requires session !in m.log.usedSessions && Gate(m, agent, socket, f).None? && !f.body.HelloBody?
    ensures AtMostOneAction(Action(m, agent, socket, f.body)) && PossibleRun(m, Steps(m, agent, socket, f, session))
    ensures Run(m, Steps(m, agent, socket, f, session)) ==
      TakeAction(ReceiveFrame(m, agent, socket, f.members), Action(m, agent, socket, f.body))
  {
    StepsArePossible(m, agent, socket, f, session);
    ActionIsOneStep(m, agent, socket, f.body);
    hide Run, PossibleRun, ReceiveFrame, AcceptsFrame, Action;
  }

  lemma ActionAnswers(m: Manager, n: Manager, agent: AgentId, socket: Socket, body: Body, key: Key)
    requires key in m.futures && n == m.(sessions := n.sessions, log := n.log) && n.log.requests == m.log.requests
    requires IsActiveSocket(m, agent, socket)
    ensures AtMostOneAction(Action(m, agent, socket, body))
    ensures (if Action(m, agent, socket, body) == [] then m.futures[key]
             else Answered(n, Action(m, agent, socket, body)[0], key)) ==
      Handed(m, agent, body, key)
  {
    hide Action, Answered, Handed, AtMostOneAction;
    if body.ChangeSetBody? || body.ActionResultBody? || body.ActionFailedBody? {
      WorkAnswers(m, n, agent, socket, body, key);
    } else {
      TalkAnswers(m, n, agent, socket, body, key);
    }
  }

  lemma WorkAnswers(m: Manager, n: Manager, agent: AgentId, socket: Socket, body: Body, key: Key)
    requires key in m.futures && n == m.(sessions := n.sessions, log := n.log) && n.log.requests == m.log.requests
    requires IsActiveSocket(m, agent, socket)
    requires body.ChangeSetBody? || body.ActionResultBody? || body.ActionFailedBody?
    ensures AtMostOneAction(Action(m, agent, socket, body))
    ensures (if Action(m, agent, socket, body) == [] then m.futures[key]
             else Answered(n, Action(m, agent, socket, body)[0], key)) ==
      Handed(m, agent, body, key)
  {
    hide Supports, ErrorOutcome, ResultOutcome;
  }

  lemma TalkAnswers(m: Manager, n: Manager, agent: AgentId, socket: Socket, body: Body, key: Key)
    requires key in m.futures && n == m.(sessions := n.sessions, log := n.log) && n.log.requests == m.log.requests
    requires IsActiveSocket(m, agent, socket)
    requires !body.ChangeSetBody? && !body.ActionResultBody? && !body.ActionFailedBody?
    ensures AtMostOneAction(Action(m, agent, socket, body))
    ensures (if Action(m, agent, socket, body) == [] then m.futures[key]
             else Answered(n, Action(m, agent, socket, body)[0], key)) ==
      Handed(m, agent, body, key)
  {
    hide Supports, ErrorOutcome, ResultOutcome, ChangeSetOutcome, ValidateChangeSet;
  }

  // ---- The gates and counters of reachable states ----

  /** The frame belongs to the socket's session and carries a newer number than all it let through. */
  predicate InOrder(m: Manager, socket: Socket, members: seq<Member>) {
    && socket in m.sessions && Lookup(members, "session_id") == Str(m.sessions[socket].id) && Lookup(members, "seq").Int?
    && IsNewer(m.log.accepted, m.sessions[socket].id, Lookup(members, "seq").n)
  }

  /** A frame is stopped at the first gate it does not fit, and at the last one only for its session or its number. */
  lemma {:induction false} GatesStandInOrder(events: seq<Event>, agent: AgentId, socket: Socket, f: Frame)
    requires PossibleRun(EMPTY, events)
    ensures var m := Run(EMPTY, events);
      var last := !f.body.HelloBody? && Negotiated(m, agent);
      match Gate(m, agent, socket, f)
      case Some(StaleConnection) => !IsActiveSocket(m, agent, socket)
      case Some(BadSignature) => IsActiveSocket(m, agent, socket) && !f.signed
      case Some(InvalidSequence) => IsActiveSocket(m, agent, socket) && f.signed && last && !InOrder(m, socket, f.members)
      case Some(_) => false
      case None => IsActiveSocket(m, agent, socket) && f.signed && (last ==> InOrder(m, socket, f.members))
  {
    hide Run, PossibleRun, AcceptsFrame, IsNewer;
    var m := Run(EMPTY, events);
    if IsActiveSocket(m, agent, socket) {
      if Negotiated(m, agent) {
        NewerFramesAreTaken(events, agent, socket, f.members);
      } else {
        LegacyAcceptsAll(m, agent, socket, f.members);
      }
    }
  }

  /** The count of a request's progress once the frame is dealt with. */
  function Counted(m: Manager, agent: AgentId, body: Body, key: Key): Usage
    requires key in m.progress
  {
    var usage := m.progress[key];
    if body.ProgressBody? && key == Key(Chat, agent, body.id) && Supports(m, agent, "progress")
       && body.text.Str? && 0 < |body.text.s| <= 16384
       && usage.frames < 256 && usage.bytes + |OutputTail.Encode(body.text.s)| <= 1024 * 1024
    then Usage(usage.frames + 1, usage.bytes + |OutputTail.Encode(body.text.s)|)
    else usage
  }

  /** The profile once the frame is dealt with: a fitting report of a negotiated agent counts beside what is in flight. */
  function Reported(m: Manager, agent: AgentId, socket: Socket, body: Body): Profile
    requires agent in m.profiles
  {
    var profile := m.profiles[agent];
    if body.ActivityBody? && !profile.legacy && body.active.Int? && 0 <= body.active.n
       && body.active.n + InFlight(m, agent, socket) <= profile.maxConcurrency
    then profile.(activeRuns := body.active.n + InFlight(m, agent, socket))
    else profile
  }

  /** A frame that passed leaves its number behind, and counts as the progress or the report that it is. */
  lemma {:induction false} PassingFramesCount(m: Manager, agent: AgentId, socket: Socket, f: Frame, session: string, key: Key)
    requires Invariant(m) && session !in m.log.usedSessions
    requires Gate(m, agent, socket, f).None? && !f.body.HelloBody?
    ensures PossibleRun(m, Steps(m, agent, socket, f, session)) && agent in m.profiles
    ensures var n := Run(m, Steps(m, agent, socket, f, session));
      && n.conns == m.conns && n.profiles == m.profiles[agent := Reported(m, agent, socket, f.body)]
      && (Negotiated(m, agent) ==>
            && socket in m.sessions && Lookup(f.members, "seq").Int?
            && n.sessions == m.sessions[socket := Session(m.sessions[socket].id, Lookup(f.members, "seq").n)])
      && (key in m.progress ==> key in n.progress && n.progress[key] == Counted(m, agent, f.body, key))
  {
    hide Invariant, Run, PossibleRun, Steps, Action, TakeAction, AtMostOneAction, ReceiveFrame, Counted, Reported;
    StepsTaken(m, agent, socket, f, session);
    StepKeepsInvariant(m, FrameIn(agent, socket, f.members));
    ConnectedHaveProfiles(m, agent);
    NumbersStay(m, agent, socket, f.members);
    ActionCounts(m, ReceiveFrame(m, agent, socket, f.members), agent, socket, f.body, key);
  }

  /** A signed hello of the current socket is negotiated, and nothing else is done for it. */
  lemma {:induction false} HelloFramesNegotiate(m: Manager, agent: AgentId, socket: Socket, f: Frame, session: string)
    requires session !in m.log.usedSessions && Gate(m, agent, socket, f).None? && f.body.HelloBody?
    ensures PossibleRun(m, Steps(m, agent, socket, f, session))
    ensures Run(m, Steps(m, agent, socket, f, session)) == Next(m, Negotiate(m, agent, socket, f.members, session))
  {
    hide Negotiate, Run, PossibleRun, AcceptsFrame;
    StepsArePossible(m, agent, socket, f, session);
  }

  lemma NumbersStay(m: Manager, agent: AgentId, socket: Socket, members: seq<Member>)
    requires AcceptsFrame(m, agent, socket, members)
    ensures var n := ReceiveFrame(m, agent, socket, members);
      && n == m.(sessions := n.sessions, log := n.log) && n.log.live == m.log.live
      && (Negotiated(m, agent) ==>
            && socket in m.sessions && Lookup(members, "seq").Int?
            && n.sessions == m.sessions[socket := Session(m.sessions[socket].id, Lookup(members, "seq").n)])
  {
    hide Lookup;
    NumberLeavesTheRest(m, agent, socket, members);
  }

  lemma ActionCounts(m: Manager, n: Manager, agent: AgentId, socket: Socket, body: Body, key: Key)
    requires Invariant(n) && IsActiveSocket(m, agent, socket) && agent in m.profiles
    requires n == m.(sessions := n.sessions, log := n.log) && n.log.live == m.log.live
    ensures AtMostOneAction(Action(m, agent, socket, body))
    ensures var after := TakeAction(n, Action(m, agent, socket, body));
      && after.conns == m.conns && after.sessions == n.sessions
      && after.profiles == m.profiles[agent := Reported(m, agent, socket, body)]
      && (key in m.progress ==> key in after.progress && after.progress[key] == Counted(m, agent, body, key))
  {
    hide Invariant, Apply, Action, Reported, Counted, InFlight;
    ActionIsOneStep(m, agent, socket, body);
    OnlyReportsCount(m, agent, socket, body);
    OnlyProgressCounts(m, agent, socket, body, key);
    SameReported(m, n, agent, socket, body);
    var actions := Action(m, agent, socket, body);
    if actions == [] {
    } else if actions[0].ActivityIn? {
      ReportsCount(n, agent, socket, body.active);
    } else {
      DeliveryLeaves(n, actions[0]);
      if actions[0].ProgressIn? {
        ProgressTaken(n, agent, body.id, actions[0].size, key);
      }
    }
  }

  lemma ProgressTaken(m: Manager, agent: AgentId, id: string, size: nat, key: Key)
    ensures var n := Apply(m, ProgressIn(agent, id, size));
      key in m.progress ==>
        && key in n.progress
        && n.progress[key] ==
          if key == Key(Chat, agent, id) && m.progress[key].frames < 256 && m.progress[key].bytes + size <= 1024 * 1024
          then Usage(m.progress[key].frames + 1, m.progress[key].bytes + size) else m.progress[key]
  {
    hide DeliverProgress;
    if key in m.progress {
      ProgressIsCounted(m, agent, id, size, key);
    }
  }

  lemma OnlyReportsCount(m: Manager, agent: AgentId, socket: Socket, body: Body)
    requires agent in m.profiles
    ensures var actions := Action(m, agent, socket, body);
      if actions != [] && actions[0].ActivityIn?
      then actions == [ActivityIn(agent, socket, body.active)] && body.ActivityBody? && Negotiated(m, agent)
      else m.profiles == m.profiles[agent := Reported(m, agent, socket, body)]
  {
    hide Supports, ValidateChangeSet, InFlight;
    var actions := Action(m, agent, socket, body);
    if actions == [] || !actions[0].ActivityIn? {
      assert m.profiles == m.profiles[agent := m.profiles[agent]];
    }
  }

  lemma SameReported(m: Manager, n: Manager, agent: AgentId, socket: Socket, body: Body)
    requires agent in m.profiles && n == m.(sessions := n.sessions, log := n.log) && n.log.live == m.log.live
    ensures Reported(n, agent, socket, body) == Reported(m, agent, socket, body)
  {
    hide Holding;
  }

  lemma OnlyProgressCounts(m: Manager, agent: AgentId, socket: Socket, body: Body, key: Key)
    requires agent in m.profiles
    ensures var actions := Action(m, agent, socket, body);
      if actions != [] && actions[0].ProgressIn?
      then
        && body.ProgressBody? && Supports(m, agent, "progress") && ValidProgress(body.text)
        && actions == [ProgressIn(agent, body.id, |OutputTail.Encode(body.text.s)|)]
      else key in m.progress ==> Counted(m, agent, body, key) == m.progress[key]
    ensures key in m.progress && body.ProgressBody? && Supports(m, agent, "progress") && ValidProgress(body.text) ==>
      var size := |OutputTail.Encode(body.text.s)|;
      Counted(m, agent, body, key) ==
        if key == Key(Chat, agent, body.id) && m.progress[key].frames < 256 && m.progress[key].bytes + size <= 1024 * 1024
        then Usage(m.progress[key].frames + 1, m.progress[key].bytes + size) else m.progress[key]
  {
    hide Supports, ValidateChangeSet;
  }

  lemma ReportsCount(m: Manager, agent: AgentId, socket: Socket, active: Value)
    requires Invariant(m) && IsActiveSocket(m, agent, socket) && agent in m.profiles && !m.profiles[agent].legacy
    ensures var n := Apply(m, ActivityIn(agent, socket, active));
      n == m.(profiles := m.profiles[agent := Reported(m, agent, socket, ActivityBody(active))], reported := n.reported)
  {
    hide Invariant, ConnectionState.UpdateActivity, InFlight;
    FittingReportsAreTaken(m, agent, socket, active);
    if ConnectionState.UpdateActivity(m, agent, socket, active).Ok? {
      TakenReportsCount(m, agent, socket, active);
    }
  }

  /** Everything but the waits, the progress and the record of checked change sets. */
  predicate SameConnections(m: Manager, n: Manager) {
    n == m.(waiters := n.waiters, futures := n.futures, progress := n.progress, log := n.log)
  }

  lemma SettlingLeaves(m: Manager, key: Key, outcome: Outcome)
    ensures SameConnections(m, SettleKey(m, key, outcome)) && SettleKey(m, key, outcome).progress == m.progress
  {
  }

  lemma CodingAnswersLeave(m: Manager, agent: AgentId, id: string, value: Option<ChangeSet>)
    ensures var n := DeliverChangeSet(m, agent, id, value); SameConnections(m, n) && n.progress == m.progress
  {
    hide SettleKey, Open, MatchesRequest, SameConnections;
    var key := Key(Coding, agent, id);
    SettlingLeaves(m, key, InvalidPayload);
    SettlingLeaves(m, key, Mismatch);
    NothingLeft(m);
    if value.Some? {
      SettlingLeaves(m, key, Captured(value.value));
    }
  }

  lemma NothingLeft(m: Manager)
    ensures SameConnections(m, m)
  {
  }

  lemma ChecksLeave(m: Manager, agent: AgentId, id: string, value: Option<ChangeSet>)
    ensures var n := RememberValidated(m, agent, id, value); SameConnections(m, n) && n.progress == m.progress
  {
    hide ValidateChangeSet;
  }

  lemma ActionAnswersLeave(m: Manager, agent: AgentId, id: string, result: Option<ActionResult>, error: Value, socket: Socket)
    ensures var n := DeliverActionResult(m, agent, id, result, socket); SameConnections(m, n) && n.progress == m.progress
    ensures var n := DeliverActionFailure(m, agent, id, error, socket); SameConnections(m, n) && n.progress == m.progress
  {
    hide SettleKey, OpenOnSocket, ResultMatches, FailureOutcome;
    var key := Key(Workspace, agent, id);
    SettlingLeaves(m, key, InvalidPayload);
    SettlingLeaves(m, key, Mismatch);
    SettlingLeaves(m, key, FailureOutcome(error));
    if result.Some? {
      SettlingLeaves(m, key, Acted(result.value));
    }
  }

  lemma ReplyLeaves(m: Manager, agent: AgentId, id: string, text: Value)
    ensures var n := DeliverReply(m, agent, id, text); SameConnections(m, n) && n.progress == m.progress
  {
    hide SettleKey, Open;
    SettlingLeaves(m.(waiters := m.waiters - {Key(Chat, agent, id)}), Key(Chat, agent, id), Text(text));
  }

  lemma DeliveryLeaves(m: Manager, e: Event)
    requires Possible(m, e) && IsFrameAction(e) && !e.ActivityIn?
    ensures var n := Apply(m, e); SameConnections(m, n) && (!e.ProgressIn? ==> n.progress == m.progress)
  {
    hide DeliverReply, DeliverProgress, RememberValidated, DeliverChangeSet, DeliverActionResult, DeliverActionFailure,
      SameConnections;
    match e
    case ReplyIn(agent, id, text) => ReplyLeaves(m, agent, id, text);
    case ProgressIn(agent, id, size) => ProgressLeaves(m, agent, id, size);
    case ChangeSetChecked(agent, id, value) => ChecksLeave(m, agent, id, value);
    case ChangeSetIn(agent, id, value) => CodingAnswersLeave(m, agent, id, value);
    case ActionResultIn(agent, id, result, socket) => ActionAnswersLeave(m, agent, id, result, Null, socket);
    case ActionFailureIn(agent, id, error, socket) => ActionAnswersLeave(m, agent, id, None, error, socket);
  }

  lemma ProgressLeaves(m: Manager, agent: AgentId, id: string, size: nat)
    ensures SameConnections(m, DeliverProgress(m, agent, id, size))
  {
    hide AcceptsProgress;
  }

  // ---- Replay ----

  lemma {:induction false} RunKeepsAccepted(m: Manager, events: seq<Event>)
    requires PossibleRun(m, events)
    ensures m.log.accepted <= Run(m, events).log.accepted
    decreases events
  {
    if events != [] {
      hide Apply, Possible;
      StepKeepsPast(m, events[0]);
      RunKeepsAccepted(Apply(m, events[0]), events[1..]);
    }
  }

  lemma AcceptedIsBehind(m: Manager, agent: AgentId, socket: Socket, members: seq<Member>, past: Accepted)
    requires Invariant(m) && Negotiated(m, agent) && past in m.log.accepted
    requires Lookup(members, "session_id") == Str(past.session) && Lookup(members, "seq") == Int(past.number)
    ensures !AcceptsFrame(m, agent, socket, members)
  {
    hide Accounting, Correlation, LegacyUntilGreeted, GreetedOnce, SessionsDistinct;
  }

  /**
   When the copy of a frame that a negotiated connection let through passes the gates: whatever
   happened in between, exactly on a current socket that has not negotiated. A negotiated
   connection, of this agent or another, stops it for good.
   */
  lemma {:induction false} ReplayStopsExactlyWhereNegotiated(before: seq<Event>, agent: AgentId, socket: Socket, f: Frame,
                                          between: seq<Event>, agent': AgentId, socket': Socket, copy: Frame)
    requires PossibleRun(EMPTY, before)
    requires var m := Run(EMPTY, before); Gate(m, agent, socket, f).None? && !f.body.HelloBody? && Negotiated(m, agent)
    requires PossibleRun(ReceiveFrame(Run(EMPTY, before), agent, socket, f.members), between)
    requires !copy.body.HelloBody? && Lookup(copy.members, "session_id") == Lookup(f.members, "session_id")
             && Lookup(copy.members, "seq") == Lookup(f.members, "seq")
    ensures var later := Run(ReceiveFrame(Run(EMPTY, before), agent, socket, f.members), between);
      Gate(later, agent', socket', copy).None? <==>
        IsActiveSocket(later, agent', socket') && copy.signed && !Negotiated(later, agent')
  {
    hide Accounting, Correlation, ReplayProtection, Apply, Possible;
    var m := Run(EMPTY, before);
    var n := ReceiveFrame(m, agent, socket, f.members);
    ReachableInvariant(before);
    FrameKeeps(m, agent, socket, f.members);
    RunKeepsInvariant(n, between);
    RunKeepsAccepted(n, between);
    var past := Accepted(agent, socket, m.sessions[socket].id, Lookup(f.members, "seq").n);
    assert n.log.accepted[|m.log.accepted|] == past;
    assert Run(n, between).log.accepted[|m.log.accepted|] == past;
    if Negotiated(Run(n, between), agent') {
      AcceptedIsBehind(Run(n, between), agent', socket', copy.members, past);
    }
  }

  /** So every frame of a session passes once more on the agent's next socket, until that one has negotiated. */
  lemma {:induction false} NextSocketTakesTheFrameAgain(before: seq<Event>, agent: AgentId, socket: Socket, f: Frame, next: Socket)
    requires PossibleRun(EMPTY, before)
    requires var m := Run(EMPTY, before); Gate(m, agent, socket, f).None? && !f.body.HelloBody? && Negotiated(m, agent)
    requires next !in Run(EMPTY, before).log.usedSockets
    ensures var n := ReceiveFrame(Run(EMPTY, before), agent, socket, f.members);
      && Possible(n, Connected(agent, next))
      && Gate(Apply(n, Connected(agent, next)), agent, next, f).None?
  {
    hide LoseSocket, Run, PossibleRun, AcceptsFrame;
    var m := Run(EMPTY, before);
    var n := ReceiveFrame(m, agent, socket, f.members);
    NumberLeavesTheRest(m, agent, socket, f.members);
    NumberIsAllThatIsLogged(m, agent, socket, f.members);
    ConnectStartsLegacy(n, agent, next);
    LegacyAcceptsAll(Connect(n, agent, next), agent, next, f.members);
  }

  lemma NumberIsAllThatIsLogged(m: Manager, agent: AgentId, socket: Socket, members: seq<Member>)
    ensures ReceiveFrame(m, agent, socket, members).log.usedSockets == m.log.usedSockets
  {
    hide AcceptsFrame, Lookup;
  }

  lemma ConnectStartsLegacy(m: Manager, agent: AgentId, next: Socket)
    ensures var n := Connect(m, agent, next); IsActiveSocket(n, agent, next) && !Negotiated(n, agent)
  {
    hide LoseSocket;
    var accepted := m.(conns := m.conns[agent := next], log := m.log.(usedSockets := m.log.usedSockets + {next}));
    if agent in m.conns {
      LosingKeepsConns(accepted, agent, m.conns[agent], "agent connection replaced");
    }
  }

  lemma LosingKeepsConns(m: Manager, agent: AgentId, socket: Socket, reason: string)
    ensures LoseSocket(m, agent, socket, reason).conns == m.conns
  {
    hide OwnedBy;
  }

  lemma LegacyAcceptsAll(m: Manager, agent: AgentId, socket: Socket, members: seq<Member>)
    requires IsActiveSocket(m, agent, socket) && !Negotiated(m, agent)
    ensures AcceptsFrame(m, agent, socket, members)
  {
  }
}
