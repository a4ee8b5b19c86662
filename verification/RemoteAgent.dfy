/**
 The remote agent's bookkeeping of coding runs across reconnects. The frame pump handles one frame
 at a time and waits inside it while a workspace is allocated; a run's task finishes on its own, and
 its finish waits once, for the capture of the workspace.
 */
module RemoteAgent {
  import opened Wrappers

  datatype Phase = Working | Capturing | Done

  /** A run's task together with the connection that launched it. */
  datatype Job = Job(run: string, request: string, generation: nat, phase: Phase)

  datatype FrameKind = ChangeSetFrame | FailureFrame

  /** A frame sent for a run, and the connection that carried it. */
  datatype Sent = Sent(run: string, kind: FrameKind, generation: nat)

  datatype Claim = Claim(run: string, generation: nat)

  /** Besides the sets of the runtime: the run being allocated, the launched tasks, and what was claimed and sent so far. */
  datatype State = State(
    generation: nat,
    inFlight: set<string>,
    terminal: set<string>,
    terminalRequests: set<string>,
    cancelled: set<string>,
    running: set<string>,
    allocating: Option<(string, string)>,
    jobs: seq<Job>,
    claims: seq<Claim>,
    sent: seq<Sent>)

  function Initial(): State { State(0, {}, {}, {}, {}, {}, None, [], [], []) }

  // ---- The runtime's own operations ----

  predicate CanClaim(s: State, run: string) { run !in s.terminal && run !in s.inFlight }

  function AddTerminal(s: State, run: string, request: string): State {
    s.(terminal := s.terminal + {run}, terminalRequests := s.terminalRequests + {request}, inFlight := s.inFlight - {run})
  }

  function RecycleGeneration(s: State): State {
    s.(terminal := s.terminal + s.inFlight, inFlight := {}, running := s.running - s.inFlight)
  }

  // ---- Steps ----

  function Connect(s: State): State {
    RecycleGeneration(s.(generation := s.generation + 1))
  }

  function ReceiveRun(s: State, run: string, request: string): State {
    if !CanClaim(s, run) then s
    else s.(inFlight := s.inFlight + {run}, allocating := Some((run, request)), claims := s.claims + [Claim(run, s.generation)])
  }

  function FinishAllocation(s: State, ok: bool): State
    requires s.allocating.Some?
  {
    var (run, request) := s.allocating.value;
    var idle := s.(allocating := None);
    if ok then idle.(running := s.running + {run}, jobs := s.jobs + [Job(run, request, s.generation, Working)])
    else AddTerminal(idle, run, request).(sent := s.sent + [Sent(run, FailureFrame, s.generation)])
  }

  function ReceiveCancel(s: State, run: string, request: string): State {
    AddTerminal(s.(cancelled := s.cancelled + {run}), run, request)
  }

  datatype TaskOutcome = TaskSucceeded | TaskRaised | TaskCancelled

  function WithPhase(s: State, i: nat, phase: Phase): State
    requires i < |s.jobs|
  {
    s.(jobs := s.jobs[i := s.jobs[i].(phase := phase)])
  }

  /** Terminal first, then the frame, and only on the connection that launched the run. */
  function Deliver(s: State, i: nat, kind: FrameKind): State
    requires i < |s.jobs|
  {
    var job := s.jobs[i];
    var ended := AddTerminal(WithPhase(s, i, Done), job.run, job.request);
    if job.generation != s.generation then ended
    else ended.(sent := s.sent + [Sent(job.run, kind, s.generation)])
  }

  function BeginFinish(s: State, i: nat, outcome: TaskOutcome): State
    requires i < |s.jobs|
  {
    var job := s.jobs[i];
    var popped := s.(running := s.running - {job.run});
    if job.run in s.cancelled || outcome.TaskCancelled? then AddTerminal(WithPhase(popped, i, Done), job.run, job.request)
    else if outcome.TaskRaised? then Deliver(popped, i, FailureFrame)
    else WithPhase(popped, i, Capturing)
  }

  datatype Event =
    | Connected
    | RunReceived(run: string, request: string)
    | Allocated(ok: bool)
    | CancelReceived(run: string, request: string)
    | TaskDone(job: nat, outcome: TaskOutcome)
    | CaptureDone(job: nat, captured: bool)

  /** The pump handles no frame, and no connection replaces another, while a workspace is being allocated. */
  predicate Possible(s: State, e: Event) {
    match e
    case Connected => s.allocating.None?
    case RunReceived(_, _) => s.allocating.None?
    case Allocated(_) => s.allocating.Some?
    case CancelReceived(_, _) => s.allocating.None?
    case TaskDone(i, _) => i < |s.jobs| && s.jobs[i].phase.Working?
    case CaptureDone(i, _) => i < |s.jobs| && s.jobs[i].phase.Capturing?
  }

  function Apply(s: State, e: Event): State
    requires Possible(s, e)
  {
    match e
    case Connected => Connect(s)
    case RunReceived(run, request) => ReceiveRun(s, run, request)
    case Allocated(ok) => FinishAllocation(s, ok)
    case CancelReceived(run, request) => ReceiveCancel(s, run, request)
    case TaskDone(i, outcome) => BeginFinish(s, i, outcome)
    case CaptureDone(i, captured) => Deliver(s, i, if captured then ChangeSetFrame else FailureFrame)
  }

  predicate PossibleRun(s: State, events: seq<Event>)
    decreases events
  {
    events == [] || (Possible(s, events[0]) && PossibleRun(Apply(s, events[0]), events[1..]))
  }

  function After(s: State, events: seq<Event>): State
    requires PossibleRun(s, events)
    decreases events
  {
    if events == [] then s else After(Apply(s, events[0]), events[1..])
  }

  // ---- The invariant, part by part ----

  ghost predicate EndsApart(inFlight: set<string>, terminal: set<string>, cancelled: set<string>) {
    inFlight !! terminal && cancelled <= terminal
  }

  ghost predicate ClaimsOnce(claims: seq<Claim>, inFlight: set<string>, terminal: set<string>, generation: nat) {
    && (forall i, j :: 0 <= i < j < |claims| ==> claims[i].run != claims[j].run)
    && (forall i :: 0 <= i < |claims| ==> claims[i].run in inFlight + terminal && claims[i].generation <= generation)
  }

  ghost predicate JobsOnce(jobs: seq<Job>, claims: seq<Claim>, allocating: Option<(string, string)>,
      terminal: set<string>, inFlight: set<string>, generation: nat) {
    && (forall i, j :: 0 <= i < j < |jobs| ==> jobs[i].run != jobs[j].run)
    && (forall i :: 0 <= i < |jobs| ==> Claim(jobs[i].run, jobs[i].generation) in claims)
    && (forall i :: 0 <= i < |jobs| && jobs[i].phase.Done? ==> jobs[i].run in terminal)
    && (allocating.Some? ==>
          && allocating.value.0 in inFlight
          && Claim(allocating.value.0, generation) in claims
          && (forall i :: 0 <= i < |jobs| ==> jobs[i].run != allocating.value.0))
  }

  ghost predicate SentOnce(sent: seq<Sent>, jobs: seq<Job>, claims: seq<Claim>, terminal: set<string>) {
    && (forall i, j :: 0 <= i < j < |sent| ==> sent[i].run != sent[j].run)
    && (forall i :: 0 <= i < |sent| ==> sent[i].run in terminal && Claim(sent[i].run, sent[i].generation) in claims)
    && (forall i, k :: 0 <= i < |sent| && 0 <= k < |jobs| && jobs[k].run == sent[i].run ==> jobs[k].phase.Done?)
  }

  ghost predicate Sound(s: State) {
    && EndsApart(s.inFlight, s.terminal, s.cancelled)
    && ClaimsOnce(s.claims, s.inFlight, s.terminal, s.generation)
    && JobsOnce(s.jobs, s.claims, s.allocating, s.terminal, s.inFlight, s.generation)
    && SentOnce(s.sent, s.jobs, s.claims, s.terminal)
  }

  // ---- Each step keeps it ----

  lemma ClaimKeeps(s: State, run: string, request: string)
    requires Sound(s) && s.allocating.None?
    ensures Sound(ReceiveRun(s, run, request))
  {
    if CanClaim(s, run) {
      var s' := ReceiveRun(s, run, request);
      assert s'.claims[|s.claims|] == Claim(run, s.generation);
      assert forall c :: c in s.claims ==> c in s'.claims;
      forall i | 0 <= i < |s.jobs| ensures s.jobs[i].run != run {
        var k :| 0 <= k < |s.claims| && s.claims[k] == Claim(s.jobs[i].run, s.jobs[i].generation);
      }
    }
  }

  lemma ConnectKeeps(s: State)
    requires Sound(s) && s.allocating.None?
    ensures Sound(Connect(s))
  {
  }

  lemma CancelKeeps(s: State, run: string, request: string)
    requires Sound(s) && s.allocating.None?
    ensures Sound(ReceiveCancel(s, run, request))
  {
  }

  lemma AllocationKeeps(s: State, ok: bool)
    requires Sound(s) && s.allocating.Some?
    ensures Sound(FinishAllocation(s, ok))
  {
  }

  lemma DeliverKeeps(s: State, i: nat, kind: FrameKind)
    requires Sound(s) && i < |s.jobs| && !s.jobs[i].phase.Done?
    requires s.allocating.Some? ==> s.allocating.value.0 != s.jobs[i].run
    ensures Sound(Deliver(s, i, kind))
  {
  }

  lemma EndKeeps(s: State, i: nat)
    requires Sound(s) && i < |s.jobs|
    requires s.allocating.Some? ==> s.allocating.value.0 != s.jobs[i].run
    ensures Sound(AddTerminal(WithPhase(s, i, Done), s.jobs[i].run, s.jobs[i].request))
  {
  }

  lemma StepKeepsSound(s: State, e: Event)
    requires Sound(s) && Possible(s, e)
    ensures Sound(Apply(s, e))
  {
    match e
    case Connected => ConnectKeeps(s);
    case RunReceived(run, request) => ClaimKeeps(s, run, request);
    case Allocated(ok) => AllocationKeeps(s, ok);
    case CancelReceived(run, request) => CancelKeeps(s, run, request);
    case TaskDone(i, outcome) =>
      var popped := s.(running := s.running - {s.jobs[i].run});
      EndKeeps(popped, i);
      DeliverKeeps(popped, i, FailureFrame);
    case CaptureDone(i, captured) => DeliverKeeps(s, i, if captured then ChangeSetFrame else FailureFrame);
  }

  lemma {:induction false} RunKeepsSound(s: State, events: seq<Event>)
    requires Sound(s) && PossibleRun(s, events)
    ensures Sound(After(s, events))
    decreases events
  {
    if events != [] {
      StepKeepsSound(s, events[0]);
      RunKeepsSound(Apply(s, events[0]), events[1..]);
    }
  }

  // ---- Main results ----

  /**
   Over any run of connections, replayed frames, cancels and recycles: each run is claimed at most
   once and gets at most one frame, sent on the very connection that claimed it; nothing is in
   flight and terminal at once.
   */
  lemma {:induction false} EachRunOnce(events: seq<Event>)
    requires PossibleRun(Initial(), events)
    ensures var s := After(Initial(), events);
      && (forall i, j :: 0 <= i < j < |s.claims| ==> s.claims[i].run != s.claims[j].run)
      && (forall i, j :: 0 <= i < j < |s.sent| ==> s.sent[i].run != s.sent[j].run)
      && (forall i :: 0 <= i < |s.sent| ==> Claim(s.sent[i].run, s.sent[i].generation) in s.claims)
      && s.inFlight !! s.terminal
  {
    RunKeepsSound(Initial(), events);
  }

  /** No step will send for this run any more: it is terminal,
    and each task it has left is stale or cancelled before its finish. */
  ghost predicate Quiet(s: State, run: string) {
    && run in s.terminal
    && (s.allocating.Some? ==> s.allocating.value.0 != run)
    && forall i :: 0 <= i < |s.jobs| && s.jobs[i].run == run ==>
         s.jobs[i].phase.Done? || s.jobs[i].generation < s.generation || (s.jobs[i].phase.Working? && run in s.cancelled)
  }

  /** A frame for the run among those sent between two states. */
  predicate NewFrame(before: seq<Sent>, after: seq<Sent>, run: string) {
    exists k :: |before| <= k < |after| && after[k].run == run
  }

  lemma QuietStep(s: State, e: Event, run: string)
    requires Sound(s) && Possible(s, e) && Quiet(s, run)
    ensures Quiet(Apply(s, e), run)
    ensures |s.sent| <= |Apply(s, e).sent| && !NewFrame(s.sent, Apply(s, e).sent, run)
  {
    hide ClaimsOnce, JobsOnce, SentOnce;
  }

  lemma {:induction false} QuietForever(s: State, events: seq<Event>, run: string)
    requires Sound(s) && PossibleRun(s, events) && Quiet(s, run)
    ensures |s.sent| <= |After(s, events).sent| && !NewFrame(s.sent, After(s, events).sent, run)
    decreases events
  {
    if events != [] {
      hide Sound, Quiet, Possible, Apply;
      QuietStep(s, events[0], run);
      StepKeepsSound(s, events[0]);
      QuietForever(Apply(s, events[0]), events[1..], run);
      SentGrows(Apply(s, events[0]), events[1..]);
    }
  }

  lemma SentGrowsByStep(s: State, e: Event)
    requires Possible(s, e)
    ensures s.sent <= Apply(s, e).sent
  {
  }

  lemma {:induction false} SentGrows(s: State, events: seq<Event>)
    requires PossibleRun(s, events)
    ensures s.sent <= After(s, events).sent
    decreases events
  {
    if events != [] {
      hide Apply, Possible;
      SentGrowsByStep(s, events[0]);
      SentGrows(Apply(s, events[0]), events[1..]);
    }
  }

  /** The run's workspace is being captured for the connection that is open now. */
  predicate CapturingNow(s: State, run: string) {
    exists i :: 0 <= i < |s.jobs| && s.jobs[i] == Job(run, s.jobs[i].request, s.generation, Capturing)
  }

  lemma CaptureStillDelivers(s: State, i: nat)
    requires Sound(s) && i < |s.jobs| && s.jobs[i].phase.Capturing? && s.jobs[i].generation == s.generation
    ensures PossibleRun(s, [CaptureDone(i, true)])
    ensures NewFrame(s.sent, After(s, [CaptureDone(i, true)]).sent, s.jobs[i].run)
  {
    var t := Apply(s, CaptureDone(i, true));
    assert [CaptureDone(i, true)][1..] == [];
    assert After(s, [CaptureDone(i, true)]) == t;
    assert t.sent[|s.sent|].run == s.jobs[i].run;
  }

  ghost predicate SomeContinuationSends(s: State, run: string) {
    exists events :: PossibleRun(s, events) && NewFrame(s.sent, After(s, events).sent, run)
  }

  /**
   When a cancel silences its run: some continuation still sends a frame for it exactly when its
   workspace is just being captured on the open connection. The comment at the cancel handler
   promises silence without that exception.
   */
  lemma {:induction false} CancelSilences(s: State, run: string, request: string)
    requires Sound(s) && s.allocating.None?
    ensures SomeContinuationSends(ReceiveCancel(s, run, request), run) <==> CapturingNow(s, run)
  {
    var t := ReceiveCancel(s, run, request);
    CancelKeeps(s, run, request);
    if CapturingNow(s, run) {
      var i :| 0 <= i < |s.jobs| && s.jobs[i] == Job(run, s.jobs[i].request, s.generation, Capturing);
      CaptureStillDelivers(t, i);
    } else {
      CancelQuiets(s, run, request);
      forall events | PossibleRun(t, events) ensures !NewFrame(t.sent, After(t, events).sent, run) {
        QuietForever(t, events, run);
      }
    }
  }

  /** A run that is captured when its cancel arrives: it is cancelled, acknowledged, and then sends its change set. */
  lemma CancelDuringCapture(run: string, request: string)
    ensures var events := [Connected, RunReceived(run, request), Allocated(true), TaskDone(0, TaskSucceeded)];
      && PossibleRun(Initial(), events)
      && var s := After(Initial(), events);
         s.allocating.None? && CapturingNow(s, run)
         && PossibleRun(s, [CancelReceived(run, request), CaptureDone(0, true)])
         && run in ReceiveCancel(s, run, request).cancelled
         && NewFrame(ReceiveCancel(s, run, request).sent,
                     After(s, [CancelReceived(run, request), CaptureDone(0, true)]).sent, run)
  {
    var s1 := Connect(Initial());
    var s2 := ReceiveRun(s1, run, request);
    var s3 := FinishAllocation(s2, true);
    var s4 := BeginFinish(s3, 0, TaskSucceeded);
    var s5 := ReceiveCancel(s4, run, request);
    CaptureReached(run, request);
    assert s4.jobs[0] == Job(run, s4.jobs[0].request, s4.generation, Capturing);
    assert Deliver(s5, 0, ChangeSetFrame).sent[0].run == run;
    ThenRun(s3, TaskDone(0, TaskSucceeded), []);
    ThenRun(s2, Allocated(true), [TaskDone(0, TaskSucceeded)]);
    ThenRun(s1, RunReceived(run, request), [Allocated(true), TaskDone(0, TaskSucceeded)]);
    ThenRun(Initial(), Connected, [RunReceived(run, request), Allocated(true), TaskDone(0, TaskSucceeded)]);
    ThenRun(s5, CaptureDone(0, true), []);
    ThenRun(s4, CancelReceived(run, request), [CaptureDone(0, true)]);
  }

  lemma ThenRun(s: State, e: Event, rest: seq<Event>)
    requires Possible(s, e) && PossibleRun(Apply(s, e), rest)
    ensures PossibleRun(s, [e] + rest) && After(s, [e] + rest) == After(Apply(s, e), rest)
  {
    assert ([e] + rest)[1..] == rest;
  }

  lemma CaptureReached(run: string, request: string)
    ensures var s := FinishAllocation(ReceiveRun(Connect(Initial()), run, request), true);
      var captured := Job(run, request, 1, Capturing);
      && |s.jobs| == 1 && s.jobs[0].phase.Working?
      && BeginFinish(s, 0, TaskSucceeded) == s.(jobs := [captured], running := {})
      && s.generation == 1 && s.sent == [] && s.allocating.None?
      && Deliver(ReceiveCancel(s.(jobs := [captured], running := {}), run, request), 0, ChangeSetFrame).sent
         == [Sent(run, ChangeSetFrame, 1)]
  {
  }

  lemma CancelQuiets(s: State, run: string, request: string)
    requires Sound(s) && s.allocating.None? && !CapturingNow(s, run)
    ensures Quiet(ReceiveCancel(s, run, request), run)
  {
    forall i | 0 <= i < |s.jobs| && s.jobs[i].run == run && s.jobs[i].phase.Capturing?
      ensures s.jobs[i].generation < s.generation {
      assert Claim(s.jobs[i].run, s.jobs[i].generation) in s.claims;
      assert s.jobs[i] == Job(run, s.jobs[i].request, s.jobs[i].generation, Capturing);
    }
  }

  /** A new connection ends everything: nothing stays in flight, and no run claimed before ever sends a frame again. */
  lemma {:induction false} ReconnectSilences(s: State, run: string)
    requires Sound(s) && s.allocating.None? && (exists c :: c in s.claims && c.run == run)
    ensures Connect(s).inFlight == {} && !SomeContinuationSends(Connect(s), run)
  {
    var t := Connect(s);
    ConnectKeeps(s);
    forall i | 0 <= i < |s.jobs| ensures s.jobs[i].generation < t.generation {
      assert Claim(s.jobs[i].run, s.jobs[i].generation) in s.claims;
    }
    assert Quiet(t, run);
    forall events | PossibleRun(t, events) ensures !NewFrame(t.sent, After(t, events).sent, run) {
      QuietForever(t, events, run);
    }
  }

  lemma ClaimsGrowByStep(s: State, e: Event)
    requires Possible(s, e)
    ensures s.claims <= Apply(s, e).claims
  {
  }

  lemma {:induction false} ClaimsGrow(s: State, events: seq<Event>)
    requires PossibleRun(s, events)
    ensures s.claims <= After(s, events).claims
    decreases events
  {
    if events != [] {
      hide Apply, Possible;
      ClaimsGrowByStep(s, events[0]);
      ClaimsGrow(Apply(s, events[0]), events[1..]);
    }
  }

  /** Once a run is claimed its replayed frames change nothing, now or after anything that follows. */
  lemma {:induction false} ReplayIsIgnoredForGood(s: State, run: string, request: string, events: seq<Event>, replayed: string)
    requires Sound(s) && s.allocating.None? && PossibleRun(ReceiveRun(s, run, request), events)
    ensures var later := After(ReceiveRun(s, run, request), events);
      CanClaim(s, run) ==> ReceiveRun(later, run, replayed) == later
  {
    hide Apply, Possible, JobsOnce, SentOnce;
    var claimed := ReceiveRun(s, run, request);
    var later := After(claimed, events);
    ClaimKeeps(s, run, request);
    RunKeepsSound(claimed, events);
    ClaimsGrow(claimed, events);
    if CanClaim(s, run) {
      assert later.claims[|s.claims|] == Claim(run, s.generation);
    }
  }

  // ---- The runtime that survives reconnects ----

  class AgentRuntime {
    var generation: nat
    var inFlight: set<string>
    var terminal: set<string>
    var terminalRequests: set<string>
    var cancelled: set<string>
    var running: set<string>
    ghost var allocating: Option<(string, string)>
    ghost var jobs: seq<Job>
    ghost var claims: seq<Claim>
    ghost var sent: seq<Sent>

    ghost function Value(): State
      reads this
    {
      State(generation, inFlight, terminal, terminalRequests, cancelled, running, allocating, jobs, claims, sent)
    }

    ghost predicate Valid()
      reads this
    {
      Sound(Value())
    }

    constructor ()
      ensures Valid() && Value() == Initial()
    {
      generation, inFlight, terminal, terminalRequests, cancelled, running := 0, {}, {}, {}, {}, {};
      allocating, jobs, claims, sent := None, [], [], [];
    }

    method MarkTerminal(run: string, request: string)
      modifies this`terminal, this`terminalRequests, this`inFlight
      ensures Value() == AddTerminal(old(Value()), run, request)
    {
      terminal := terminal + {run};
      terminalRequests := terminalRequests + {request};
      inFlight := inFlight - {run};
    }

    method Recycle()
      modifies this`terminal, this`inFlight, this`running
      ensures Value() == RecycleGeneration(old(Value()))
    {
      ghost var lost := inFlight;
      while inFlight != {}
        invariant inFlight <= lost
        invariant terminal == old(terminal) + (lost - inFlight)
        invariant running == old(running) - (lost - inFlight)
        decreases inFlight
      {
        var run :| run in inFlight;
        terminal := terminal + {run};
        inFlight := inFlight - {run};
        running := running - {run};
      }
    }

    method OpenConnection()
      requires Valid() && allocating.None?
      modifies this
      ensures Valid() && Value() == Connect(old(Value()))
    {
      hide Sound;
      ConnectKeeps(Value());
      generation := generation + 1;
      Recycle();
    }

    method ClaimCodingRun(run: string, request: string) returns (claimed: bool)
      requires Valid() && allocating.None?
      modifies this`inFlight, this`allocating, this`claims
      ensures claimed <==> CanClaim(old(Value()), run)
      ensures Valid() && Value() == ReceiveRun(old(Value()), run, request)
    {
      hide Sound;
      ClaimKeeps(Value(), run, request);
      if run in terminal || run in inFlight {
        return false;
      }
      inFlight := inFlight + {run};
      allocating := Some((run, request));
      claims := claims + [Claim(run, generation)];
      return true;
    }

    /** What follows the allocation of a workspace; the result is the frame to send, if any. */
    method AfterAllocation(run: string, request: string, ok: bool) returns (frame: Option<FrameKind>)
      requires Valid() && allocating == Some((run, request))
      modifies this
      ensures Valid() && Value() == FinishAllocation(old(Value()), ok)
      ensures frame.None? <==> ok
    {
      hide Sound;
      AllocationKeeps(Value(), ok);
      allocating := None;
      if !ok {
        MarkTerminal(run, request);
        sent := sent + [Sent(run, FailureFrame, generation)];
        return Some(FailureFrame);
      }
      running := running + {run};
      jobs := jobs + [Job(run, request, generation, Working)];
      return None;
    }

    method HandleCancel(run: string, request: string)
      requires Valid() && allocating.None?
      modifies this
      ensures Valid() && Value() == ReceiveCancel(old(Value()), run, request)
    {
      hide Sound;
      CancelKeeps(Value(), run, request);
      cancelled := cancelled + {run};
      MarkTerminal(run, request);
    }

    /** The finish of a task up to the capture; a task that raised is answered at once. */
    method StartFinish(ghost i: nat, run: string, request: string, launched: nat,
        outcome: TaskOutcome) returns (frame: Option<FrameKind>, capture: bool)
      requires Valid() && i < |jobs| && jobs[i] == Job(run, request, launched, Working)
      modifies this
      ensures Valid() && Value() == BeginFinish(old(Value()), i, outcome)
      ensures frame.Some? <==> old(run !in cancelled) && outcome.TaskRaised? && launched == generation
      ensures capture <==> old(run !in cancelled) && outcome.TaskSucceeded?
    {
      hide Sound;
      StepKeepsSound(Value(), TaskDone(i, outcome));
      running := running - {run};
      if run in cancelled || outcome.TaskCancelled? {
        jobs := jobs[i := jobs[i].(phase := Done)];
        MarkTerminal(run, request);
        return None, false;
      }
      if outcome.TaskRaised? {
        frame := EndFinish(i, run, request, launched, FailureFrame);
        return frame, false;
      }
      jobs := jobs[i := jobs[i].(phase := Capturing)];
      return None, true;
    }

    method EndFinish(ghost i: nat, run: string, request: string, launched: nat,
        kind: FrameKind) returns (frame: Option<FrameKind>)
      requires i < |jobs| && jobs[i].run == run && jobs[i].request == request && jobs[i].generation == launched
      modifies this
      ensures Value() == Deliver(old(Value()), i, kind)
      ensures frame == if launched == generation then Some(kind) else None
    {
      jobs := jobs[i := jobs[i].(phase := Done)];
      MarkTerminal(run, request);
      if launched != generation {
        return None;
      }
      sent := sent + [Sent(run, kind, generation)];
      return Some(kind);
    }

    method FinishCapture(ghost i: nat, run: string, request: string, launched: nat,
        captured: bool) returns (frame: Option<FrameKind>)
      requires Valid() && i < |jobs| && jobs[i] == Job(run, request, launched, Capturing)
      modifies this
      ensures Valid() && Value() == Deliver(old(Value()), i, if captured then ChangeSetFrame else FailureFrame)
      ensures frame.Some? <==> launched == generation
    {
      hide Sound;
      StepKeepsSound(Value(), CaptureDone(i, captured));
      frame := EndFinish(i, run, request, launched, if captured then ChangeSetFrame else FailureFrame);
    }
  }
}
