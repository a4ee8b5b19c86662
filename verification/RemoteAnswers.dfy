/**
 What the remote agent sends for a run, and when: a frame tells how the run ended, and goes out on
 the connection that launched it.
 */
module RemoteAnswers {
  import opened Wrappers
  import opened RemoteAgent

  // ---- The frame of a step ----

  /** The job's own connection is still open. */
  predicate OnItsConnection(s: State, i: nat) { i < |s.jobs| && s.jobs[i].generation == s.generation }

  /**
   A workspace that could not be allocated, a task that raised without having been cancelled and a
   capture that failed are answered with a failure, a capture that succeeded with its change set.
   */
  function FrameOf(s: State, e: Event): Option<Sent>
    requires Possible(s, e)
  {
    match e
    case Allocated(ok) => if ok then None else Some(Sent(s.allocating.value.0, FailureFrame, s.generation))
    case TaskDone(i, outcome) =>
      if outcome == TaskRaised && s.jobs[i].run !in s.cancelled && OnItsConnection(s, i)
      then Some(Sent(s.jobs[i].run, FailureFrame, s.generation)) else None
    case CaptureDone(i, captured) =>
      if OnItsConnection(s, i)
      then Some(Sent(s.jobs[i].run, if captured then ChangeSetFrame else FailureFrame, s.generation)) else None
    case _ => None
  }

  /** Each step sends exactly the frame it owes. */
  lemma {:induction false} StepsSendTheirFrame(s: State, e: Event)
    requires Possible(s, e)
    ensures Apply(s, e).sent == s.sent + if FrameOf(s, e).Some? then [FrameOf(s, e).value] else []
  {
    if FrameOf(s, e).None? {
      assert s.sent + [] == s.sent;
    }
  }

  lemma {:induction false} RunsOn(s: State, events: seq<Event>, e: Event)
    requires PossibleRun(s, events + [e])
    ensures PossibleRun(s, events) && Possible(After(s, events), e)
    ensures After(s, events + [e]) == Apply(After(s, events), e)
    decreases events
  {
    hide Apply, Possible;
    if events == [] {
      assert events + [e] == [e] && [e][1..] == [];
    } else {
      assert (events + [e])[0] == events[0] && (events + [e])[1..] == events[1..] + [e];
      RunsOn(Apply(s, events[0]), events[1..], e);
    }
  }

  /** Event `i` of the run sent this frame. */
  predicate SentBy(events: seq<Event>, i: nat, frame: Sent) {
    && i < |events| && PossibleRun(Initial(), events[..i]) && Possible(After(Initial(), events[..i]), events[i])
    && FrameOf(After(Initial(), events[..i]), events[i]) == Some(frame)
  }

  lemma SentEarlier(events: seq<Event>, e: Event, i: nat, frame: Sent)
    ensures i < |events| ==> (SentBy(events + [e], i, frame) <==> SentBy(events, i, frame))
    ensures PossibleRun(Initial(), events) && Possible(After(Initial(), events), e) ==>
      (SentBy(events + [e], |events|, frame) <==> FrameOf(After(Initial(), events), e) == Some(frame))
  {
    hide PossibleRun, Possible, After, FrameOf;
    if i < |events| {
      assert (events + [e])[..i] == events[..i];
    }
    assert (events + [e])[..|events|] == events;
  }

  /** A frame was sent exactly when some event of the run ended its run in just that way. */
  lemma {:induction false} FramesTellHowRunsEnded(events: seq<Event>, frame: Sent)
    requires PossibleRun(Initial(), events)
    ensures frame in After(Initial(), events).sent <==> exists i: nat :: SentBy(events, i, frame)
  {
    if events != [] {
      var init, e := events[..|events| - 1], events[|events| - 1];
      assert events == init + [e];
      RunsOn(Initial(), init, e);
      FramesTellHowRunsEnded(init, frame);
      StepsSendTheirFrame(After(Initial(), init), e);
      hide PossibleRun, Possible, After, Apply, FrameOf;
      if i: nat :| SentBy(init, i, frame) {
        SentEarlier(init, e, i, frame);
      }
      if i: nat :| SentBy(events, i, frame) {
        SentEarlier(init, e, i, frame);
      }
      SentEarlier(init, e, |init|, frame);
    }
  }

  // ---- What a step does to a run ----

  /** The event ends the run: its connection is replaced, it is not allocated, it is cancelled, or its task is over. */
  predicate Ends(s: State, e: Event, run: string)
    requires Possible(s, e)
  {
    match e
    case Connected => run in s.inFlight
    case RunReceived(_, _) => false
    case Allocated(ok) => !ok && run == s.allocating.value.0
    case CancelReceived(cancelled, _) => run == cancelled
    case TaskDone(i, outcome) => run == s.jobs[i].run && (outcome != TaskSucceeded || run in s.cancelled)
    case CaptureDone(i, _) => run == s.jobs[i].run
  }

  /** The request that the ended run was made with, which connections alone do not look at. */
  function EndedRequest(s: State, e: Event): Option<string>
    requires Possible(s, e)
  {
    match e
    case Allocated(ok) => if ok then None else Some(s.allocating.value.1)
    case CancelReceived(_, request) => Some(request)
    case TaskDone(i, outcome) => if Ends(s, e, s.jobs[i].run) then Some(s.jobs[i].request) else None
    case CaptureDone(i, _) => Some(s.jobs[i].request)
    case _ => None
  }

  predicate Claims(s: State, e: Event, run: string) {
    e.RunReceived? && e.run == run && run !in s.terminal && run !in s.inFlight
  }

  /** A run is terminal from the event that ends it on, and in flight from its claim until then; only a cancel cancels it. */
  lemma {:induction false} StepsClaimAndEnd(s: State, e: Event, run: string, request: string)
    requires Possible(s, e)
    ensures var after := Apply(s, e);
      && (run in after.terminal <==> run in s.terminal || Ends(s, e, run))
      && (run in after.inFlight <==> (run in s.inFlight && !Ends(s, e, run)) || Claims(s, e, run))
      && (run in after.cancelled <==> run in s.cancelled || (e.CancelReceived? && e.run == run))
      && (request in after.terminalRequests <==> request in s.terminalRequests || EndedRequest(s, e) == Some(request))
      && after.generation == s.generation + (if e.Connected? then 1 else 0)
      && after.claims == s.claims + if e.RunReceived? && Claims(s, e, e.run) then [Claim(e.run, s.generation)] else []
  {
    if !e.RunReceived? || !Claims(s, e, e.run) {
      assert s.claims + [] == s.claims;
    }
  }

  /** The phase the event takes job `i` to, if it is the one whose task or capture is over. */
  function PhaseAfter(s: State, e: Event, i: nat): Phase
    requires i < |s.jobs|
  {
    if e.CaptureDone? && e.job == i then Done
    else if e.TaskDone? && e.job == i then if e.outcome == TaskSucceeded && s.jobs[i].run !in s.cancelled then Capturing else Done
    else s.jobs[i].phase
  }

  /** A claimed run is allocated next, an allocated one runs on the connection that is open, and each task moves by itself. */
  lemma {:induction false} StepsMoveTasks(s: State, e: Event, run: string)
    requires Possible(s, e)
    ensures var after := Apply(s, e);
      && after.allocating == (if e.RunReceived? && Claims(s, e, e.run) then Some((e.run, e.request))
                              else if e.Allocated? then None else s.allocating)
      && |s.jobs| <= |after.jobs| && (forall i: nat :: i < |s.jobs| ==> after.jobs[i] == s.jobs[i].(phase := PhaseAfter(s, e, i)))
      && after.jobs[|s.jobs|..] == (if e != Allocated(true) then []
                                    else [Job(s.allocating.value.0, s.allocating.value.1, s.generation, Working)])
      && (run in after.running <==>
            if e == Allocated(true) && s.allocating.value.0 == run then true
            else run in s.running && !(e.Connected? && run in s.inFlight) && !(e.TaskDone? && s.jobs[e.job].run == run))
  {
  }

  /** Event `i` of the run ended this run. */
  predicate EndedBy(events: seq<Event>, i: nat, run: string) {
    && i < |events| && PossibleRun(Initial(), events[..i]) && Possible(After(Initial(), events[..i]), events[i])
    && Ends(After(Initial(), events[..i]), events[i], run)
  }

  lemma EndedEarlier(events: seq<Event>, e: Event, i: nat, run: string)
    ensures i < |events| ==> (EndedBy(events + [e], i, run) <==> EndedBy(events, i, run))
    ensures PossibleRun(Initial(), events) && Possible(After(Initial(), events), e) ==>
      (EndedBy(events + [e], |events|, run) <==> Ends(After(Initial(), events), e, run))
  {
    hide PossibleRun, Possible, After, Ends;
    if i < |events| {
      assert (events + [e])[..i] == events[..i];
    }
    assert (events + [e])[..|events|] == events;
  }

  /** Over any run of the agent a coding run is terminal exactly when some event ended it, and is never alive again. */
  lemma {:induction false} TerminalRunsWereEnded(events: seq<Event>, run: string)
    requires PossibleRun(Initial(), events)
    ensures run in After(Initial(), events).terminal <==> exists i: nat :: EndedBy(events, i, run)
    ensures run in After(Initial(), events).terminal ==> run !in After(Initial(), events).inFlight
  {
    if events != [] {
      var init, e := events[..|events| - 1], events[|events| - 1];
      assert events == init + [e];
      RunsOn(Initial(), init, e);
      TerminalRunsWereEnded(init, run);
      StepsClaimAndEnd(After(Initial(), init), e, run, "");
      hide PossibleRun, Possible, After, Apply, Ends;
      if i: nat :| EndedBy(init, i, run) {
        EndedEarlier(init, e, i, run);
      }
      if i: nat :| EndedBy(events, i, run) {
        EndedEarlier(init, e, i, run);
      }
      EndedEarlier(init, e, |init|, run);
    }
  }
}
