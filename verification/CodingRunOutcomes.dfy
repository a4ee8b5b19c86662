/**
 What the tables of coding runs grant: a dispatched run keeps its order and can deliver against it,
 and each other step moves exactly the rows it is about.
 */
module CodingRunOutcomes {
  import opened Wrappers
  import opened CodingRuns

  // ---- Dispatch ----

  /** A run with this order that works on it since `now`. */
  predicate IsOrder(r: CodingRun, team: string, repository: string, agent: string, requestId: string, now: int) {
    && r.team == team && r.repository == repository && r.agent == agent && r.requestId == requestId
    && r.status.Running? && r.createdAt == now && r.updatedAt == now && r.startedAt == Some(now)
    && r.finishedAt == None && r.failureReason == ""
  }

  /** A granted dispatch of a new run stores exactly what was ordered, and no other row changes; any other is refused. */
  lemma {:induction false} DispatchStoresTheOrder(db: Database, run: string, team: string, repository: string, agent: string,
      requestId: string, now: int)
    ensures var after := Dispatch(db, run, team, repository, agent, requestId, now);
      if (team, repository) in db.grants && run !in db.runs then
        && run in after.runs && IsOrder(after.runs[run], team, repository, agent, requestId, now)
        && after == db.(runs := db.runs[run := after.runs[run]], history := db.history[run := [Queued, Running]])
      else after == db
  {
    var after := Dispatch(db, run, team, repository, agent, requestId, now);
    if (team, repository) in db.grants && run !in db.runs {
      assert [Queued] + [Running] == [Queued, Running];
      assert after.runs == db.runs[run := after.runs[run]] && after.history == db.history[run := [Queued, Running]];
    }
  }

  // ---- A run keeps its order ----

  predicate SameOrder(a: CodingRun, b: CodingRun) {
    a.team == b.team && a.repository == b.repository && a.agent == b.agent && a.requestId == b.requestId && a.createdAt == b.createdAt
  }

  lemma StepKeepsOrder(db: Database, e: Event, run: string)
    requires Possible(db, e) && run in db.runs
    ensures run in Apply(db, e).runs && SameOrder(db.runs[run], Apply(db, e).runs[run])
  {
    hide Allowed, Noted, Bounded, MoveChangeSet;
    if e.Decided? || e.ReviewedBy? || e.WorkspaceDone? {
      ChangeSetsLeaveRuns(db, e);
    }
  }

  lemma ChangeSetsLeaveRuns(db: Database, e: Event)
    requires Possible(db, e) && (e.Decided? || e.ReviewedBy? || e.WorkspaceDone?)
    ensures Apply(db, e).runs == db.runs && Apply(db, e).history == db.history
  {
    hide Audited, Counted;
  }

  lemma {:induction false} OrdersStay(db: Database, events: seq<Event>, run: string)
    requires PossibleHistory(db, events) && run in db.runs
    ensures run in After(db, events).runs && SameOrder(db.runs[run], After(db, events).runs[run])
    decreases events
  {
    if events != [] {
      hide Apply, Possible;
      StepKeepsOrder(db, events[0], run);
      OrdersStay(Apply(db, events[0]), events[1..], run);
    }
  }

  // ---- Delivery ----

  /** The change set that a delivery of this run stores. */
  function Delivered(r: CodingRun): ChangeSet { ChangeSet(r.team, r.repository, r.agent, r.requestId, Captured, [CapturedAction]) }

  /** A capture for a running run by its own agent, request and repository is stored, and the run succeeds; any other changes nothing. */
  lemma {:induction false} CaptureStoresWhatWasOrdered(db: Database, run: string, agent: string, requestId: string,
      repository: string, now: int)
    requires Sound(db)
    ensures var after := Capture(db, run, agent, requestId, repository, now);
      if run in db.runs && db.runs[run].status.Running? && db.runs[run].agent == agent && db.runs[run].requestId == requestId
         && db.runs[run].repository == repository
      then
        && CaptureRefusal(db, run, agent, requestId, repository).None?
        && after.changeSets == db.changeSets[run := Delivered(db.runs[run])]
        && after.runs == db.runs[run := db.runs[run].(status := Succeeded, updatedAt := now, finishedAt := Some(now))]
      else after == db && CaptureRefusal(db, run, agent, requestId, repository).Some?
  {
    hide Capture, CaptureRefusal, Sound, Delivered;
    CaptureKeeps(db, run, agent, requestId, repository, now);
    RefusedUnlessOrdered(db, run, agent, requestId, repository);
    CaptureIs(db, run, agent, requestId, repository, now);
  }

  lemma RefusedUnlessOrdered(db: Database, run: string, agent: string, requestId: string, repository: string)
    ensures CaptureRefusal(db, run, agent, requestId, repository).None? <==>
      && run in db.runs && db.runs[run].status.Running? && db.runs[run].agent == agent && db.runs[run].requestId == requestId
      && db.runs[run].repository == repository
  {
  }

  lemma CaptureIs(db: Database, run: string, agent: string, requestId: string, repository: string, now: int)
    requires CaptureRefusal(db, run, agent, requestId, repository).None? ==> run !in db.changeSets
    ensures var after := Capture(db, run, agent, requestId, repository, now);
      if CaptureRefusal(db, run, agent, requestId, repository).None? then
        && run in db.runs && after.changeSets == db.changeSets[run := Delivered(db.runs[run])]
        && after.runs == db.runs[run := db.runs[run].(status := Succeeded, updatedAt := now, finishedAt := Some(now))]
      else after == db
  {
    hide Noted;
  }

  /**
   A dispatched run can take its change set, from the agent, for the request and for the repository
   it was dispatched with, exactly as long as nothing moved it, whatever else happened meanwhile.
   */
  lemma {:induction false} DispatchedRunsCanDeliver(db: Database, run: string, team: string, repository: string, agent: string,
      requestId: string, now: int, events: seq<Event>, sender: string, request: string, target: string)
    requires Sound(db) && (team, repository) in db.grants && run !in db.runs && RunOfRequest(db, requestId) == {}
    requires PossibleHistory(Dispatch(db, run, team, repository, agent, requestId, now), events)
    ensures var later := After(Dispatch(db, run, team, repository, agent, requestId, now), events);
      && run in later.runs && run in later.history && later.runs[run].team == team
      && (CaptureRefusal(later, run, sender, request, target).None? <==>
            later.history[run] == [Queued, Running] && sender == agent && request == requestId && target == repository)
  {
    var dispatched := Dispatch(db, run, team, repository, agent, requestId, now);
    DispatchKeeps(db, run, team, repository, agent, requestId, now);
    DispatchStoresTheOrder(db, run, team, repository, agent, requestId, now);
    OrdersStay(dispatched, events, run);
    HistoryKeepsSound(dispatched, events);
    RunKeepsHistory(dispatched, events, run);
    StillRunning(After(dispatched, events), run);
    hide Dispatch, PossibleHistory, After, Sound;
  }

  lemma StillRunning(db: Database, run: string)
    requires Sound(db) && run in db.runs && run in db.history && [Queued, Running] <= db.history[run]
    ensures db.runs[run].status.Running? <==> db.history[run] == [Queued, Running]
  {
    hide AuditsSound, RequestsUnique;
    var path := db.history[run];
    assert RunSound(db.runs[run], path, run in db.changeSets.Keys);
    if |path| > 2 {
      PathNeverReturns(path, 1);
    }
  }

  // ---- Failure, cancel and restart ----

  /** A failure moves a live run and keeps the reason it gives, as far as the bound goes; nothing else changes. */
  lemma {:induction false} FailureMovesALiveRun(db: Database, run: string, reason: string, now: int)
    ensures var after := MarkFailed(db, run, reason, now);
      if run in db.runs && (db.runs[run].status.Queued? || db.runs[run].status.Running?) then
        && run in after.runs && var r := after.runs[run];
        && r == db.runs[run].(status := Failed, updatedAt := now, finishedAt := Some(now), failureReason := r.failureReason)
        && (reason == "" ==> r.failureReason == db.runs[run].failureReason)
        && (reason != "" ==> r.failureReason <= reason && |r.failureReason| == if |reason| < 1024 then |reason| else 1024)
        && after == db.(runs := db.runs[run := r], history := after.history)
      else after == db
  {
  }

  /** A cancel moves a run that is still as it was read; nothing else changes. */
  lemma {:induction false} CancelMovesTheRunItRead(db: Database, c: PendingCancel, now: int)
    requires IsActive(c.expected)
    ensures var after := CommitCancel(db, c, now);
      && after.cancels == db.cancels - {c}
      && after.runs ==
           if c.run in db.runs && db.runs[c.run].status == c.expected then
             db.runs[c.run := db.runs[c.run].(status := Cancelled, updatedAt := now, finishedAt := Some(now),
               startedAt := if c.startedAt.Some? then c.startedAt else db.runs[c.run].startedAt)]
           else db.runs
  {
  }

  /** A restart interrupts exactly the live runs in scope; each of them ends now, and the others stay as they are. */
  lemma {:induction false} ReconcileInterruptsLiveRuns(db: Database, agent: Option<string>, now: int, run: string)
    requires Sound(db) && run in db.runs
    ensures var r := db.runs[run];
      && run in Reconcile(db, agent, now).runs
      && Reconcile(db, agent, now).runs[run] ==
           if (r.status.Queued? || r.status.Running?) && (agent == None || agent == Some(r.agent))
           then r.(status := Interrupted, updatedAt := now, finishedAt := Some(now)) else r
  {
    hide AuditsSound, RequestsUnique;
    assert RunSound(db.runs[run], db.history[run], run in db.changeSets.Keys);
  }

  // ---- Change sets ----

  /** The row after a move that is allowed from one status alone: moved with one more audit action, or as it was. */
  predicate MovesFrom(db: Database, after: Database, run: string, from: ChangeSetStatus, to: ChangeSetStatus, action: AuditAction) {
    && after.runs == db.runs
    && after.changeSets ==
         if run in db.changeSets && db.changeSets[run].status == from
         then db.changeSets[run := db.changeSets[run].(status := to, audit := db.changeSets[run].audit + [action])]
         else db.changeSets
  }

  /** What each decision about a change set does to it. */
  lemma {:induction false} DecisionsMoveTheirChangeSet(db: Database, run: string)
    ensures MovesFrom(db, Review(db, run), run, Captured, Reviewed, ReviewedAction)
    ensures MovesFrom(db, Decide(db, run, RequestPr), run, Reviewed, PrRequested, PrRequestedAction)
    ensures MovesFrom(db, Decide(db, run, Retain), run, Reviewed, RetainRequested, RetainRequestedAction)
    ensures MovesFrom(db, Decide(db, run, RequestDiscard), run, Reviewed, DiscardRequested, DiscardRequestedAction)
    ensures MovesFrom(db, CompleteWorkspaceAction(db, run, RetainAction, true), run, RetainRequested, Retained, WorkspaceRetained)
    ensures MovesFrom(db, CompleteWorkspaceAction(db, run, DiscardAction, true), run, DiscardRequested, Discarded, WorkspaceDiscarded)
    ensures MovesFrom(db, CompleteWorkspaceAction(db, run, RetainAction, false), run, RetainRequested, Reviewed, WorkspaceActionFailed)
    ensures MovesFrom(db, CompleteWorkspaceAction(db, run, DiscardAction, false), run, DiscardRequested, Reviewed, WorkspaceActionFailed)
  {
    hide MovesFrom, MoveChangeSet;
    MoveIsConditional(db, run, Captured, Reviewed, ReviewedAction);
    MoveIsConditional(db, run, Reviewed, PrRequested, PrRequestedAction);
    MoveIsConditional(db, run, Reviewed, RetainRequested, RetainRequestedAction);
    MoveIsConditional(db, run, Reviewed, DiscardRequested, DiscardRequestedAction);
    MoveIsConditional(db, run, RetainRequested, Retained, WorkspaceRetained);
    MoveIsConditional(db, run, DiscardRequested, Discarded, WorkspaceDiscarded);
    MoveIsConditional(db, run, RetainRequested, Reviewed, WorkspaceActionFailed);
    MoveIsConditional(db, run, DiscardRequested, Reviewed, WorkspaceActionFailed);
  }

  lemma MoveIsConditional(db: Database, run: string, from: ChangeSetStatus, to: ChangeSetStatus, action: AuditAction)
    ensures MovesFrom(db, MoveChangeSet(db, run, from, to, action), run, from, to, action)
  {
    hide Counted;
  }
}
