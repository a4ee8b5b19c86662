/**
 Coding runs and the change sets they produce, as tables. Each step is one unit of work; a cancel
 is two, because it waits for the network between reading the run and moving it.
 */
module CodingRuns {
  import opened Wrappers

  datatype RunStatus = Queued | Running | Succeeded | Failed | Cancelled | TimedOut | Interrupted

  datatype CodingRun = CodingRun(
    team: string, repository: string, agent: string, requestId: string, status: RunStatus,
    createdAt: int, updatedAt: int, startedAt: Option<int>, finishedAt: Option<int>, failureReason: string)

  const MAX_FAILURE_REASON_CHARS: nat := 1024

  datatype ChangeSetStatus =
    | Captured | Reviewed | PrRequested | RetainRequested | Retained | DiscardRequested | Discarded

  datatype AuditAction =
    | CapturedAction | ReviewedAction | PrRequestedAction | RetainRequestedAction | DiscardRequestedAction
    | WorkspaceRetained | WorkspaceDiscarded | WorkspaceActionFailed

  datatype ChangeSet = ChangeSet(team: string, repository: string, agent: string, requestId: string,
                                 status: ChangeSetStatus, audit: seq<AuditAction>)

  /** A cancel that has read its run and waits for the agent to be told. */
  datatype PendingCancel = PendingCancel(run: string, expected: RunStatus, startedAt: Option<int>)

  /**
   A change set is stored under its run, which its table holds unique. The history of each run and
   the number of times each change set moved are kept beside the tables.
   */
  datatype Database = Database(
    grants: set<(string, string)>,
    runs: map<string, CodingRun>,
    changeSets: map<string, ChangeSet>,
    cancels: set<PendingCancel>,
    history: map<string, seq<RunStatus>>,
    moves: map<string, int>)

  // ---- Run transitions ----

  predicate IsActive(status: RunStatus) { status.Queued? || status.Running? }

  predicate Allowed(expected: RunStatus, status: RunStatus) {
    match expected
    case Queued => status in {Running, Failed, Cancelled, TimedOut, Interrupted}
    case Running => status in {Succeeded, Failed, Cancelled, TimedOut, Interrupted}
    case _ => false
  }

  function Coalesce<T>(a: Option<T>, b: Option<T>): Option<T> { if a.Some? then a else b }

  predicate CanMove(db: Database, run: string, expected: RunStatus) {
    run in db.runs && db.runs[run].status == expected
  }

  function Moved(r: CodingRun, status: RunStatus, now: int, started: Option<int>, finished: Option<int>): CodingRun {
    r.(status := status, updatedAt := now, startedAt := Coalesce(started, r.startedAt),
      finishedAt := Coalesce(finished, r.finishedAt))
  }

  function Noted(history: map<string, seq<RunStatus>>, run: string, status: RunStatus): map<string, seq<RunStatus>> {
    history[run := (if run in history then history[run] else []) + [status]]
  }

  /** The conditional UPDATE: it moves the run only when its status is still the expected one. */
  function Transition(db: Database, run: string, expected: RunStatus, status: RunStatus, now: int,
      started: Option<int>, finished: Option<int>): Database
    requires Allowed(expected, status)
  {
    if CanMove(db, run, expected) then
      db.(runs := db.runs[run := Moved(db.runs[run], status, now, started, finished)],
          history := Noted(db.history, run, status))
    else db
  }

  // ---- Dispatch, cancel, failure and reconciliation ----

  datatype DispatchError = NotGranted | RunExists

  function DispatchRefusal(db: Database, run: string, team: string, repository: string): Option<DispatchError> {
    if (team, repository) !in db.grants then Some(NotGranted)
    else if run in db.runs then Some(RunExists)
    else None
  }

  function Inserted(db: Database, run: string, r: CodingRun): Database {
    db.(runs := db.runs[run := r], history := db.history[run := [r.status]])
  }

  /** Insert as queued and move to running within one unit of work. */
  function Dispatch(db: Database, run: string, team: string, repository: string, agent: string, requestId: string,
      now: int): Database {
    if DispatchRefusal(db, run, team, repository).Some? then db
    else
      var created := Inserted(db, run, CodingRun(team, repository, agent, requestId, Queued, now, now, None, None, ""));
      Transition(created, run, Queued, Running, now, Some(now), None)
  }

  function ReadForCancel(db: Database, run: string): Database {
    if run in db.runs && IsActive(db.runs[run].status) then
      db.(cancels := db.cancels + {PendingCancel(run, db.runs[run].status, db.runs[run].startedAt)})
    else db
  }

  /** The agent could not be told: nothing is moved. */
  function DropCancel(db: Database, c: PendingCancel): Database { db.(cancels := db.cancels - {c}) }

  function CommitCancel(db: Database, c: PendingCancel, now: int): Database
    requires IsActive(c.expected)
  {
    Transition(DropCancel(db, c), c.run, c.expected, Cancelled, now, c.startedAt, Some(now))
  }

  function RunOfRequest(db: Database, requestId: string): set<string> {
    set run | run in db.runs && db.runs[run].requestId == requestId
  }

  /** The request's run has ended, so a late failure frame for it is dropped. */
  ghost predicate RequestHasEnded(db: Database, requestId: string) {
    exists run :: run in db.runs && db.runs[run].requestId == requestId && !IsActive(db.runs[run].status)
  }

  function Bounded(reason: string): string {
    if |reason| <= MAX_FAILURE_REASON_CHARS then reason else reason[..MAX_FAILURE_REASON_CHARS]
  }

  /** The text of the agent's error, cut to its bound; no text is no reason. */
  function SetFailureReason(db: Database, run: string, reason: string): Database
    requires run in db.runs
  {
    if reason == "" then db else db.(runs := db.runs[run := db.runs[run].(failureReason := Bounded(reason))])
  }

  function MarkFailed(db: Database, run: string, reason: string, now: int): Database {
    if run in db.runs && IsActive(db.runs[run].status) then
      SetFailureReason(Transition(db, run, db.runs[run].status, Failed, now, db.runs[run].startedAt, Some(now)), run, reason)
    else db
  }

  function SearchActive(db: Database, agent: Option<string>): set<string> {
    set run | run in db.runs && IsActive(db.runs[run].status) && (agent.None? || db.runs[run].agent == agent.value)
  }

  function Interrupt(r: CodingRun, now: int): CodingRun {
    Moved(r, Interrupted, now, r.startedAt, Some(r.finishedAt.GetOr(now)))
  }

  /** Moves the given active runs to interrupted. */
  function InterruptAll(db: Database, lost: set<string>, now: int): Database {
    db.(runs := map run | run in db.runs :: if run in lost then Interrupt(db.runs[run], now) else db.runs[run],
        history := map run | run in db.history :: if run in lost then db.history[run] + [Interrupted] else db.history[run])
  }

  function Reconcile(db: Database, agent: Option<string>, now: int): Database {
    InterruptAll(db, SearchActive(db, agent), now)
  }

  // ---- Capture ----

  datatype CaptureError = UnknownRun | NotAccepting | NotAuthorized

  function CaptureRefusal(db: Database, run: string, agent: string, requestId: string,
      repository: string): Option<CaptureError> {
    if run !in db.runs then Some(UnknownRun)
    else
      var r := db.runs[run];
      if !r.status.Running? then Some(NotAccepting)
      else if r.agent != agent || r.requestId != requestId || r.repository != repository then Some(NotAuthorized)
      else None
  }

  /** Store the change set with its first audit event and finish the run, in one unit of work. */
  function Capture(db: Database, run: string, agent: string, requestId: string, repository: string,
      now: int): Database {
    if CaptureRefusal(db, run, agent, requestId, repository).Some? || run in db.changeSets then db
    else
      var r := db.runs[run];
      var stored := ChangeSet(r.team, r.repository, r.agent, r.requestId, Captured, [CapturedAction]);
      Transition(db.(changeSets := db.changeSets[run := stored], moves := db.moves[run := 0]),
                 run, Running, Succeeded, now, None, Some(now))
  }

  // ---- Change-set decisions ----

  predicate CanMoveChangeSet(db: Database, run: string, expected: ChangeSetStatus) {
    run in db.changeSets && db.changeSets[run].status == expected
  }

  function Audited(c: ChangeSet, status: ChangeSetStatus, action: AuditAction): ChangeSet {
    c.(status := status, audit := c.audit + [action])
  }

  function Counted(moves: map<string, int>, run: string): map<string, int> {
    moves[run := (if run in moves then moves[run] else 0) + 1]
  }

  function MoveChangeSet(db: Database, run: string, expected: ChangeSetStatus, status: ChangeSetStatus,
      action: AuditAction): Database {
    if CanMoveChangeSet(db, run, expected) then
      db.(changeSets := db.changeSets[run := Audited(db.changeSets[run], status, action)], moves := Counted(db.moves, run))
    else db
  }

  function Review(db: Database, run: string): Database { MoveChangeSet(db, run, Captured, Reviewed, ReviewedAction) }

  datatype Decision = RequestPr | Retain | RequestDiscard

  function DecisionTarget(d: Decision): (ChangeSetStatus, AuditAction) {
    match d
    case RequestPr => (PrRequested, PrRequestedAction)
    case Retain => (RetainRequested, RetainRequestedAction)
    case RequestDiscard => (DiscardRequested, DiscardRequestedAction)
  }

  function Decide(db: Database, run: string, d: Decision): Database {
    MoveChangeSet(db, run, Reviewed, DecisionTarget(d).0, DecisionTarget(d).1)
  }

  datatype WorkspaceAction = RetainAction | DiscardAction

  function ActionOf(d: Decision): WorkspaceAction { if d.Retain? then RetainAction else DiscardAction }

  function PendingStatus(a: WorkspaceAction): ChangeSetStatus { if a.RetainAction? then RetainRequested else DiscardRequested }

  /** The outcome of the remote action, or the compensating step when it failed. */
  function CompleteWorkspaceAction(db: Database, run: string, a: WorkspaceAction, ok: bool): Database {
    if !ok then MoveChangeSet(db, run, PendingStatus(a), Reviewed, WorkspaceActionFailed)
    else if a.RetainAction? then MoveChangeSet(db, run, PendingStatus(a), Retained, WorkspaceRetained)
    else MoveChangeSet(db, run, PendingStatus(a), Discarded, WorkspaceDiscarded)
  }

  // ---- Histories ----

  datatype Event =
    | Dispatched(run: string, team: string, repository: string, agent: string, requestId: string, now: int)
    | ChangeSetFrame(run: string, agent: string, requestId: string, repository: string, now: int)
    | FailureFrame(requestId: string, reason: string, now: int)
    | CancelRead(run: string)
    | CancelRefused(cancel: PendingCancel)
    | CancelSent(cancel: PendingCancel, now: int)
    | Reconciled(scope: Option<string>, now: int)
    | ReviewedBy(run: string)
    | Decided(run: string, decision: Decision)
    | WorkspaceDone(run: string, action: WorkspaceAction, ok: bool)

  /** Request ids are new; only a cancel that was read goes on. */
  predicate Possible(db: Database, e: Event) {
    match e
    case Dispatched(_, _, _, _, requestId, _) => RunOfRequest(db, requestId) == {}
    case CancelRefused(c) => c in db.cancels
    case CancelSent(c, _) => c in db.cancels && IsActive(c.expected)
    case _ => true
  }

  /** A failure frame finds at most one run, request ids being unique. */
  ghost function FailRequest(db: Database, requestId: string, reason: string, now: int): Database {
    var found := RunOfRequest(db, requestId);
    if found == {} then db else var run :| run in found; MarkFailed(db, run, reason, now)
  }

  ghost function Apply(db: Database, e: Event): Database
    requires Possible(db, e)
  {
    match e
    case Dispatched(run, team, repository, agent, requestId, now) => Dispatch(db, run, team, repository, agent, requestId, now)
    case ChangeSetFrame(run, agent, requestId, repository, now) => Capture(db, run, agent, requestId, repository, now)
    case FailureFrame(requestId, reason, now) => FailRequest(db, requestId, reason, now)
    case CancelRead(run) => ReadForCancel(db, run)
    case CancelRefused(c) => DropCancel(db, c)
    case CancelSent(c, now) => CommitCancel(db, c, now)
    case Reconciled(agent, now) => Reconcile(db, agent, now)
    case ReviewedBy(run) => Review(db, run)
    case Decided(run, d) => Decide(db, run, d)
    case WorkspaceDone(run, a, ok) => CompleteWorkspaceAction(db, run, a, ok)
  }

  ghost predicate PossibleHistory(db: Database, events: seq<Event>)
    decreases events
  {
    events == [] || (Possible(db, events[0]) && PossibleHistory(Apply(db, events[0]), events[1..]))
  }

  ghost function After(db: Database, events: seq<Event>): Database
    requires PossibleHistory(db, events)
    decreases events
  {
    if events == [] then db else After(Apply(db, events[0]), events[1..])
  }

  function Empty(grants: set<(string, string)>): Database { Database(grants, map[], map[], {}, map[], map[]) }

  // ---- What every history keeps ----

  /** A path of allowed moves from queued. */
  predicate IsPath(path: seq<RunStatus>) {
    path != [] && path[0].Queued? && forall i :: 0 < i < |path| ==> Allowed(path[i - 1], path[i])
  }

  /** How many moves a run in this status has left: none once it is terminal. */
  function MovesLeft(status: RunStatus): nat {
    match status case Queued => 2 case Running => 1 case _ => 0
  }

  lemma {:induction false} PathsUseUpMoves(path: seq<RunStatus>)
    requires IsPath(path)
    ensures |path| - 1 + MovesLeft(path[|path| - 1]) <= 2
  {
    if |path| > 1 {
      PathsUseUpMoves(path[..|path| - 1]);
      assert Allowed(path[|path| - 2], path[|path| - 1]);
    }
  }

  lemma PathGrows(path: seq<RunStatus>, status: RunStatus)
    requires IsPath(path) && Allowed(path[|path| - 1], status)
    ensures IsPath(path + [status])
  {
  }

  predicate RunSound(r: CodingRun, path: seq<RunStatus>, captured: bool) {
    && IsPath(path) && path[|path| - 1] == r.status
    && (r.finishedAt.Some? <==> !IsActive(r.status))
    && (captured <==> r.status.Succeeded?)
    && (r.failureReason != "" ==> r.status.Failed? && |r.failureReason| <= MAX_FAILURE_REASON_CHARS)
  }

  predicate RunsSound(runs: map<string, CodingRun>, history: map<string, seq<RunStatus>>, captured: set<string>) {
    && history.Keys == runs.Keys
    && captured <= runs.Keys
    && forall run :: run in runs ==> RunSound(runs[run], history[run], run in captured)
  }

  predicate RequestsUnique(runs: map<string, CodingRun>) {
    forall a, b :: a in runs && b in runs && runs[a].requestId == runs[b].requestId ==> a == b
  }

  /** The audit trail read as a machine of its own; None once an action is out of place. */
  function Replayed(status: Option<ChangeSetStatus>, action: AuditAction): Option<ChangeSetStatus> {
    match (status, action)
    case (None, CapturedAction) => Some(Captured)
    case (Some(Captured), ReviewedAction) => Some(Reviewed)
    case (Some(Reviewed), PrRequestedAction) => Some(PrRequested)
    case (Some(Reviewed), RetainRequestedAction) => Some(RetainRequested)
    case (Some(Reviewed), DiscardRequestedAction) => Some(DiscardRequested)
    case (Some(RetainRequested), WorkspaceRetained) => Some(Retained)
    case (Some(DiscardRequested), WorkspaceDiscarded) => Some(Discarded)
    case (Some(RetainRequested), WorkspaceActionFailed) => Some(Reviewed)
    case (Some(DiscardRequested), WorkspaceActionFailed) => Some(Reviewed)
    case _ => None
  }

  function Replay(audit: seq<AuditAction>): Option<ChangeSetStatus> {
    if audit == [] then None else Replayed(Replay(audit[..|audit| - 1]), audit[|audit| - 1])
  }

  lemma ReplayGrows(audit: seq<AuditAction>, action: AuditAction)
    ensures Replay(audit + [action]) == Replayed(Replay(audit), action)
  {
    assert (audit + [action])[..|audit|] == audit;
  }

  predicate AuditSound(c: ChangeSet, moves: int) {
    Replay(c.audit) == Some(c.status) && |c.audit| == 1 + moves
  }

  predicate AuditsSound(changeSets: map<string, ChangeSet>, moves: map<string, int>) {
    && moves.Keys == changeSets.Keys
    && forall run :: run in changeSets ==> AuditSound(changeSets[run], moves[run])
  }

  predicate Sound(db: Database) {
    && RunsSound(db.runs, db.history, db.changeSets.Keys)
    && RequestsUnique(db.runs)
    && AuditsSound(db.changeSets, db.moves)
  }

  // ---- One run or one change set at a time ----

  lemma MoveKeepsRun(r: CodingRun, path: seq<RunStatus>, captured: bool, status: RunStatus, now: int,
      started: Option<int>, finished: Option<int>)
    requires RunSound(r, path, captured) && Allowed(r.status, status)
    requires finished.Some? <==> !IsActive(status)
    ensures RunSound(Moved(r, status, now, started, finished), path + [status], status.Succeeded?)
  {
    PathGrows(path, status);
  }

  lemma RunsKept(runs: map<string, CodingRun>, history: map<string, seq<RunStatus>>, captured: set<string>,
                 run: string, r: CodingRun, path: seq<RunStatus>)
    requires RunsSound(runs, history, captured)
    requires RunSound(r, path, r.status.Succeeded?) && (run in captured ==> r.status.Succeeded?)
    ensures RunsSound(runs[run := r], history[run := path], if r.status.Succeeded? then captured + {run} else captured)
  {
    hide RunSound;
  }

  lemma RequestsKept(runs: map<string, CodingRun>, run: string, r: CodingRun)
    requires RequestsUnique(runs)
    requires forall other :: other in runs && other != run ==> runs[other].requestId != r.requestId
    ensures RequestsUnique(runs[run := r])
  {
  }

  lemma AuditsKept(changeSets: map<string, ChangeSet>, moves: map<string, int>, run: string, c: ChangeSet, count: int)
    requires AuditsSound(changeSets, moves) && AuditSound(c, count)
    ensures AuditsSound(changeSets[run := c], moves[run := count])
  {
    hide AuditSound;
  }

  // ---- Each step keeps the whole ----

  lemma TransitionKeeps(db: Database, run: string, expected: RunStatus, status: RunStatus, now: int,
      started: Option<int>, finished: Option<int>)
    requires Sound(db) && Allowed(expected, status) && !status.Succeeded?
    requires finished.Some? <==> !IsActive(status)
    ensures Sound(Transition(db, run, expected, status, now, started, finished))
  {
    hide IsPath, Replay, AuditSound;
    if CanMove(db, run, expected) {
      assert RunSound(db.runs[run], db.history[run], run in db.changeSets.Keys);
      MoveKeepsRun(db.runs[run], db.history[run], run in db.changeSets, status, now, started, finished);
      RunsKept(db.runs, db.history, db.changeSets.Keys, run, Moved(db.runs[run], status, now, started, finished),
        db.history[run] + [status]);
      RequestsKept(db.runs, run, Moved(db.runs[run], status, now, started, finished));
    }
  }

  lemma InsertKeeps(db: Database, run: string, r: CodingRun)
    requires Sound(db) && run !in db.runs && r.status.Queued? && r.finishedAt.None? && r.failureReason == ""
    requires RunOfRequest(db, r.requestId) == {}
    ensures Sound(Inserted(db, run, r))
  {
    hide Replay, AuditSound;
    assert RunSound(r, [Queued], false);
    assert run !in db.changeSets.Keys;
    RunsKept(db.runs, db.history, db.changeSets.Keys, run, r, [Queued]);
    forall a | a in db.runs ensures db.runs[a].requestId != r.requestId {
      assert a !in RunOfRequest(db, r.requestId);
    }
    RequestsKept(db.runs, run, r);
  }

  lemma DispatchKeeps(db: Database, run: string, team: string, repository: string, agent: string, requestId: string,
      now: int)
    requires Sound(db) && RunOfRequest(db, requestId) == {}
    ensures Sound(Dispatch(db, run, team, repository, agent, requestId, now))
  {
    hide Sound, RunOfRequest;
    if DispatchRefusal(db, run, team, repository).None? {
      var r := CodingRun(team, repository, agent, requestId, Queued, now, now, None, None, "");
      InsertKeeps(db, run, r);
      TransitionKeeps(Inserted(db, run, r), run, Queued, Running, now, Some(now), None);
    }
  }

  /** The run a change set is captured for never has one yet, and the move to succeeded never misses. */
  lemma {:induction false} CaptureKeeps(db: Database, run: string, agent: string, requestId: string, repository: string, now: int)
    requires Sound(db)
    ensures Sound(Capture(db, run, agent, requestId, repository, now))
    ensures CaptureRefusal(db, run, agent, requestId, repository).None? ==> run !in db.changeSets
  {
    hide IsPath, Replay;
    if CaptureRefusal(db, run, agent, requestId, repository).None? {
      var r := db.runs[run];
      assert RunSound(r, db.history[run], run in db.changeSets.Keys);
      MoveKeepsRun(r, db.history[run], false, Succeeded, now, None, Some(now));
      var moved := Moved(r, Succeeded, now, None, Some(now));
      RunsKept(db.runs, db.history, db.changeSets.Keys, run, moved, db.history[run] + [Succeeded]);
      RequestsKept(db.runs, run, moved);
      FirstAudit();
      var stored := ChangeSet(r.team, r.repository, r.agent, r.requestId, Captured, [CapturedAction]);
      AuditsKept(db.changeSets, db.moves, run, stored, 0);
      assert db.changeSets[run := stored].Keys == db.changeSets.Keys + {run};
    }
  }

  lemma FirstAudit()
    ensures Replay([CapturedAction]) == Some(Captured)
  {
    ReplayGrows([], CapturedAction);
    assert [] + [CapturedAction] == [CapturedAction];
  }

  lemma ReconcileKeepsRuns(db: Database, lost: set<string>, now: int)
    requires RunsSound(db.runs, db.history, db.changeSets.Keys)
    requires forall run :: run in lost ==> run in db.runs && IsActive(db.runs[run].status)
    ensures RunsSound(InterruptAll(db, lost, now).runs, InterruptAll(db, lost, now).history, db.changeSets.Keys)
  {
    hide IsPath;
    forall run | run in db.runs
      ensures RunSound(db.runs[run], db.history[run], run in db.changeSets.Keys)
      ensures run in lost ==> RunSound(Interrupt(db.runs[run], now), db.history[run] + [Interrupted], run in db.changeSets.Keys)
    {
      assert RunSound(db.runs[run], db.history[run], run in db.changeSets.Keys);
      if run in lost {
        MoveKeepsRun(db.runs[run], db.history[run], run in db.changeSets.Keys, Interrupted, now,
          db.runs[run].startedAt, Some(db.runs[run].finishedAt.GetOr(now)));
      }
    }
    hide RunSound;
  }

  lemma ReconcileKeeps(db: Database, agent: Option<string>, now: int)
    requires Sound(db)
    ensures Sound(Reconcile(db, agent, now))
  {
    hide RunsSound, AuditsSound;
    ReconcileKeepsRuns(db, SearchActive(db, agent), now);
  }

  lemma MoveKeepsAudit(db: Database, run: string, expected: ChangeSetStatus, status: ChangeSetStatus,
      action: AuditAction)
    requires Sound(db) && Replayed(Some(expected), action) == Some(status)
    ensures Sound(MoveChangeSet(db, run, expected, status, action))
  {
    hide RunsSound, RequestsUnique, Replay, Replayed;
    if run in db.changeSets && db.changeSets[run].status == expected {
      var c := db.changeSets[run];
      assert AuditSound(c, db.moves[run]);
      ReplayGrows(c.audit, action);
      AuditsKept(db.changeSets, db.moves, run, c.(status := status, audit := c.audit + [action]), db.moves[run] + 1);
      assert db.changeSets[run := c.(status := status, audit := c.audit + [action])].Keys == db.changeSets.Keys;
    }
  }

  lemma ReasonKeeps(db: Database, run: string, reason: string)
    requires Sound(db) && run in db.runs && db.runs[run].status.Failed?
    ensures Sound(SetFailureReason(db, run, reason))
  {
    hide IsPath, AuditsSound;
    var r := db.runs[run].(failureReason := Bounded(reason));
    assert RunSound(db.runs[run], db.history[run], run in db.changeSets.Keys);
    if reason != "" {
      RunsKept(db.runs, db.history, db.changeSets.Keys, run, r, db.history[run]);
      RequestsKept(db.runs, run, r);
      assert db.history[run := db.history[run]] == db.history;
    }
  }

  lemma MarkFailedKeeps(db: Database, run: string, reason: string, now: int)
    requires Sound(db)
    ensures Sound(MarkFailed(db, run, reason, now))
  {
    hide Sound, SetFailureReason;
    if run in db.runs && IsActive(db.runs[run].status) {
      TransitionKeeps(db, run, db.runs[run].status, Failed, now, db.runs[run].startedAt, Some(now));
      ReasonKeeps(Transition(db, run, db.runs[run].status, Failed, now, db.runs[run].startedAt, Some(now)), run, reason);
    }
  }

  lemma CancelKeeps(db: Database, c: PendingCancel, now: int)
    requires Sound(db) && IsActive(c.expected)
    ensures Sound(CommitCancel(db, c, now))
  {
    TransitionKeeps(DropCancel(db, c), c.run, c.expected, Cancelled, now, c.startedAt, Some(now));
  }

  lemma WorkspaceDoneKeeps(db: Database, run: string, a: WorkspaceAction, ok: bool)
    requires Sound(db)
    ensures Sound(CompleteWorkspaceAction(db, run, a, ok))
  {
    hide Sound;
    if !ok {
      MoveKeepsAudit(db, run, PendingStatus(a), Reviewed, WorkspaceActionFailed);
    } else if a.RetainAction? {
      MoveKeepsAudit(db, run, PendingStatus(a), Retained, WorkspaceRetained);
    } else {
      MoveKeepsAudit(db, run, PendingStatus(a), Discarded, WorkspaceDiscarded);
    }
  }

  lemma StepKeepsSound(db: Database, e: Event)
    requires Sound(db) && Possible(db, e)
    ensures Sound(Apply(db, e))
  {
    hide RunsSound, RequestsUnique, AuditsSound, Dispatch, Capture, MarkFailed, CommitCancel, Reconcile,
      MoveChangeSet, CompleteWorkspaceAction;
    match e
    case Dispatched(run, team, repository, agent, requestId, now) => DispatchKeeps(db, run, team, repository, agent,
      requestId, now);
    case ChangeSetFrame(run, agent, requestId, repository, now) => CaptureKeeps(db, run, agent, requestId, repository, now);
    case FailureFrame(requestId, reason, now) =>
      forall run ensures Sound(MarkFailed(db, run, reason, now)) { MarkFailedKeeps(db, run, reason, now); }
    case CancelSent(c, now) => CancelKeeps(db, c, now);
    case Reconciled(agent, now) => ReconcileKeeps(db, agent, now);
    case ReviewedBy(run) => MoveKeepsAudit(db, run, Captured, Reviewed, ReviewedAction);
    case Decided(run, d) => MoveKeepsAudit(db, run, Reviewed, DecisionTarget(d).0, DecisionTarget(d).1);
    case WorkspaceDone(run, a, ok) => WorkspaceDoneKeeps(db, run, a, ok);
    case _ =>
  }

  lemma {:induction false} HistoryKeepsSound(db: Database, events: seq<Event>)
    requires Sound(db) && PossibleHistory(db, events)
    ensures Sound(After(db, events))
    decreases events
  {
    if events != [] {
      StepKeepsSound(db, events[0]);
      HistoryKeepsSound(Apply(db, events[0]), events[1..]);
    }
  }

  // ---- Main results ----

  /**
   Over every interleaving a run moves at most twice, is finished exactly when it is terminal, has a
   change set exactly when it succeeded, and gives a bounded reason only when it failed.
   */
  lemma {:induction false} RunLifecycle(grants: set<(string, string)>, events: seq<Event>, run: string)
    requires PossibleHistory(Empty(grants), events)
    requires run in After(Empty(grants), events).runs
    ensures var db := After(Empty(grants), events);
      && run in db.history && IsPath(db.history[run]) && |db.history[run]| <= 3
      && db.history[run][|db.history[run]| - 1] == db.runs[run].status
      && (db.runs[run].finishedAt.Some? <==> !IsActive(db.runs[run].status))
      && (run in db.changeSets <==> db.runs[run].status.Succeeded?)
      && (db.runs[run].failureReason != "" ==> db.runs[run].status.Failed?)
      && |db.runs[run].failureReason| <= MAX_FAILURE_REASON_CHARS
  {
    HistoryKeepsSound(Empty(grants), events);
    var db := After(Empty(grants), events);
    assert RunSound(db.runs[run], db.history[run], run in db.changeSets.Keys);
    PathsUseUpMoves(db.history[run]);
  }

  /** The audit trail replays to the current status and is one longer than the moves made. */
  lemma {:induction false} AuditReplays(grants: set<(string, string)>, events: seq<Event>, run: string)
    requires PossibleHistory(Empty(grants), events)
    requires run in After(Empty(grants), events).changeSets
    ensures var db := After(Empty(grants), events);
      && Replay(db.changeSets[run].audit) == Some(db.changeSets[run].status)
      && run in db.moves && |db.changeSets[run].audit| == 1 + db.moves[run]
  {
    HistoryKeepsSound(Empty(grants), events);
  }

  predicate Terminal(db: Database, run: string) { run in db.runs && !IsActive(db.runs[run].status) }

  lemma TerminalStays(db: Database, e: Event, run: string)
    requires Possible(db, e) && Terminal(db, run)
    ensures Terminal(Apply(db, e), run) && Apply(db, e).runs[run] == db.runs[run]
  {
  }

  /** Terminal states absorb: nothing a frame, a cancel or a restart does changes such a run again. */
  lemma {:induction false} TerminalIsAbsorbing(db: Database, events: seq<Event>, run: string)
    requires PossibleHistory(db, events) && Terminal(db, run)
    ensures Terminal(After(db, events), run) && After(db, events).runs[run] == db.runs[run]
    decreases events
  {
    if events != [] {
      TerminalStays(db, events[0], run);
      TerminalIsAbsorbing(Apply(db, events[0]), events[1..], run);
    }
  }

  /** An immediately repeated reconciliation finds nothing and moves nothing. */
  lemma ReconcileTwice(db: Database, agent: Option<string>, now: int, later: int)
    ensures var once := Reconcile(db, agent, now);
      SearchActive(once, agent) == {} && Reconcile(once, agent, later) == once
  {
    var once := Reconcile(db, agent, now);
    assert SearchActive(once, agent) == {};
    assert InterruptAll(once, {}, later).runs == once.runs && InterruptAll(once, {}, later).history == once.history;
  }

  // ---- Cancels that waited ----

  lemma PathNeverReturns(path: seq<RunStatus>, i: nat)
    requires IsPath(path) && i < |path|
    ensures MovesLeft(path[i]) + i >= MovesLeft(path[|path| - 1]) + |path| - 1
    decreases |path| - i
  {
    if i < |path| - 1 {
      assert Allowed(path[i], path[i + 1]);
      PathNeverReturns(path, i + 1);
    }
  }

  predicate HistoryKept(before: map<string, seq<RunStatus>>, after: map<string, seq<RunStatus>>, run: string) {
    run in before ==> run in after && before[run] <= after[run]
  }

  lemma TransitionKeepsHistory(db: Database, moved: string, expected: RunStatus, status: RunStatus, now: int,
      started: Option<int>, finished: Option<int>, run: string)
    requires Allowed(expected, status)
    ensures HistoryKept(db.history, Transition(db, moved, expected, status, now, started, finished).history, run)
  {
  }

  lemma StepKeepsHistory(db: Database, e: Event, run: string)
    requires Sound(db) && Possible(db, e)
    ensures HistoryKept(db.history, Apply(db, e).history, run)
  {
    hide Transition, IsPath, RunSound, AuditsSound, RequestsUnique;
    match e
    case Dispatched(other, team, repository, agent, requestId, now) =>
      var created := Inserted(db, other, CodingRun(team, repository, agent, requestId, Queued, now, now, None, None, ""));
      TransitionKeepsHistory(created, other, Queued, Running, now, Some(now), None, run);
    case ChangeSetFrame(other, agent, requestId, repository, now) =>
      forall changeSets, moves ensures HistoryKept(db.history, Transition(db.(changeSets := changeSets,
        moves := moves), other, Running, Succeeded, now, None, Some(now)).history, run) {
        TransitionKeepsHistory(db.(changeSets := changeSets, moves := moves), other, Running, Succeeded, now, None,
          Some(now), run);
      }
    case FailureFrame(requestId, reason, now) =>
      forall other | other in db.runs && IsActive(db.runs[other].status)
        ensures HistoryKept(db.history, Transition(db, other, db.runs[other].status, Failed, now,
          db.runs[other].startedAt, Some(now)).history, run)
      {
        TransitionKeepsHistory(db, other, db.runs[other].status, Failed, now, db.runs[other].startedAt, Some(now), run);
      }
    case CancelSent(c, now) => TransitionKeepsHistory(DropCancel(db, c), c.run, c.expected, Cancelled, now,
      c.startedAt, Some(now), run);
    case _ =>
  }

  lemma {:induction false} RunKeepsHistory(db: Database, events: seq<Event>, run: string)
    requires Sound(db) && PossibleHistory(db, events)
    ensures HistoryKept(db.history, After(db, events).history, run)
    decreases events
  {
    if events != [] {
      hide Sound, Apply, Possible;
      StepKeepsHistory(db, events[0], run);
      StepKeepsSound(db, events[0]);
      RunKeepsHistory(Apply(db, events[0]), events[1..], run);
    }
  }

  /**
   A cancel takes effect exactly when nobody moved its run between the read and the answer of the
   agent, whatever else happened meanwhile; a cancel that was overtaken changes no run.
   */
  lemma {:induction false} CancelTakesEffectUnlessOvertaken(db: Database, run: string, events: seq<Event>, now: int)
    requires Sound(db) && run in db.runs && IsActive(db.runs[run].status) && PossibleHistory(db, events)
    ensures run in After(db, events).runs && run in db.history && run in After(db, events).history
    ensures var c := PendingCancel(run, db.runs[run].status, db.runs[run].startedAt);
      var later := After(db, events);
      if later.history[run] == db.history[run] then CommitCancel(later, c, now).runs[run].status.Cancelled?
      else CommitCancel(later, c, now).runs == later.runs
  {
    hide AuditsSound, RequestsUnique, Apply, Possible;
    var later := After(db, events);
    HistoryKeepsSound(db, events);
    RunKeepsHistory(db, events, run);
    assert RunSound(db.runs[run], db.history[run], run in db.changeSets.Keys);
    assert RunSound(later.runs[run], later.history[run], run in later.changeSets.Keys);
    if later.history[run] != db.history[run] {
      PathNeverReturns(later.history[run], |db.history[run]| - 1);
    }
  }

  predicate EndsAction(e: Event, run: string, a: WorkspaceAction) { e.WorkspaceDone? && e.run == run && e.action == a }

  /** A pending retain or discard ends as itself or goes back to reviewed; nothing else moves it. */
  lemma {:induction false} PendingEndsAsItself(db: Database, e: Event, run: string, a: WorkspaceAction)
    requires Possible(db, e) && run in db.changeSets && db.changeSets[run].status == PendingStatus(a)
    ensures run in Apply(db, e).changeSets
    ensures Apply(db, e).changeSets[run].status in {PendingStatus(a), Reviewed, if a.RetainAction? then Retained else Discarded}
    ensures Apply(db, e).changeSets[run] == db.changeSets[run] || EndsAction(e, run, a)
  {
  }

  /** Until its own action is done a pending change set waits: no other step moves it, however many there are. */
  lemma {:induction false} PendingWaitsForItsAction(db: Database, events: seq<Event>, run: string, a: WorkspaceAction)
    requires PossibleHistory(db, events) && run in db.changeSets && db.changeSets[run].status == PendingStatus(a)
    requires forall e :: e in events ==> !EndsAction(e, run, a)
    ensures run in After(db, events).changeSets && After(db, events).changeSets[run] == db.changeSets[run]
    decreases events
  {
    if events != [] {
      hide Apply, Possible;
      assert events[0] in events && forall e :: e in events[1..] ==> e in events;
      PendingEndsAsItself(db, events[0], run, a);
      PendingWaitsForItsAction(Apply(db, events[0]), events[1..], run, a);
    }
  }

  /**
   A retain or discard from its request to its outcome, around its wait for the agent: whatever
   happens to the tables meanwhile, the change set ends in its final status, or back in reviewed
   when the agent failed, with exactly the request and the outcome added to its audit trail.
   */
  lemma {:induction false} WorkspaceDecisionEnds(db: Database, run: string, d: Decision, events: seq<Event>, ok: bool)
    requires run in db.changeSets && db.changeSets[run].status.Reviewed? && !d.RequestPr?
    requires PossibleHistory(Decide(db, run, d), events)
    requires forall e :: e in events ==> !EndsAction(e, run, ActionOf(d))
    ensures var before, later := db.changeSets[run], After(Decide(db, run, d), events);
      var status := if !ok then Reviewed else if d.Retain? then Retained else Discarded;
      var outcome := if !ok then WorkspaceActionFailed else if d.Retain? then WorkspaceRetained else WorkspaceDiscarded;
      && run in later.changeSets
      && CompleteWorkspaceAction(later, run, ActionOf(d), ok).changeSets == later.changeSets[run :=
        before.(status := status, audit := before.audit + [DecisionTarget(d).1, outcome])]
  {
    hide PossibleHistory, After;
    var later := After(Decide(db, run, d), events);
    PendingWaitsForItsAction(Decide(db, run, d), events, run, ActionOf(d));
    assert later.changeSets[run] == Audited(db.changeSets[run], DecisionTarget(d).0, DecisionTarget(d).1);
    assert forall audit: seq<AuditAction>, a, b :: audit + [a] + [b] == audit + [a, b];
  }

  /** The second half of a capture, taken alone: what is written once the run has been read and accepted. */
  function WriteCapture(db: Database, run: string, r: CodingRun, now: int): Database {
    var stored := ChangeSet(r.team, r.repository, r.agent, r.requestId, Captured, [CapturedAction]);
    Transition(db.(changeSets := db.changeSets[run := stored], moves := db.moves[run := 0]),
               run, Running, Succeeded, now, None, Some(now))
  }

  lemma CapturedRunSucceeded(db: Database, run: string)
    requires Sound(db) && run in db.changeSets
    ensures run in db.runs && db.runs[run].status.Succeeded?
  {
    hide AuditsSound, RequestsUnique;
    assert run in db.changeSets.Keys;
    assert RunSound(db.runs[run], db.history[run], run in db.changeSets.Keys);
  }

  /**
   Why a capture has to be one transaction: were the run to end otherwise between its read and its
   writes, the refused move would not take the change set back, and the run would keep one without
   having succeeded. This is so for every accepted frame and every later state of that kind.
   */
  lemma {:induction false} TornCaptureLeavesAnOrphan(db: Database, later: Database, run: string, agent: string, requestId: string,
      repository: string, now: int)
    requires Sound(db) && CaptureRefusal(db, run, agent, requestId, repository).None?
    requires Terminal(later, run) && !later.runs[run].status.Succeeded?
    ensures WriteCapture(db, run, db.runs[run], now) == Capture(db, run, agent, requestId, repository, now)
    ensures var torn := WriteCapture(later, run, db.runs[run], now);
      run in torn.changeSets && run in torn.runs && !torn.runs[run].status.Succeeded? && !Sound(torn)
  {
    hide Sound;
    CaptureKeeps(db, run, agent, requestId, repository, now);
    var torn := WriteCapture(later, run, db.runs[run], now);
    if Sound(torn) {
      CapturedRunSucceeded(torn, run);
    }
  }
}
