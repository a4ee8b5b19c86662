/**
 The tables of coding runs and change sets as the units of work update them in place: a row moves
 only by a conditional update, and every service method is a sequence of such updates.
 */
module CodingRunService {
  import opened Wrappers
  import opened CodingRuns
  import opened Sorting

  datatype TransitionError = InvalidTransition
  datatype CancelError = UnknownCancelled
  datatype DecisionError = UnknownChangeSet | UnsupportedDecision | NotInExpectedStatus

  class Tables {
    var grants: set<(string, string)>
    var runs: map<string, CodingRun>
    var changeSets: map<string, ChangeSet>
    /** Cancels waiting for their agent, each the local state of one caller. */
    ghost var cancels: set<PendingCancel>
    ghost var history: map<string, seq<RunStatus>>
    ghost var moves: map<string, int>

    ghost function Value(): Database
      reads this
    {
      Database(grants, runs, changeSets, cancels, history, moves)
    }

    ghost predicate Valid()
      reads this
    {
      Sound(Value())
    }

    constructor (granted: set<(string, string)>)
      ensures Valid() && Value() == Empty(granted)
    {
      grants, runs, changeSets := granted, map[], map[];
      cancels, history, moves := {}, map[], map[];
    }

    // ---- The conditional updates ----

    method Transition(run: string, expected: RunStatus, status: RunStatus, now: int, started: Option<int>,
        finished: Option<int>)
      returns (moved: Result<bool, TransitionError>)
      modifies this`runs, this`history
      ensures moved.Err? <==> !Allowed(expected, status)
      ensures moved.Err? ==> Value() == old(Value())
      ensures moved.Ok? ==> moved.value == old(CanMove(Value(), run, expected))
      ensures moved.Ok? ==> Value() == CodingRuns.Transition(old(Value()), run, expected, status, now, started, finished)
    {
      if !Allowed(expected, status) {
        return Err(InvalidTransition);
      }
      if run in runs && runs[run].status == expected {
        history := Noted(history, run, status);
        runs := runs[run := runs[run].(status := status, updatedAt := now,
                                       startedAt := if started.Some? then started else runs[run].startedAt,
                                       finishedAt := if finished.Some? then finished else runs[run].finishedAt)];
        return Ok(true);
      }
      return Ok(false);
    }

    method TransitionChangeSet(run: string, expected: ChangeSetStatus, status: ChangeSetStatus, action: AuditAction)
      returns (moved: bool)
      modifies this`changeSets, this`moves
      ensures moved <==> old(CanMoveChangeSet(Value(), run, expected))
      ensures Value() == MoveChangeSet(old(Value()), run, expected, status, action)
    {
      hide Audited, Counted, MoveChangeSet, CanMoveChangeSet;
      MoveIs(Value(), run, expected, status, action);
      moved := run in changeSets && changeSets[run].status == expected;
      if moved {
        changeSets := changeSets[run := Audited(changeSets[run], status, action)];
        moves := Counted(moves, run);
      }
    }

    // ---- Coding runs ----

    method DispatchCodingRun(run: string, team: string, repository: string, agent: string, requestId: string, now: int)
      returns (r: Result<CodingRun, DispatchError>)
      requires Valid() && RunOfRequest(Value(), requestId) == {}
      modifies this`runs, this`history
      ensures Valid() && Value() == Dispatch(old(Value()), run, team, repository, agent, requestId, now)
      ensures match r
        case Ok(dispatched) => run in runs && dispatched == runs[run] && dispatched.status.Running?
        case Err(e) => Some(e) == DispatchRefusal(old(Value()), run, team, repository)
    {
      DispatchKeeps(Value(), run, team, repository, agent, requestId, now);
      if (team, repository) !in grants {
        return Err(NotGranted);
      }
      if run in runs {
        return Err(RunExists);
      }
      runs := runs[run := CodingRun(team, repository, agent, requestId, Queued, now, now, None, None, "")];
      history := history[run := [Queued]];
      var started := Transition(run, Queued, Running, now, Some(now), None);
      assert started == Ok(true);
      return Ok(runs[run]);
    }

    /** The part of a cancel before it waits for the agent. */
    method ReadRunForCancel(run: string) returns (r: Result<Option<PendingCancel>, CancelError>)
      requires Valid()
      modifies this`cancels
      ensures Valid() && Value() == ReadForCancel(old(Value()), run)
      ensures r.Err? <==> run !in runs
      ensures r.Ok? ==> (r.value.Some? <==> IsActive(runs[run].status))
      ensures r.Ok? && r.value.Some? ==> r.value.value in cancels && r.value.value.run == run && IsActive(r.value.value.expected)
    {
      if run !in runs {
        return Err(UnknownCancelled);
      }
      if !IsActive(runs[run].status) {
        return Ok(None);
      }
      var pending := PendingCancel(run, runs[run].status, runs[run].startedAt);
      cancels := cancels + {pending};
      return Ok(Some(pending));
    }

    /** The part after it: the run is moved only when nobody else moved it meanwhile. */
    method CommitPendingCancel(c: PendingCancel, now: int) returns (cancelled: bool)
      requires Valid() && c in cancels && IsActive(c.expected)
      modifies this`cancels, this`runs, this`history
      ensures Valid() && Value() == CommitCancel(old(Value()), c, now)
      ensures cancelled <==> old(CanMove(Value(), c.run, c.expected))
    {
      CancelKeeps(Value(), c, now);
      cancels := cancels - {c};
      var moved := Transition(c.run, c.expected, Cancelled, now, c.startedAt, Some(now));
      return moved.value;
    }

    /** The reason is the text of the agent's error, empty for an error Python holds false. */
    method MarkRunFailed(run: string, reason: string, now: int) returns (failed: bool)
      requires Valid()
      modifies this`runs, this`history
      ensures Valid() && Value() == MarkFailed(old(Value()), run, reason, now)
      ensures failed <==> old(run in runs && IsActive(runs[run].status))
    {
      MarkFailedKeeps(Value(), run, reason, now);
      if run !in runs || !IsActive(runs[run].status) {
        return false;
      }
      var moved := Transition(run, runs[run].status, Failed, now, runs[run].startedAt, Some(now));
      assert moved == Ok(true);
      if reason != "" {
        runs := runs[run := runs[run].(failureReason := Bounded(reason))];
      }
      return true;
    }

    /** A failure frame names its run by the request it answers. */
    method FailCodingRequest(requestId: string, reason: string, now: int) returns (deliver: bool)
      requires Valid()
      modifies this`runs, this`history
      ensures Valid() && Value() == FailRequest(old(Value()), requestId, reason, now)
      ensures !deliver <==> old(RequestHasEnded(Value(), requestId))
    {
      if run :| run in runs.Keys && runs[run].requestId == requestId {
        OnlyRunOfRequest(Value(), run);
        deliver := MarkRunFailed(run, reason, now);
      } else {
        assert RunOfRequest(Value(), requestId) == {};
        deliver := true;
      }
    }

    /** The oldest first. */
    method SearchActiveRuns(agent: Option<string>) returns (active: seq<string>)
      ensures multiset(active) == multiset(SearchActive(Value(), agent))
      ensures Sorted(active, OldestFirst(runs))
    {
      hide SearchActive, Sorted, OldestFirst, InScope;
      active := [];
      var rest := runs.Keys;
      AgesArePreordered(runs);
      NothingSearched(Value(), agent);
      while rest != {}
        invariant rest <= runs.Keys
        invariant multiset(active) == multiset(SearchActive(Value(), agent) - rest)
        invariant Sorted(active, OldestFirst(runs))
      {
        var run :| run in rest;
        OneMoreSearched(Value(), agent, rest, run);
        if InScope(runs[run], agent) {
          InsertSorted(run, active, OldestFirst(runs));
          active := Insert(run, active, OldestFirst(runs));
        }
        rest := rest - {run};
      }
      assert SearchActive(Value(), agent) - {} == SearchActive(Value(), agent);
    }

    method ReconcileInterruptedRuns(agent: Option<string>, now: int) returns (reconciled: seq<string>)
      requires Valid()
      modifies this`runs, this`history
      ensures Valid() && Value() == Reconcile(old(Value()), agent, now)
      ensures (set run | run in reconciled) == old(SearchActive(Value(), agent))
    {
      hide Sound, InterruptAll, CodingRuns.Transition;
      ReconcileKeeps(Value(), agent, now);
      var active := SearchActiveRuns(agent);
      OnceEach(active, SearchActive(Value(), agent));
      var read := runs;
      reconciled := [];
      NoneInterrupted(Value(), now);
      assert Value() == InterruptAll(old(Value()), (set run | run in reconciled), now);
      for i := 0 to |active|
        invariant read == old(runs)
        invariant reconciled == active[..i]
        invariant Value() == InterruptAll(old(Value()), (set run | run in reconciled), now)
      {
        var run := active[i];
        assert run in SearchActive(old(Value()), agent);
        OneMoreInterrupted(old(Value()), (set other | other in reconciled), run, now);
        var moved := Transition(run, read[run].status, Interrupted, now, read[run].startedAt,
          Some(read[run].finishedAt.GetOr(now)));
        assert moved == Ok(true);
        assert (set other | other in reconciled + [run]) == (set other | other in reconciled) + {run};
        reconciled := reconciled + [run];
      }
      assert reconciled == active;
    }

    // ---- Change sets ----

    method RecordCapture(run: string, agent: string, requestId: string, repository: string, now: int)
      returns (r: Result<ChangeSet, CaptureError>)
      requires Valid()
      modifies this`runs, this`history, this`changeSets, this`moves
      ensures Valid() && Value() == Capture(old(Value()), run, agent, requestId, repository, now)
      ensures match r
        case Err(e) => Some(e) == CaptureRefusal(old(Value()), run, agent, requestId, repository) && Value() == old(Value())
        case Ok(stored) => run in changeSets && changeSets[run] == stored && run in runs && runs[run].status.Succeeded?
    {
      hide Sound;
      CaptureKeeps(Value(), run, agent, requestId, repository, now);
      if run !in runs {
        return Err(UnknownRun);
      }
      var found := runs[run];
      if !found.status.Running? {
        return Err(NotAccepting);
      }
      if found.agent != agent || found.requestId != requestId || found.repository != repository {
        return Err(NotAuthorized);
      }
      var stored := ChangeSet(found.team, found.repository, found.agent, found.requestId, Captured, [CapturedAction]);
      changeSets := changeSets[run := stored];
      moves := moves[run := 0];
      var transitioned := Transition(run, Running, Succeeded, now, None, Some(now));
      assert transitioned == Ok(true);
      return Ok(stored);
    }

    method ReviewChangeSet(run: string) returns (r: Result<ChangeSet, DecisionError>)
      requires Valid()
      modifies this`changeSets, this`moves
      ensures Valid() && Value() == Review(old(Value()), run)
      ensures r.Ok? <==> old(run in changeSets && changeSets[run].status.Captured?)
      ensures r.Ok? ==> run in changeSets && r.value == changeSets[run]
      ensures r == Err(UnknownChangeSet) <==> run !in changeSets
    {
      MoveKeepsAudit(Value(), run, Captured, Reviewed, ReviewedAction);
      if run !in changeSets {
        return Err(UnknownChangeSet);
      }
      var moved := TransitionChangeSet(run, Captured, Reviewed, ReviewedAction);
      return if moved then Ok(changeSets[run]) else Err(NotInExpectedStatus);
    }

    method DecideChangeSet(run: string, d: Decision) returns (r: Result<ChangeSet, DecisionError>)
      requires Valid()
      modifies this`changeSets, this`moves
      ensures Valid() && Value() == Decide(old(Value()), run, d)
      ensures r.Ok? <==> old(run in changeSets && changeSets[run].status.Reviewed?)
      ensures r.Ok? ==> run in changeSets && r.value == changeSets[run]
      ensures r == Err(UnknownChangeSet) <==> run !in changeSets
      ensures r != Err(UnsupportedDecision)
    {
      MoveKeepsAudit(Value(), run, Reviewed, DecisionTarget(d).0, DecisionTarget(d).1);
      if run !in changeSets {
        return Err(UnknownChangeSet);
      }
      var moved := TransitionChangeSet(run, Reviewed, DecisionTarget(d).0, DecisionTarget(d).1);
      return if moved then Ok(changeSets[run]) else Err(NotInExpectedStatus);
    }

    method FinishWorkspaceAction(run: string, a: WorkspaceAction,
        ok: bool) returns (r: Result<ChangeSet, DecisionError>)
      requires Valid()
      modifies this`changeSets, this`moves
      ensures Valid() && Value() == CompleteWorkspaceAction(old(Value()), run, a, ok)
      ensures r.Ok? <==> old(run in changeSets && changeSets[run].status == PendingStatus(a))
      ensures r.Ok? ==> run in changeSets && r.value == changeSets[run]
    {
      WorkspaceDoneKeeps(Value(), run, a, ok);
      if run !in changeSets {
        return Err(UnknownChangeSet);
      }
      var moved;
      if !ok {
        moved := TransitionChangeSet(run, PendingStatus(a), Reviewed, WorkspaceActionFailed);
      } else if a.RetainAction? {
        moved := TransitionChangeSet(run, RetainRequested, Retained, WorkspaceRetained);
      } else {
        moved := TransitionChangeSet(run, DiscardRequested, Discarded, WorkspaceDiscarded);
      }
      return if moved then Ok(changeSets[run]) else Err(NotInExpectedStatus);
    }

    /**
     The part of a retain or discard before it waits for the agent. FinishWorkspaceAction is the part
     after it; WorkspaceDecisionEnds says what the two come to, whatever happens in between.
     */
    method StartWorkspaceDecision(run: string, d: Decision) returns (r: Result<ChangeSet, DecisionError>)
      requires Valid()
      modifies this`changeSets, this`moves
      ensures Valid() && Value() == if d.RequestPr? then old(Value()) else Decide(old(Value()), run, d)
      ensures r == Err(UnsupportedDecision) <==> d.RequestPr?
      ensures r == Err(UnknownChangeSet) <==> !d.RequestPr? && run !in changeSets
      ensures r.Ok? ==> run in changeSets && r.value == changeSets[run] && r.value.status == PendingStatus(ActionOf(d))
      ensures r.Ok? <==> !d.RequestPr? && old(CanMoveChangeSet(Value(), run, Reviewed))
    {
      hide Sound;
      if d.RequestPr? {
        return Err(UnsupportedDecision);
      }
      r := DecideChangeSet(run, d);
    }
  }

  /** Runs by the time they were created. */
  function OldestFirst(runs: map<string, CodingRun>): (string, string) -> bool {
    (a: string, b: string) => CreatedAt(runs, a) <= CreatedAt(runs, b)
  }

  function CreatedAt(runs: map<string, CodingRun>, run: string): int { if run in runs then runs[run].createdAt else 0 }

  predicate InScope(r: CodingRun, agent: Option<string>) { IsActive(r.status) && (agent.None? || r.agent == agent.value) }

  lemma NothingSearched(db: Database, agent: Option<string>)
    ensures Sorted([], OldestFirst(db.runs))
    ensures SearchActive(db, agent) - db.runs.Keys == {}
  {
  }

  lemma OneMoreSearched(db: Database, agent: Option<string>, rest: set<string>, run: string)
    requires run in rest && run in db.runs
    ensures var found, left := SearchActive(db, agent) - rest, SearchActive(db, agent) - (rest - {run});
      multiset(left) == (if InScope(db.runs[run], agent) then multiset{run} else multiset{}) + multiset(found)
  {
    var found, left := SearchActive(db, agent) - rest, SearchActive(db, agent) - (rest - {run});
    if InScope(db.runs[run], agent) {
      assert left == found + {run};
    } else {
      assert left == found;
    }
  }

  /** A list with the elements of a set, each once. */
  lemma OnceEach(list: seq<string>, elements: set<string>)
    requires multiset(list) == multiset(elements)
    ensures (set x | x in list) == elements
    ensures forall i, j :: 0 <= i < j < |list| ==> list[i] != list[j]
  {
    forall x ensures x in list <==> x in elements {
      assert x in list <==> x in multiset(list);
    }
    forall i, j | 0 <= i < j < |list| ensures list[i] != list[j] {
      Split(list, j, |list|);
      assert multiset(list) == multiset(list[..j]) + multiset(list[j..]);
      assert list[i] in list[..j] && list[j] in list[j..];
      assert multiset(elements)[list[i]] <= 1;
    }
  }

  lemma AgesArePreordered(runs: map<string, CodingRun>)
    ensures TotalPreorder(OldestFirst(runs))
  {
  }

  lemma MoveIs(db: Database, run: string, expected: ChangeSetStatus, status: ChangeSetStatus, action: AuditAction)
    ensures CanMoveChangeSet(db, run, expected) <==> run in db.changeSets && db.changeSets[run].status == expected
    ensures CanMoveChangeSet(db, run, expected) ==>
      MoveChangeSet(db, run, expected, status,
        action) == db.(changeSets := db.changeSets[run := Audited(db.changeSets[run], status, action)],
                                                              moves := Counted(db.moves, run))
    ensures !CanMoveChangeSet(db, run, expected) ==> MoveChangeSet(db, run, expected, status, action) == db
  {
  }

  lemma OnlyRunOfRequest(db: Database, run: string)
    requires Sound(db) && run in db.runs
    ensures RunOfRequest(db, db.runs[run].requestId) == {run}
  {
    hide RunsSound, AuditsSound;
  }

  lemma NoneInterrupted(db: Database, now: int)
    ensures forall none: set<string> :: none == {} ==> InterruptAll(db, none, now) == db
  {
    assert InterruptAll(db, {}, now).runs == db.runs && InterruptAll(db, {}, now).history == db.history;
  }

  lemma OneMoreInterrupted(db: Database, done: set<string>, run: string, now: int)
    requires Sound(db) && run in db.runs && IsActive(db.runs[run].status) && run !in done
    ensures var r := db.runs[run];
      InterruptAll(db, done + {run}, now)
      == CodingRuns.Transition(InterruptAll(db, done, now), run, r.status, Interrupted, now, r.startedAt,
        Some(r.finishedAt.GetOr(now)))
    ensures CanMove(InterruptAll(db, done, now), run, db.runs[run].status)
  {
    hide RunSound, RequestsUnique, AuditsSound;
    var r := db.runs[run];
    var step := CodingRuns.Transition(InterruptAll(db, done, now), run, r.status, Interrupted, now, r.startedAt,
      Some(r.finishedAt.GetOr(now)));
    assert InterruptAll(db, done + {run}, now).runs == step.runs;
    assert InterruptAll(db, done + {run}, now).history == step.history;
  }
}
