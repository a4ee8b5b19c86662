/**
 The stored runs of one workflow: starting, retrying along a lineage, and approving or rejecting a
 paused run.
 */
module WorkflowHistory {
  import opened Wrappers
  import opened Json
  import opened Sorting
  import opened Workflows

  /**
   A stored run, and beside it what the statements speak of: the results of earlier attempts put
   into its context, how many of its own the context has forgotten, and the context it holds.
   */
  datatype RunRecord = RunRecord(
    id: string, workflowId: string, event: Event, start: nat,
    parent: Option<string>, root: Option<string>, attempt: nat, run: Run,
    inherited: seq<StepResult>, forgotten: nat, held: Context)

  datatype RetryError = NotFound | NotFailed | StepGone

  predicate InFamily(r: RunRecord, workflowId: string, root: string) {
    r.workflowId == workflowId && (r.id == root || r.root == Some(root))
  }

  function InFamilyOf(workflowId: string, root: string): RunRecord -> bool { (r: RunRecord) => InFamily(r, workflowId, root) }

  function RootOf(r: RunRecord): string { r.root.GetOr(r.id) }

  function ByAttempt(): (RunRecord, RunRecord) -> bool { (a: RunRecord, b: RunRecord) => a.attempt <= b.attempt }

  /** `listed` is what the store returns, in whatever order. */
  function Lineage(listed: seq<RunRecord>, workflowId: string, root: string): seq<RunRecord> {
    SortBy(Filter(listed, InFamilyOf(workflowId, root)), ByAttempt())
  }

  function LastAttempt(lineage: seq<RunRecord>): nat {
    if lineage == [] then 1
    else if |lineage| == 1 then lineage[0].attempt
    else
      var rest := LastAttempt(lineage[..|lineage| - 1]);
      if rest < lineage[|lineage| - 1].attempt then lineage[|lineage| - 1].attempt else rest
  }

  function SucceededOf(results: seq<StepResult>): seq<StepResult> {
    if results == [] then []
    else SucceededOf(results[..|results| - 1]) +
         (if results[|results| - 1].status.Succeeded? then [results[|results| - 1]] else [])
  }

  /** The succeeded results of the lineage up to the failed attempt. */
  function Inherited(lineage: seq<RunRecord>, upTo: nat): seq<StepResult> {
    if lineage == [] then []
    else
      var last := lineage[|lineage| - 1];
      Inherited(lineage[..|lineage| - 1], upTo) + (if last.attempt <= upTo then SucceededOf(last.run.results) else [])
  }

  function NewRun(start: nat): Run { Run(Running, start, [], None, false) }

  function StartRun(w: Workflow, id: string, event: Event): RunRecord {
    RunRecord(id, w.id, event, 0, None, None, 1, NewRun(0), [], 0, BaseContext(w, event))
  }

  function RetryRefusal(w: Workflow, failed: RunRecord): Option<RetryError> {
    if failed.workflowId != w.id then Some(NotFound)
    else if !failed.run.status.Failed? then Some(NotFailed)
    else if failed.run.currentStep >= |w.steps| then Some(StepGone)
    else None
  }

  /** The context a retry of the run starts with. */
  function RebuiltContext(w: Workflow, listed: seq<RunRecord>, failed: RunRecord): Context {
    Absorb(BaseContext(w, failed.event), Inherited(Lineage(listed, w.id, RootOf(failed)), failed.attempt))
  }

  function RetryFailed(w: Workflow, listed: seq<RunRecord>, failed: RunRecord, id: string): Result<RunRecord, RetryError> {
    var refusal := RetryRefusal(w, failed);
    if refusal.Some? then Err(refusal.value) else
      var lineage := Lineage(listed, w.id, RootOf(failed));
      var start := failed.run.currentStep;
      Ok(RunRecord(id, w.id, failed.event, start, Some(failed.id), Some(RootOf(failed)), LastAttempt(lineage) + 1,
                   NewRun(start), Inherited(lineage, failed.attempt), 0, RebuiltContext(w, listed, failed)))
  }

  /** The approval resumes with the bare context of the event; a rejection stays after the approval step. */
  function Approve(w: Workflow, r: RunRecord, approved: bool): RunRecord
    requires r.run.status.Waiting?
  {
    if approved then
      r.(run := r.run.(status := Running), inherited := [], forgotten := |r.run.results|, held := BaseContext(w, r.event))
    else r.(run := r.run.(status := Failed, error := Some(REJECTED), finished := true))
  }

  /** One turn of the run's loop. */
  function Advance(w: Workflow, r: RunRecord, outcome: ActionOutcome): RunRecord {
    var h := Turn(w, r.event, r.run, r.held, outcome);
    r.(run := h.run, held := h.context)
  }

  /** All turns, until the run stops. */
  function Finish(w: Workflow, r: RunRecord, act: Actions): RunRecord {
    var h := Execute(w, r.event, act, r.run.currentStep, r.held, r.run);
    r.(run := h.run, held := h.context)
  }

  function AdvanceAll(w: Workflow, r: RunRecord, outcomes: seq<ActionOutcome>): RunRecord
    decreases outcomes
  {
    if outcomes == [] then r else AdvanceAll(w, Advance(w, r, outcomes[0]), outcomes[1..])
  }

  /** Finishing a run is advancing it, turn by turn, with what its actions do. */
  lemma {:induction false} FinishIsAdvances(w: Workflow, r: RunRecord, act: Actions) returns (outcomes: seq<ActionOutcome>)
    requires r.run.status.Running?
    ensures AdvanceAll(w, r, outcomes) == Finish(w, r, act)
    decreases |w.steps| - r.run.currentStep
  {
    hide Turn, Execute;
    var outcome := act(r.run.currentStep, r.held);
    ExecuteIsTurns(w, r.event, act, r.held, r.run);
    var next := Advance(w, r, outcome);
    if next.run.status.Running? {
      var rest := FinishIsAdvances(w, next, act);
      outcomes := [outcome] + rest;
      assert outcomes[1..] == rest;
    } else {
      outcomes := [outcome];
      assert outcomes[1..] == [];
    }
  }

  // ---- Every history ----

  datatype Op =
    | Started(id: string, event: Event)
    | Advanced(index: nat, outcome: ActionOutcome)
    | Retried(index: nat, id: string, listed: seq<RunRecord>)
    | Decided(index: nat, approved: bool)

  /**
   Run ids are new, the store lists exactly what it holds, a turn needs a running and a decision a
   waiting run. Between two turns of a run anything may happen to others.
   */
  predicate Possible(store: seq<RunRecord>, op: Op) {
    match op
    case Started(id, _) => forall r :: r in store ==> r.id != id
    case Advanced(index, _) => index < |store| && store[index].run.status.Running?
    case Retried(index, id, listed) =>
      index < |store| && multiset(listed) == multiset(store) && forall r :: r in store ==> r.id != id
    case Decided(index, _) => index < |store| && store[index].run.status.Waiting?
  }

  function Apply(w: Workflow, store: seq<RunRecord>, op: Op): seq<RunRecord>
    requires Possible(store, op)
  {
    match op
    case Started(id, event) => store + [StartRun(w, id, event)]
    case Advanced(index, outcome) => store[index := Advance(w, store[index], outcome)]
    case Retried(index, id, listed) =>
      (match RetryFailed(w, listed, store[index], id)
       case Ok(r) => store + [r]
       case Err(_) => store)
    case Decided(index, approved) => store[index := Approve(w, store[index], approved)]
  }

  predicate PossibleHistory(w: Workflow, store: seq<RunRecord>, ops: seq<Op>)
    decreases ops
  {
    ops == [] || (Possible(store, ops[0]) && PossibleHistory(w, Apply(w, store, ops[0]), ops[1..]))
  }

  function History(w: Workflow, store: seq<RunRecord>, ops: seq<Op>): seq<RunRecord>
    requires PossibleHistory(w, store, ops)
    decreases ops
  {
    if ops == [] then store else History(w, Apply(w, store, ops[0]), ops[1..])
  }

  predicate IsParent(store: seq<RunRecord>, j: nat, k: nat) {
    j < |store| && k < |store| && store[k].parent == Some(store[j].id)
  }

  /** What the run's context holds: the results of earlier attempts and its own since it last forgot. */
  function Seen(r: RunRecord): seq<StepResult>
    requires r.forgotten <= |r.run.results|
  {
    r.inherited + r.run.results[r.forgotten..]
  }

  ghost predicate RunSound(w: Workflow, r: RunRecord) {
    && WellFormed(w, r.event, r.start, r.run)
    && (r.run.status.Running? ==> Going(w, r.event, r.start, r.run, r.run.currentStep))
    && r.forgotten <= |r.run.results|
    && (r.run.status.Waiting? ==> r.forgotten < |r.run.results|)
    && r.held == Absorb(BaseContext(w, r.event), Seen(r))
  }

  ghost predicate RunsSound(w: Workflow, store: seq<RunRecord>) {
    forall k :: 0 <= k < |store| ==> RunSound(w, store[k])
  }

  /** A retry starts where its parent, failed for good, stopped. */
  ghost predicate ParentsFailed(store: seq<RunRecord>) {
    && (forall j, k :: 0 <= j < k < |store| ==> store[j].id != store[k].id)
    && (forall k :: 0 <= k < |store| && store[k].parent.Some? ==> exists j :: 0 <= j < k && IsParent(store, j, k))
    && (forall j, k :: 0 <= j < |store| && 0 <= k < |store| && IsParent(store, j, k) ==>
          j < k && store[j].run.status.Failed? && store[k].start == store[j].run.currentStep)
  }

  lemma NewRunIsSound(w: Workflow, r: RunRecord)
    requires r.run == NewRun(r.start) && r.start <= |w.steps| && r.forgotten == 0
    requires r.held == Absorb(BaseContext(w, r.event), r.inherited)
    ensures RunSound(w, r)
  {
    assert Seen(r) == r.inherited;
    assert Going(w, r.event, r.start, r.run, r.start);
  }

  lemma AdvanceIsSound(w: Workflow, r: RunRecord, outcome: ActionOutcome)
    requires RunSound(w, r) && r.run.status.Running?
    ensures RunSound(w, Advance(w, r, outcome))
  {
    hide WellFormed, Going, Absorb, Turn;
    TurnIsWellFormed(w, r.event, r.start, r.run, r.held, outcome);
    TurnAbsorbs(w, r.event, r.run, r.held, outcome, BaseContext(w, r.event), Seen(r));
    var after := Advance(w, r, outcome);
    assert Seen(after) == Seen(r) + after.run.results[|r.run.results|..];
  }

  lemma {:induction false} AdvancesAreSound(w: Workflow, r: RunRecord, act: Actions)
    requires RunSound(w, r) && r.run.status.Running?
    ensures RunSound(w, Finish(w, r, act)) && !Finish(w, r, act).run.status.Running?
    decreases |w.steps| - r.run.currentStep
  {
    hide RunSound, Turn, Execute;
    var outcome := act(r.run.currentStep, r.held);
    ExecuteIsTurns(w, r.event, act, r.held, r.run);
    AdvanceIsSound(w, r, outcome);
    if Advance(w, r, outcome).run.status.Running? {
      AdvancesAreSound(w, Advance(w, r, outcome), act);
    }
  }

  lemma {:induction false} DecisionIsSound(w: Workflow, r: RunRecord, approved: bool)
    requires RunSound(w, r) && r.run.status.Waiting?
    ensures RunSound(w, Approve(w, r, approved))
  {
    assert r.run.results[..|r.run.results|] == r.run.results;
    var after := Approve(w, r, approved);
    if approved {
      assert Seen(after) == [];
      assert Going(w, r.event, r.start, after.run, after.run.currentStep);
    } else {
      assert Seen(after) == Seen(r);
    }
  }

  lemma StepKeepsRuns(w: Workflow, store: seq<RunRecord>, op: Op)
    requires RunsSound(w, store) && Possible(store, op)
    ensures RunsSound(w, Apply(w, store, op))
  {
    hide RunSound;
    match op
    case Started(id, event) => NewRunIsSound(w, StartRun(w, id, event));
    case Advanced(index, outcome) => AdvanceIsSound(w, store[index], outcome);
    case Retried(index, id, listed) =>
      var retry := RetryFailed(w, listed, store[index], id);
      if retry.Ok? {
        NewRunIsSound(w, retry.value);
      }
    case Decided(index, approved) => DecisionIsSound(w, store[index], approved);
  }

  lemma StepKeepsParents(w: Workflow, store: seq<RunRecord>, op: Op)
    requires ParentsFailed(store) && Possible(store, op)
    ensures ParentsFailed(Apply(w, store, op))
  {
    hide Turn, Lineage, Inherited, LastAttempt, RebuiltContext;
    var after := Apply(w, store, op);
    forall k | 0 <= k < |after| && after[k].parent.Some? ensures exists j :: 0 <= j < k && IsParent(after, j, k) {
      if k < |store| {
        var j :| 0 <= j < k && IsParent(store, j, k);
        assert IsParent(after, j, k);
      } else {
        assert IsParent(after, op.index, k);
      }
    }
    forall j, k | 0 <= j < |after| && 0 <= k < |after| && IsParent(after, j, k)
      ensures j < k && after[j].run.status.Failed? && after[k].start == after[j].run.currentStep
    {
      if j < |store| && k < |store| {
        assert IsParent(store, j, k);
      }
    }
  }

  /**
   In every state of every history, those between two steps of a run included, each run's results
   cover its steps in order, and its context holds exactly what it inherited and recorded since it
   last forgot.
   */
  lemma {:induction false} HistoryKeepsRuns(w: Workflow, store: seq<RunRecord>, ops: seq<Op>)
    requires RunsSound(w, store) && ParentsFailed(store) && PossibleHistory(w, store, ops)
    ensures RunsSound(w, History(w, store, ops)) && ParentsFailed(History(w, store, ops))
    decreases ops
  {
    hide RunsSound, ParentsFailed;
    if ops != [] {
      StepKeepsRuns(w, store, ops[0]);
      StepKeepsParents(w, store, ops[0]);
      HistoryKeepsRuns(w, Apply(w, store, ops[0]), ops[1..]);
    }
  }

  // ---- Each step at most once along a chain of retries ----

  predicate Descends(store: seq<RunRecord>, j: nat, k: nat)
    decreases k
  {
    j == k || exists p :: 0 <= p < k && IsParent(store, p, k) && Descends(store, j, p)
  }

  /** The run completed or skipped this step. */
  predicate Did(r: RunRecord, step: nat) { r.start <= step < r.run.currentStep }

  lemma {:induction false} DescendantsStartLater(w: Workflow, store: seq<RunRecord>, j: nat, k: nat)
    requires RunsSound(w, store) && ParentsFailed(store) && j < k < |store| && Descends(store, j, k)
    ensures store[j].run.currentStep <= store[k].start
    decreases k
  {
    var p :| 0 <= p < k && IsParent(store, p, k) && Descends(store, j, p);
    assert RunSound(w, store[p]) && WellFormed(w, store[p].event, store[p].start, store[p].run);
    if j < p {
      DescendantsStartLater(w, store, j, p);
    } else if p < j {
      DescendantsAreLater(store, j, p);
    }
  }

  lemma {:induction false} DescendantsAreLater(store: seq<RunRecord>, j: nat, k: nat)
    requires Descends(store, j, k)
    ensures j <= k
    decreases k
  {
    if j != k {
      var p :| 0 <= p < k && IsParent(store, p, k) && Descends(store, j, p);
      DescendantsAreLater(store, j, p);
    }
  }

  lemma {:induction false} NoStepTwiceAlongAChain(w: Workflow, ops: seq<Op>, j: nat, k: nat, step: nat)
    requires PossibleHistory(w, [], ops)
    requires j < k < |History(w, [], ops)| && Descends(History(w, [], ops), j, k)
    ensures !(Did(History(w, [], ops)[j], step) && Did(History(w, [], ops)[k], step))
  {
    HistoryKeepsRuns(w, [], ops);
    DescendantsStartLater(w, History(w, [], ops), j, k);
  }
}
