/**
 What a run has on record: each entry is what its step did, and a failed run carries the error it
 failed with.
 */
module WorkflowEntries {
  import opened Wrappers
  import opened Json
  import opened Sorting
  import opened Workflows
  import opened WorkflowHistory

  // ---- Contexts ----

  /** The value of the last member of this name. */
  function LastMember(event: Event, name: string): Option<Value> {
    if event == [] then None
    else if event[|event| - 1].key == name then Some(event[|event| - 1].value)
    else LastMember(event[..|event| - 1], name)
  }

  /** A run begins with the fields of its event, and with the three fixed names in place of fields so called. */
  lemma {:induction false} ContextsBeginWithTheEvent(w: Workflow, event: Event, name: string)
    ensures Get(BaseContext(w, event), name) ==
      if name == "event" || name == "trigger" then Some(Object(event))
      else if name == "workflow" then Some(Object([Member("id", Str(w.id)), Member("name", Str(w.name))]))
      else LastMember(event, name)
  {
    FieldsOf(event, name);
  }

  lemma {:induction false} FieldsOf(event: Event, name: string)
    ensures Get(FromMembers(event), name) == LastMember(event, name)
  {
    if event != [] {
      FieldsOf(event[..|event| - 1], name);
    }
  }

  // ---- Entries ----

  function ErrorOutput(error: string): Value { Object([Member("error", Str(error))]) }

  /** The entry of a step: skipped with its condition, failed with the error raised, or succeeded with what it gave. */
  predicate IsEntry(w: Workflow, event: Event, i: nat, outcome: ActionOutcome, entry: StepResult)
    requires i < |w.steps|
  {
    && entry.stepId == w.steps[i].id
    && if !w.holds(w.steps[i].condition, event) then
         entry.status.Skipped? && entry.output == Object([Member("condition", Str(w.steps[i].condition))])
       else
         match outcome
         case Raised(error) => entry.status.StepFailed? && entry.output == ErrorOutput(error)
         case Produced(output) => entry.status.Succeeded? && entry.output == output
         case Paused(output) => entry.status.Succeeded? && entry.output == output
  }

  /** A turn adds the entry of its step; an error stops the run at that step, a pause behind it. */
  lemma {:induction false} TurnsRecordWhatHappened(w: Workflow, event: Event, run: Run, context: Context, outcome: ActionOutcome)
    requires run.status.Running? && run.currentStep < |w.steps|
    ensures var i, after := run.currentStep, Turn(w, event, run, context, outcome).run;
      var runs := w.holds(w.steps[i].condition, event);
      && |after.results| == |run.results| + 1 && run.results <= after.results
      && IsEntry(w, event, i, outcome, after.results[|run.results|])
      && (if runs && outcome.Raised?
          then after.status.Failed? && after.error == Some(outcome.error) && after.finished && after.currentStep == i
          else after.status == (if runs && outcome.Paused? then Waiting else Running)
               && after.error == run.error && after.finished == run.finished && after.currentStep == i + 1)
  {
  }

  /** A turn past the last step completes the run. */
  lemma {:induction false} TurnsEndTheRun(w: Workflow, event: Event, run: Run, context: Context, outcome: ActionOutcome)
    requires run.currentStep >= |w.steps|
    ensures Turn(w, event, run, context, outcome) == Halt(run.(status := Completed, finished := true), context)
  {
  }

  // ---- Every history ----

  lemma {:induction false} HistoryRunsOn(w: Workflow, store: seq<RunRecord>, ops: seq<Op>, op: Op)
    requires PossibleHistory(w, store, ops + [op])
    ensures PossibleHistory(w, store, ops) && Possible(History(w, store, ops), op)
    ensures History(w, store, ops + [op]) == Apply(w, History(w, store, ops), op)
    decreases ops
  {
    hide Possible, Apply;
    if ops == [] {
      assert ops + [op] == [op] && [op][1..] == [];
    } else {
      assert (ops + [op])[0] == ops[0] && (ops + [op])[1..] == ops[1..] + [op];
      HistoryRunsOn(w, Apply(w, store, ops[0]), ops[1..], op);
    }
  }

  /** The operation is a turn of this run, which made its entry `j`. */
  predicate Records(w: Workflow, store: seq<RunRecord>, op: Op, k: nat, j: nat, entry: StepResult) {
    && op.Advanced? && op.index == k && k < |store|
    && store[k].run.status.Running? && |store[k].run.results| == j && store[k].run.currentStep < |w.steps|
    && IsEntry(w, store[k].event, store[k].run.currentStep, op.outcome, entry)
  }

  lemma StepRecords(w: Workflow, store: seq<RunRecord>, op: Op, k: nat, j: nat)
    requires Possible(store, op) && k < |Apply(w, store, op)| && j < |Apply(w, store, op)[k].run.results|
    ensures var entry := Apply(w, store, op)[k].run.results[j];
      || Records(w, store, op, k, j, entry)
      || (k < |store| && j < |store[k].run.results| && store[k].run.results[j] == entry)
  {
    hide Turn, Lineage, Inherited, LastAttempt, RebuiltContext, IsEntry, BaseContext;
    if op.Advanced? && op.index == k {
      var r := store[k];
      if r.run.currentStep < |w.steps| {
        TurnsRecordWhatHappened(w, r.event, r.run, r.held, op.outcome);
      } else {
        TurnsEndTheRun(w, r.event, r.run, r.held, op.outcome);
      }
    }
  }

  /** Operation `i` of the history made entry `j` of run `k`. */
  predicate RecordedAt(w: Workflow, ops: seq<Op>, i: nat, k: nat, j: nat, entry: StepResult) {
    i < |ops| && PossibleHistory(w, [], ops[..i]) && Records(w, History(w, [], ops[..i]), ops[i], k, j, entry)
  }

  /** Every entry of every run is what some turn of that very run found its step to do. */
  lemma {:induction false} EntriesAreWhatHappened(w: Workflow, ops: seq<Op>, k: nat, j: nat)
    requires PossibleHistory(w, [], ops) && k < |History(w, [], ops)| && j < |History(w, [], ops)[k].run.results|
    ensures exists i: nat :: RecordedAt(w, ops, i, k, j, History(w, [], ops)[k].run.results[j])
  {
    var init, op := ops[..|ops| - 1], ops[|ops| - 1];
    assert ops == init + [op];
    HistoryRunsOn(w, [], init, op);
    var store := History(w, [], init);
    hide History, PossibleHistory, Possible, Apply, Records;
    var entry := Apply(w, store, op)[k].run.results[j];
    StepRecords(w, store, op, k, j);
    if Records(w, store, op, k, j, entry) {
      assert RecordedAt(w, ops, |init|, k, j, entry);
    } else {
      EntriesAreWhatHappened(w, init, k, j);
      var i: nat :| RecordedAt(w, init, i, k, j, entry);
      assert init[..i] == ops[..i] && init[i] == ops[i];
      assert RecordedAt(w, ops, i, k, j, entry);
    }
  }

  // ---- Errors ----

  /** A run has an error exactly when it failed: the one its last entry failed with, or the rejection. */
  predicate ErrorFits(run: Run) {
    var n := |run.results|;
    && (run.error.Some? <==> run.status.Failed?)
    && (run.status.Failed? ==>
          if n > 0 && run.results[n - 1].status.StepFailed?
          then run.results[n - 1].output == ErrorOutput(run.error.value)
          else run.error == Some("Approval rejected"))
    && (run.status.Running? || run.status.Waiting? ==> n > 0 ==> !run.results[n - 1].status.StepFailed?)
  }

  lemma StepKeepsErrors(w: Workflow, store: seq<RunRecord>, op: Op, k: nat)
    requires Possible(store, op) && k < |Apply(w, store, op)| && (k < |store| ==> ErrorFits(store[k].run))
    ensures ErrorFits(Apply(w, store, op)[k].run)
  {
    hide Turn, Lineage, Inherited, LastAttempt, RebuiltContext, BaseContext;
    if op.Advanced? && op.index == k {
      var r := store[k];
      if r.run.currentStep < |w.steps| {
        TurnsRecordWhatHappened(w, r.event, r.run, r.held, op.outcome);
      } else {
        TurnsEndTheRun(w, r.event, r.run, r.held, op.outcome);
      }
    }
  }

  /** In every history a failed run carries the text its last step failed with, or the rejection; no other run has an error. */
  lemma {:induction false} ErrorsAreExplained(w: Workflow, ops: seq<Op>, k: nat)
    requires PossibleHistory(w, [], ops) && k < |History(w, [], ops)|
    ensures ErrorFits(History(w, [], ops)[k].run)
  {
    var init, op := ops[..|ops| - 1], ops[|ops| - 1];
    assert ops == init + [op];
    HistoryRunsOn(w, [], init, op);
    hide History, PossibleHistory, Possible, Apply, ErrorFits;
    if k < |History(w, [], init)| {
      ErrorsAreExplained(w, init, k);
    }
    StepKeepsErrors(w, History(w, [], init), op, k);
  }

  // ---- Starts, retries and decisions ----

  /** A run that has done nothing yet and is to work from this step on. */
  predicate IsNew(r: RunRecord, w: Workflow, id: string, event: Event, start: nat) {
    && r.id == id && r.workflowId == w.id && r.event == event && r.start == start
    && r.run.status.Running? && r.run.currentStep == start && r.run.results == [] && r.run.error == None && !r.run.finished
  }

  /** The attempts at the same root. */
  predicate SameRoot(a: RunRecord, b: RunRecord) {
    a.workflowId == b.workflowId && (a.id == b.root.GetOr(b.id) || a.root == Some(b.root.GetOr(b.id)))
  }

  /** A start adds a first attempt without ancestors. */
  lemma {:induction false} StartsAreFirstAttempts(w: Workflow, store: seq<RunRecord>, id: string, event: Event)
    requires Possible(store, Started(id, event))
    ensures var after := Apply(w, store, Started(id, event));
      && |after| == |store| + 1 && after[..|store|] == store
      && var r := after[|store|];
         IsNew(r, w, id, event, 0) && r.attempt == 1 && r.parent == None && r.root == None && r.held == BaseContext(w, event)
  {
  }

  /**
   A retry of a failed run, while its step is still there, adds one more attempt at the same root: with
   its event, from the step that failed, numbered one above the highest attempt. Any other is refused.
   */
  lemma {:induction false} RetriesContinueTheLineage(w: Workflow, store: seq<RunRecord>, index: nat, id: string, listed: seq<RunRecord>)
    requires Possible(store, Retried(index, id, listed))
    ensures var failed, after := store[index], Apply(w, store, Retried(index, id, listed));
      if failed.workflowId == w.id && failed.run.status.Failed? && failed.run.currentStep < |w.steps| then
        && |after| == |store| + 1 && after[..|store|] == store
        && var r := after[|store|];
           && IsNew(r, w, id, failed.event, failed.run.currentStep)
           && r.parent == Some(failed.id) && r.root == Some(failed.root.GetOr(failed.id))
           && (forall other :: other in store && SameRoot(other, failed) ==> other.attempt < r.attempt)
           && (exists other :: other in store && SameRoot(other, failed) && other.attempt + 1 == r.attempt)
      else after == store
  {
    var failed := store[index];
    hide Inherited, RebuiltContext, LastAttempt, Lineage;
    if failed.workflowId == w.id {
      NumberedAbove(w, store, listed, failed);
    }
  }

  lemma NumberedAbove(w: Workflow, store: seq<RunRecord>, listed: seq<RunRecord>, failed: RunRecord)
    requires multiset(listed) == multiset(store) && failed in store && failed.workflowId == w.id
    ensures var last := LastAttempt(Lineage(listed, w.id, RootOf(failed)));
      && (forall other :: other in store && SameRoot(other, failed) ==> other.attempt <= last)
      && (exists other :: other in store && SameRoot(other, failed) && other.attempt == last)
  {
    hide LastAttempt, SortBy, Filter;
    var family := Filter(listed, InFamilyOf(w.id, RootOf(failed)));
    var lineage := Lineage(listed, w.id, RootOf(failed));
    forall other ensures other in lineage <==> other in store && SameRoot(other, failed) {
      SameElements(lineage, family, other);
      SameElements(listed, store, other);
    }
    assert failed in lineage;
    HighestAttempt(lineage);
  }

  lemma {:induction false} HighestAttempt(lineage: seq<RunRecord>)
    requires lineage != []
    ensures forall r :: r in lineage ==> r.attempt <= LastAttempt(lineage)
    ensures exists r :: r in lineage && r.attempt == LastAttempt(lineage)
  {
    var rest, last := lineage[..|lineage| - 1], lineage[|lineage| - 1];
    assert lineage == rest + [last];
    if rest != [] {
      HighestAttempt(rest);
    }
  }

  /** An approval lets a paused run go on behind its approval step, a rejection fails it there; no other run is touched. */
  lemma {:induction false} DecisionsResumeOrFail(w: Workflow, store: seq<RunRecord>, index: nat, approved: bool)
    requires Possible(store, Decided(index, approved))
    ensures var before, after := store[index].run, Apply(w, store, Decided(index, approved));
      && |after| == |store| && (forall k :: 0 <= k < |store| && k != index ==> after[k] == store[k])
      && var r := after[index];
         && r.run.currentStep == before.currentStep && r.run.results == before.results
         && (if approved then r.run.status.Running? && r.run.error == before.error && r.run.finished == before.finished
             else r.run.status.Failed? && r.run.error == Some("Approval rejected") && r.run.finished)
         && r == store[index].(run := r.run, inherited := r.inherited, forgotten := r.forgotten, held := r.held)
  {
  }
}
