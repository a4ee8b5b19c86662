/**
 Where a workflow run goes on with another context than the one it held: after an approval, and
 after a retry in a lineage that forks or was approved. Each comes with its exact condition and
 with a history in which it happens.
 */
module WorkflowExceptions {
  import opened Wrappers
  import opened Json
  import opened Sorting
  import opened Workflows
  import opened WorkflowHistory
  import opened WorkflowChains

  // ---- Approvals ----

  lemma HistoryFromEmpty(w: Workflow, ops: seq<Op>, k: nat)
    requires PossibleHistory(w, [], ops) && k < |History(w, [], ops)|
    ensures RunSound(w, History(w, [], ops)[k])
  {
    HistoryKeepsRuns(w, [], ops);
  }

  /**
   An approval resumes a waiting run in the bare context of its event. That is the context the run
   held at the pause exactly when every output in it, inherited or its own, was in the bare context
   under that name with that value.
   */
  lemma {:induction false} ApprovalForgetsOutputs(w: Workflow, ops: seq<Op>, k: nat)
    requires PossibleHistory(w, [], ops) && k < |History(w, [], ops)| && History(w, [], ops)[k].run.status.Waiting?
    ensures var r := History(w, [], ops)[k];
      && r.forgotten <= |r.run.results|
      && (Approve(w, r, true).held == r.held <==>
            forall id :: LastOutput(Seen(r), id).Some? ==> Get(BaseContext(w, r.event), id) == LastOutput(Seen(r), id))
  {
    HistoryFromEmpty(w, ops, k);
    var r := History(w, [], ops)[k];
    hide History, PossibleHistory, Absorb, BaseContext, LastOutput;
    DroppingShows(BaseContext(w, r.event), Seen(r), []);
    NothingAbsorbed(BaseContext(w, r.event));
    assert Seen(r) + [] == Seen(r);
  }

  lemma NothingAbsorbed(context: Context)
    ensures Absorb(context, []) == context && forall id :: LastOutput([], id).None?
  {
  }

  /** The approval step itself left an output: unless its name is one of the event's, the approval does forget. */
  lemma {:induction false} ApprovalStepIsForgotten(w: Workflow, ops: seq<Op>, k: nat)
    requires PossibleHistory(w, [], ops) && k < |History(w, [], ops)| && History(w, [], ops)[k].run.status.Waiting?
    requires var r := History(w, [], ops)[k];
      forall i :: 0 <= i < |w.steps| ==> w.steps[i].id !in BaseContext(w, r.event)
    ensures var r := History(w, [], ops)[k];
      && 0 < r.run.currentStep <= |w.steps| && w.steps[r.run.currentStep - 1].id in r.held
      && Approve(w, r, true).held != r.held
  {
    HistoryFromEmpty(w, ops, k);
    var r := History(w, [], ops)[k];
    hide History, PossibleHistory, Absorb, BaseContext;
    WaitingHasOutput(w, r);
    var id := w.steps[r.run.currentStep - 1].id;
    AbsorbedValue(BaseContext(w, r.event), Seen(r), id);
  }

  /** A waiting run sees the result of the step it paused at. */
  lemma WaitingHasOutput(w: Workflow, r: RunRecord)
    requires RunSound(w, r) && r.run.status.Waiting?
    ensures 0 < r.run.currentStep <= |w.steps| && LastOutput(Seen(r), w.steps[r.run.currentStep - 1].id).Some?
  {
    hide Absorb, BaseContext;
    var n, seen := |r.run.results|, Seen(r);
    assert r.run.results[..n] == r.run.results;
    assert seen[|seen| - 1] == r.run.results[n - 1];
  }

  // ---- Forks ----

  /** What a run leaves to the retries of an attempt. */
  function Leaves(r: RunRecord, upTo: nat): seq<StepResult> {
    if r.attempt <= upTo then SucceededOf(r.run.results) else []
  }

  /** The runs of a lineage, up to an attempt, that are not kept recorded no output. */
  ghost predicate OthersDidNothing(lineage: seq<RunRecord>, upTo: nat, keep: RunRecord -> bool) {
    forall r :: r in lineage && r.attempt <= upTo && !keep(r) ==> SucceededOf(r.run.results) == []
  }

  lemma InheritedGrows(rest: seq<RunRecord>, last: RunRecord, upTo: nat, keep: RunRecord -> bool)
    ensures Inherited(rest + [last], upTo) == Inherited(rest, upTo) + Leaves(last, upTo)
    ensures Inherited(Filter(rest + [last], keep), upTo) ==
      Inherited(Filter(rest, keep), upTo) + if keep(last) then Leaves(last, upTo) else []
  {
    FilterConcat(rest, [last], keep);
    FilterOne(last, keep);
    InheritedOne(rest, last, upTo);
    InheritedOne(Filter(rest, keep), last, upTo);
    assert Filter(rest, keep) + [] == Filter(rest, keep);
  }

  lemma {:induction false} KeptIsShorter(lineage: seq<RunRecord>, upTo: nat, keep: RunRecord -> bool)
    ensures |Inherited(Filter(lineage, keep), upTo)| <= |Inherited(lineage, upTo)|
    ensures |Inherited(Filter(lineage, keep), upTo)| == |Inherited(lineage, upTo)| ==> OthersDidNothing(lineage, upTo, keep)
    ensures OthersDidNothing(lineage, upTo, keep) ==> Inherited(Filter(lineage, keep), upTo) == Inherited(lineage, upTo)
  {
    if lineage == [] {
      assert Filter(lineage, keep) == [];
    } else {
      var rest, last := lineage[..|lineage| - 1], lineage[|lineage| - 1];
      hide Inherited, Filter, Leaves;
      KeptIsShorter(rest, upTo, keep);
      assert lineage == rest + [last];
      InheritedGrows(rest, last, upTo, keep);
      OthersGrow(rest, last, upTo, keep);
    }
  }

  lemma OthersGrow(rest: seq<RunRecord>, last: RunRecord, upTo: nat, keep: RunRecord -> bool)
    ensures OthersDidNothing(rest + [last], upTo, keep) <==>
      OthersDidNothing(rest, upTo, keep) && (keep(last) || Leaves(last, upTo) == [])
  {
    hide SucceededOf;
    assert forall r :: r in rest + [last] <==> r in rest || r == last;
  }

  /**
   A retry takes over the results of every attempt of the lineage up to the failed one, not only of
   its ancestors. It inherits what its ancestors alone would leave it exactly when no other of
   those attempts recorded an output.
   */
  lemma SiblingOutputsAreInherited(lineage: seq<RunRecord>, upTo: nat, keep: RunRecord -> bool)
    ensures Inherited(lineage, upTo) == Inherited(Filter(lineage, keep), upTo) <==> OthersDidNothing(lineage, upTo, keep)
  {
    KeptIsShorter(lineage, upTo, keep);
  }

  lemma InheritedOne(lineage: seq<RunRecord>, r: RunRecord, upTo: nat)
    ensures Inherited(lineage + [r], upTo) == Inherited(lineage, upTo) + Leaves(r, upTo)
  {
    assert (lineage + [r])[..|lineage|] == lineage;
  }

  // ---- Histories in which this happens ----

  lemma {:induction false} OneMoreOp(w: Workflow, store: seq<RunRecord>, ops: seq<Op>, op: Op)
    requires PossibleHistory(w, store, ops) && Possible(History(w, store, ops), op)
    ensures PossibleHistory(w, store, ops + [op])
    ensures History(w, store, ops + [op]) == Apply(w, History(w, store, ops), op)
    decreases ops
  {
    hide Possible, Apply;
    if ops == [] {
      assert ops + [op] == [op] && [op][1..] == [];
    } else {
      assert (ops + [op])[0] == ops[0] && (ops + [op])[1..] == ops[1..] + [op];
      OneMoreOp(w, Apply(w, store, ops[0]), ops[1..], op);
    }
  }

  function Always(): (string, Event) -> bool { (condition: string, event: Event) => true }

  function TwoSteps(first: string, second: string): Workflow {
    Workflow("w", "two steps", [Step(first, ""), Step(second, "")], Always())
  }

  lemma BareContext(w: Workflow)
    ensures BaseContext(w, []).Keys == {"event", "trigger", "workflow"}
  {
  }

  /** Runs of one family, numbered from one, are their own lineage. */
  lemma ListsItself(w: Workflow, runs: seq<RunRecord>)
    requires runs != [] && forall i :: 0 <= i < |runs| ==> InFamily(runs[i], w.id, runs[0].id)
    ensures ListsChain(w, runs, |runs|, runs)
  {
    hide InFamily, Filter;
    FilterAll(runs, InFamilyOf(w.id, runs[0].id));
    assert runs[..|runs|] == runs;
  }

  lemma WholeLineage(w: Workflow, runs: seq<RunRecord>)
    requires runs != [] && forall i :: 0 <= i < |runs| ==> InFamily(runs[i], w.id, runs[0].id) && runs[i].attempt == i + 1
    ensures Lineage(runs, w.id, runs[0].id) == runs && LastAttempt(runs) == |runs|
  {
    hide Lineage, LastAttempt, ListsChain, InFamily;
    ListsItself(w, runs);
    assert runs[..|runs|] == runs;
    LineageIsChain(w, runs, |runs|, runs);
    LastAttemptOfChain(runs);
  }

  lemma Succeeding(id: string, output: Value)
    ensures SucceededOf([StepResult(id, Succeeded, output)]) == [StepResult(id, Succeeded, output)]
    ensures forall r: StepResult :: !r.status.Succeeded? ==> SucceededOf([r]) == []
    ensures forall a: StepResult, b: StepResult :: a.status.Succeeded? && !b.status.Succeeded? ==> SucceededOf([a, b]) == [a]
  {
    forall a: StepResult, b: StepResult
      ensures SucceededOf([a, b]) == SucceededOf([a]) + if b.status.Succeeded? then [b] else []
    {
      assert [a, b][..1] == [a];
    }
    forall a: StepResult ensures SucceededOf([a]) == if a.status.Succeeded? then [a] else [] {
      assert [a][..0] == [];
    }
  }

  lemma AbsorbsFirst(context: Context, r: StepResult)
    requires r.status.Succeeded?
    ensures Absorb(context, [r]) == context[r.stepId := r.output]
  {
    AbsorbOne(context, [], r);
    assert [] + [r] == [r];
  }

  // ---- A fork ----

  /** A run of two steps fails at the first; its retry does the first and fails at the second. */
  lemma ForkBegins(w: Workflow, bad: ActionOutcome, good: ActionOutcome)
    returns (ops: seq<Op>, first: RunRecord, second: RunRecord)
    requires w == TwoSteps("b", "c") && bad == Raised("x") && good == Produced(Null)
    ensures PossibleHistory(w, [], ops) && History(w, [], ops) == [first, second]
    ensures IsFirst(w, first) && IsSecond(w, second)
  {
    hide Inherited, Lineage, LastAttempt, SucceededOf, Absorb, BaseContext;
    Succeeding("b", Null);
    var a := StartRun(w, "0", []);
    first := Advance(w, a, bad);
    ops := [];
    OneMoreOp(w, [], ops, Started("0", []));
    ops := ops + [Started("0", [])];
    assert History(w, [], ops) == [a];
    OneMoreOp(w, [], ops, Advanced(0, bad));
    ops := ops + [Advanced(0, bad)];
    assert History(w, [], ops) == [first];
    WholeLineage(w, [first]);
    OneMoreOp(w, [], ops, Retried(0, "1", [first]));
    ops := ops + [Retried(0, "1", [first])];
    var b := RetryFailed(w, [first], first, "1").value;
    assert History(w, [], ops) == [first, b];
    var b' := Advance(w, b, good);
    OneMoreOp(w, [], ops, Advanced(1, good));
    ops := ops + [Advanced(1, good)];
    assert History(w, [], ops) == [first, b'];
    second := Advance(w, b', bad);
    OneMoreOp(w, [], ops, Advanced(1, bad));
    ops := ops + [Advanced(1, bad)];
    assert History(w, [], ops) == [first, second];
    assert |first.run.results| == 1 && !first.run.results[0].status.Succeeded? && first.run.results == [first.run.results[0]];
    assert |second.run.results| == 2 && second.run.results[0] == StepResult("b", Succeeded, Null);
    assert second.run.results == [second.run.results[0], second.run.results[1]];
  }

  /**
   Retrying the same failed run again forks the lineage. The second branch fails at the first step,
   which it never did; retried, it is resumed there with the output of its sibling.
   */
  lemma ForkInheritsASibling() returns (w: Workflow, ops: seq<Op>)
    ensures PossibleHistory(w, [], ops) && |History(w, [], ops)| == 4
    ensures var store := History(w, [], ops);
      && IsParent(store, 0, 1) && IsParent(store, 0, 2) && IsParent(store, 2, 3)
      && store[2].run.status.Failed? && store[2].run.currentStep == store[3].start && store[3].run == NewRun(store[3].start)
      && "b" !in store[2].held && "b" in store[3].held
  {
    hide Inherited, Lineage, LastAttempt, SucceededOf, Absorb, BaseContext;
    w := TwoSteps("b", "c");
    var bad := Raised("x");
    var first, second;
    ops, first, second := ForkBegins(w, bad, Produced(Null));
    var store := [first, second];
    Branch(w, first, second);
    var third := RetryFailed(w, store, first, "2").value;
    OneMoreOp(w, [], ops, Retried(0, "2", store));
    ops := ops + [Retried(0, "2", store)];
    assert History(w, [], ops) == [first, second, third];
    var failed := Advance(w, third, bad);
    OneMoreOp(w, [], ops, Advanced(2, bad));
    ops := ops + [Advanced(2, bad)];
    assert |failed.run.results| == 1 && failed.run.results == [failed.run.results[0]];
    Succeeding("b", Null);
    store := [first, second, failed];
    assert History(w, [], ops) == store;
    SecondBranch(w, first, second, failed);
    var fourth := RetryFailed(w, store, failed, "3").value;
    OneMoreOp(w, [], ops, Retried(2, "3", store));
    ops := ops + [Retried(2, "3", store)];
    assert History(w, [], ops) == store + [fourth];
  }

  predicate IsFirst(w: Workflow, first: RunRecord) {
    && first.id == "0" && first.workflowId == w.id && first.event == [] && first.root == None && first.attempt == 1
    && first.run.status.Failed? && first.run.currentStep == 0 && SucceededOf(first.run.results) == []
  }

  predicate IsSecond(w: Workflow, second: RunRecord) {
    && second.id == "1" && second.workflowId == w.id && second.root == Some("0") && second.parent == Some("0")
    && second.attempt == 2
    && SucceededOf(second.run.results) == [StepResult("b", Succeeded, Null)]
  }

  /** The second retry of the first run takes nothing over and is the third attempt. */
  lemma Branch(w: Workflow, first: RunRecord, second: RunRecord)
    requires w == TwoSteps("b", "c") && IsFirst(w, first) && IsSecond(w, second)
    ensures RetryFailed(w, [first, second], first, "2") ==
      Ok(RunRecord("2", w.id, [], 0, Some("0"), Some("0"), 3, NewRun(0), [], 0, BaseContext(w, [])))
    ensures "b" !in BaseContext(w, [])
  {
    hide BaseContext, Lineage, LastAttempt;
    WholeLineage(w, [first, second]);
    InheritedOne([], first, 1);
    InheritedOne([first], second, 1);
    assert [] + [first] == [first] && [first] + [second] == [first, second];
    NothingAbsorbed(BaseContext(w, []));
    BareContext(w);
  }

  lemma SecondBranch(w: Workflow, first: RunRecord, second: RunRecord, failed: RunRecord)
    requires w == TwoSteps("b", "c") && IsFirst(w, first) && IsSecond(w, second)
    requires failed.id == "2" && failed.workflowId == w.id && failed.event == []
    requires failed.root == Some("0") && failed.attempt == 3
    requires failed.run.status.Failed? && failed.run.currentStep == 0 && SucceededOf(failed.run.results) == []
    ensures RetryFailed(w, [first, second, failed], failed, "3") ==
      Ok(RunRecord("3", w.id, [], 0, Some("2"), Some("0"), 4, NewRun(0), [StepResult("b", Succeeded, Null)], 0,
                   BaseContext(w, [])["b" := Null]))
  {
    hide BaseContext, Lineage, LastAttempt, Inherited, Absorb, SucceededOf;
    WholeLineage(w, [first, second, failed]);
    OnlyTheSecondLeaves(first, second, failed);
    AbsorbsFirst(BaseContext(w, []), StepResult("b", Succeeded, Null));
  }

  lemma OnlyTheSecondLeaves(first: RunRecord, second: RunRecord, third: RunRecord)
    requires first.attempt == 1 && second.attempt == 2 && third.attempt == 3
    requires SucceededOf(first.run.results) == [] && SucceededOf(third.run.results) == []
    ensures Inherited([first, second, third], 3) == SucceededOf(second.run.results)
  {
    hide SucceededOf;
    InheritedOne([], first, 3);
    InheritedOne([first], second, 3);
    InheritedOne([first, second], third, 3);
    NothingInherited();
    assert [] + [first] == [first] && [first] + [second] == [first, second];
    assert [first, second] + [third] == [first, second, third];
  }

  // ---- A retry after an approval ----

  /**
   A run pauses, is approved and fails at the next step without the output of the approval step. Its
   retry is resumed at that step with it.
   */
  lemma RetryBringsBackThePause() returns (w: Workflow, ops: seq<Op>)
    ensures PossibleHistory(w, [], ops) && |History(w, [], ops)| == 2
    ensures var store := History(w, [], ops);
      && IsParent(store, 0, 1) && store[0].run.status.Failed? && store[0].run.currentStep == store[1].start
      && store[1].run == NewRun(store[1].start)
      && "gate" !in store[0].held && "gate" in store[1].held
  {
    hide Inherited, Lineage, LastAttempt, SucceededOf, Absorb, BaseContext;
    w := TwoSteps("gate", "b");
    BareContext(w);
    Succeeding("gate", Null);
    ops := [];
    OneMoreOp(w, [], ops, Started("0", []));
    ops := ops + [Started("0", [])];
    var a := StartRun(w, "0", []);
    assert History(w, [], ops) == [a];
    var paused := Advance(w, a, Paused(Null));
    OneMoreOp(w, [], ops, Advanced(0, Paused(Null)));
    ops := ops + [Advanced(0, Paused(Null))];
    assert History(w, [], ops) == [paused];
    var resumed := Approve(w, paused, true);
    OneMoreOp(w, [], ops, Decided(0, true));
    ops := ops + [Decided(0, true)];
    assert History(w, [], ops) == [resumed];
    var failed := Advance(w, resumed, Raised("x"));
    OneMoreOp(w, [], ops, Advanced(0, Raised("x")));
    ops := ops + [Advanced(0, Raised("x"))];
    assert History(w, [], ops) == [failed];
    assert failed.run.results == [StepResult("gate", Succeeded, Null), failed.run.results[1]];
    WholeLineage(w, [failed]);
    InheritedOne([], failed, 1);
    assert [] + [failed] == [failed];
    NothingInherited();
    assert Inherited([failed], 1) == [StepResult("gate", Succeeded, Null)];
    AbsorbsFirst(BaseContext(w, []), StepResult("gate", Succeeded, Null));
    assert RebuiltContext(w, [failed], failed) == BaseContext(w, [])["gate" := Null];
    OneMoreOp(w, [], ops, Retried(0, "1", [failed]));
    ops := ops + [Retried(0, "1", [failed])];
    assert History(w, [], ops) == [failed, RetryFailed(w, [failed], failed, "1").value];
  }

  lemma NothingInherited()
    ensures forall upTo :: Inherited([], upTo) == []
  {
  }
}
