/** The service: run objects updated in place, step by step, against the executions of `Workflows`. */
module WorkflowService {
  import opened Wrappers
  import opened Json
  import opened Workflows
  import H = WorkflowHistory

  class WorkflowRun {
    var status: RunStatus
    var currentStep: nat
    var results: seq<StepResult>
    var error: Option<string>
    var finished: bool

    ghost function Value(): Run
      reads this
    {
      Run(status, currentStep, results, error, finished)
    }

    constructor (value: Run)
      ensures Value() == value
    {
      status, currentStep, results, error, finished :=
        value.status, value.currentStep, value.results, value.error, value.finished;
    }

    method Snapshot() returns (r: Run)
      ensures r == Value()
    {
      r := Run(status, currentStep, results, error, finished);
    }

    method Add(next: nat, result: StepResult)
      modifies this
      ensures Value() == Record(old(Value()), next, result)
    {
      currentStep := next;
      results := results + [result];
    }
  }

  /** `run`: from `start`, with the results of earlier attempts put into the context first. */
  method Perform(w: Workflow, run: WorkflowRun, event: Event, start: nat, inherited: seq<StepResult>, act: Actions)
    returns (context: Context)
    requires run.status.Running?
    modifies run
    ensures Halt(run.Value(), context)
         == Execute(w, event, act, start, Absorb(BaseContext(w, event), inherited), old(run.Value()))
  {
    context := BaseContext(w, event);
    assert inherited[..0] == [];
    for k := 0 to |inherited|
      invariant context == Absorb(BaseContext(w, event), inherited[..k]) && run.Value() == old(run.Value())
    {
      assert inherited[..k + 1] == inherited[..k] + [inherited[k]];
      AbsorbOne(BaseContext(w, event), inherited[..k], inherited[k]);
      if inherited[k].status.Succeeded? {
        context := context[inherited[k].stepId := inherited[k].output];
      }
    }
    assert inherited[..|inherited|] == inherited;
    var index := start;
    while index < |w.steps|
      invariant run.status.Running?
      invariant Execute(w, event, act, index, context, run.Value())
             == Execute(w, event, act, start, Absorb(BaseContext(w, event), inherited), old(run.Value()))
      decreases |w.steps| - index
    {
      var step := w.steps[index];
      if !w.holds(step.condition, event) {
        run.Add(index + 1, StepResult(step.id, Skipped, Object([Member("condition", Str(step.condition))])));
      } else {
        var outcome := act(index, context);
        if outcome.Raised? {
          run.Add(index, StepResult(step.id, StepFailed, Object([Member("error", Str(outcome.error))])));
          run.status, run.error, run.finished := Failed, Some(outcome.error), true;
          return;
        }
        if outcome.Paused? {
          run.status := Waiting;
        }
        run.Add(index + 1, StepResult(step.id, Succeeded, outcome.output));
        context := context[step.id := outcome.output];
        if run.status.Waiting? {
          return;
        }
      }
      index := index + 1;
    }
    run.status, run.finished := Completed, true;
  }

  method Start(w: Workflow, id: string, event: Event, act: Actions) returns (r: H.RunRecord)
    ensures r == H.Finish(w, H.StartRun(w, id, event), act)
  {
    var run := new WorkflowRun(Run(Running, 0, [], None, false));
    var held := Perform(w, run, event, 0, [], act);
    var value := run.Snapshot();
    r := H.RunRecord(id, w.id, event, 0, None, None, 1, value, [], 0, held);
  }

  /** The succeeded results of the lineage, attempt by attempt. */
  method ContextResults(lineage: seq<H.RunRecord>, upTo: nat) returns (r: seq<StepResult>)
    ensures r == H.Inherited(lineage, upTo)
  {
    r := [];
    for k := 0 to |lineage|
      invariant r == H.Inherited(lineage[..k], upTo)
    {
      assert lineage[..k + 1][..k] == lineage[..k];
      if lineage[k].attempt <= upTo {
        var results := lineage[k].run.results;
        var before := r;
        for i := 0 to |results|
          invariant r == before + H.SucceededOf(results[..i])
        {
          assert results[..i + 1][..i] == results[..i];
          if results[i].status.Succeeded? {
            r := r + [results[i]];
          }
        }
        assert results[..|results|] == results;
      }
    }
    assert lineage[..|lineage|] == lineage;
  }

  method HighestAttempt(lineage: seq<H.RunRecord>) returns (r: nat)
    ensures r == H.LastAttempt(lineage)
  {
    if lineage == [] { return 1; }
    r := lineage[0].attempt;
    assert lineage[..1] == [lineage[0]];
    for k := 1 to |lineage|
      invariant r == H.LastAttempt(lineage[..k])
    {
      assert lineage[..k + 1][..k] == lineage[..k];
      if r < lineage[k].attempt { r := lineage[k].attempt; }
    }
    assert lineage[..|lineage|] == lineage;
  }

  method RetryFailed(w: Workflow, listed: seq<H.RunRecord>, failed: H.RunRecord, id: string, act: Actions)
    returns (r: Result<H.RunRecord, H.RetryError>)
    ensures match H.RetryFailed(w, listed, failed, id)
      case Ok(retry) => r == Ok(H.Finish(w, retry, act))
      case Err(e) => r == Err(e)
  {
    if failed.workflowId != w.id { return Err(H.NotFound); }
    if !failed.run.status.Failed? { return Err(H.NotFailed); }
    if failed.run.currentStep >= |w.steps| { return Err(H.StepGone); }
    var root := H.RootOf(failed);
    var lineage := H.Lineage(listed, w.id, root);
    var last := HighestAttempt(lineage);
    var inherited := ContextResults(lineage, failed.attempt);
    var start := failed.run.currentStep;
    var run := new WorkflowRun(Run(Running, start, [], None, false));
    var held := Perform(w, run, failed.event, start, inherited, act);
    var value := run.Snapshot();
    return Ok(H.RunRecord(id, w.id, failed.event, start, Some(failed.id), Some(root), last + 1, value, inherited, 0, held));
  }

  method Approve(w: Workflow, run: WorkflowRun, event: Event, approved: bool, act: Actions) returns (ok: bool)
    modifies run
    ensures ok == old(run.status).Waiting?
    ensures !ok ==> run.Value() == old(run.Value())
    ensures ok ==> forall r: H.RunRecord :: r.event == event && r.run == old(run.Value()) ==>
      run.Value() == if approved then H.Finish(w, H.Approve(w, r, true), act).run else H.Approve(w, r, false).run
  {
    if !run.status.Waiting? { return false; }
    if !approved {
      run.status, run.error, run.finished := Failed, Some(REJECTED), true;
      return true;
    }
    run.status := Running;
    var held := Perform(w, run, event, run.currentStep, [], act);
    return true;
  }
}
