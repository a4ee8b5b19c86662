/**
 The workflow executor: a run over the steps that may skip, fail, pause for approval or succeed,
 and the retry that resumes a failed run from what its ancestors left behind. Actions and step
 conditions are oracles.
 */
module Workflows {
  import opened Wrappers
  import opened Json

  datatype Step = Step(id: string, condition: string)

  type Event = seq<Member>
  type Context = map<string, Value>

  datatype ActionOutcome = Produced(output: Value) | Paused(output: Value) | Raised(error: string)

  /** What an action does at a step, given the context it renders its templates with. */
  type Actions = (nat, Context) -> ActionOutcome

  datatype Workflow = Workflow(id: string, name: string, steps: seq<Step>, holds: (string, Event) -> bool)

  datatype ResultStatus = Succeeded | Skipped | StepFailed

  datatype StepResult = StepResult(stepId: string, status: ResultStatus, output: Value)

  datatype RunStatus = Running | Waiting | Completed | Failed

  datatype Run = Run(status: RunStatus, currentStep: nat, results: seq<StepResult>, error: Option<string>, finished: bool)

  const REJECTED: string := "Approval rejected"

  // ---- Contexts ----

  function FromMembers(members: seq<Member>): Context {
    if members == [] then map[]
    else FromMembers(members[..|members| - 1])[members[|members| - 1].key := members[|members| - 1].value]
  }

  /** The event's own fields, then the three fixed names over them. */
  function BaseContext(w: Workflow, event: Event): Context {
    FromMembers(event)["event" := Object(event)]["trigger" := Object(event)]
      ["workflow" := Object([Member("id", Str(w.id)), Member("name", Str(w.name))])]
  }

  function Absorb(context: Context, results: seq<StepResult>): Context {
    if results == [] then context
    else
      var r := results[|results| - 1];
      var before := Absorb(context, results[..|results| - 1]);
      if r.status.Succeeded? then before[r.stepId := r.output] else before
  }

  lemma {:induction false} AbsorbConcat(context: Context, a: seq<StepResult>, b: seq<StepResult>)
    ensures Absorb(context, a + b) == Absorb(Absorb(context, a), b)
  {
    if b == [] {
      assert a + b == a;
    } else {
      assert (a + b)[..|a + b| - 1] == a + b[..|b| - 1];
      AbsorbConcat(context, a, b[..|b| - 1]);
    }
  }

  /** The output the last succeeded result of a step put into the context. */
  function LastOutput(results: seq<StepResult>, id: string): Option<Value> {
    if results == [] then None
    else
      var r := results[|results| - 1];
      if r.status.Succeeded? && r.stepId == id then Some(r.output) else LastOutput(results[..|results| - 1], id)
  }

  lemma {:induction false} AbsorbedValue(context: Context, results: seq<StepResult>, id: string)
    ensures Get(Absorb(context, results), id) ==
      if LastOutput(results, id).Some? then LastOutput(results, id) else Get(context, id)
  {
    if results != [] {
      AbsorbedValue(context, results[..|results| - 1], id);
    }
  }

  lemma SameContext(a: Context, b: Context)
    requires forall id :: Get(a, id) == Get(b, id)
    ensures a == b
  {
    forall id ensures (id in a <==> id in b) && (id in a ==> a[id] == b[id]) {
      assert Get(a, id) == Get(b, id);
    }
  }

  /** No output of the dropped results is missed: each is put in again later or was in the context before. */
  ghost predicate NothingMissed(context: Context, dropped: seq<StepResult>, later: seq<StepResult>) {
    forall id :: LastOutput(dropped, id).Some? && LastOutput(later, id).None? ==> Get(context, id) == LastOutput(dropped, id)
  }

  /** When results can be left out before others without a trace in the context. */
  lemma DroppingShows(context: Context, dropped: seq<StepResult>, later: seq<StepResult>)
    ensures Absorb(context, dropped + later) == Absorb(context, later) <==> NothingMissed(context, dropped, later)
  {
    hide Absorb, LastOutput;
    AbsorbConcat(context, dropped, later);
    var all, rest := Absorb(context, dropped + later), Absorb(context, later);
    forall id
      ensures Get(all, id) == Get(rest, id) <==>
        (LastOutput(dropped, id).Some? && LastOutput(later, id).None? ==> Get(context, id) == LastOutput(dropped, id))
    {
      AbsorbedValue(Absorb(context, dropped), later, id);
      AbsorbedValue(context, dropped, id);
      AbsorbedValue(context, later, id);
    }
    if NothingMissed(context, dropped, later) {
      SameContext(all, rest);
    }
  }

  // ---- One execution ----

  /** Where an execution stopped, and the context it held there. */
  datatype Halt = Halt(run: Run, context: Context)

  function Record(run: Run, next: nat, result: StepResult): Run {
    run.(currentStep := next, results := run.results + [result])
  }

  /** One turn of the loop of `run`, which ends with a commit; the outcome is looked at when the step runs. */
  function Turn(w: Workflow, event: Event, run: Run, context: Context, outcome: ActionOutcome): Halt {
    var i := run.currentStep;
    if i >= |w.steps| then Halt(run.(status := Completed, finished := true), context)
    else
      var step := w.steps[i];
      if !w.holds(step.condition, event) then
        Halt(Record(run, i + 1, StepResult(step.id, Skipped, Object([Member("condition", Str(step.condition))]))), context)
      else
        match outcome
        case Raised(error) =>
          var failed := StepResult(step.id, StepFailed, Object([Member("error", Str(error))]));
          Halt(Record(run, i, failed).(status := Failed, error := Some(error), finished := true), context)
        case Produced(output) =>
          Halt(Record(run, i + 1, StepResult(step.id, Succeeded, output)), context[step.id := output])
        case Paused(output) =>
          Halt(Record(run, i + 1, StepResult(step.id, Succeeded, output)).(status := Waiting), context[step.id := output])
  }

  /** The whole loop of `run` from step `i`, nothing else happening to the run meanwhile. */
  function Execute(w: Workflow, event: Event, act: Actions, i: nat, context: Context, run: Run): Halt
    decreases |w.steps| - i
  {
    if i >= |w.steps| then Halt(run.(status := Completed, finished := true), context)
    else
      var step := w.steps[i];
      if !w.holds(step.condition, event) then
        var skipped := StepResult(step.id, Skipped, Object([Member("condition", Str(step.condition))]));
        Execute(w, event, act, i + 1, context, Record(run, i + 1, skipped))
      else
        match act(i, context)
        case Raised(error) =>
          var failed := StepResult(step.id, StepFailed, Object([Member("error", Str(error))]));
          Halt(Record(run, i, failed).(status := Failed, error := Some(error), finished := true), context)
        case Produced(output) =>
          Execute(w, event, act, i + 1, context[step.id := output], Record(run, i + 1, StepResult(step.id, Succeeded, output)))
        case Paused(output) =>
          Halt(Record(run, i + 1, StepResult(step.id, Succeeded, output)).(status := Waiting), context[step.id := output])
  }

  /** The loop is its turns, until one of them stops the run. */
  lemma ExecuteIsTurns(w: Workflow, event: Event, act: Actions, context: Context, run: Run)
    requires run.status.Running?
    ensures var i := run.currentStep;
      var h := Turn(w, event, run, context, act(i, context));
      && (h.run.status.Running? ==> i < |w.steps| && h.run.currentStep == i + 1)
      && Execute(w, event, act, i, context, run) ==
           if h.run.status.Running? then Execute(w, event, act, h.run.currentStep, h.context, h.run) else h
  {
  }

  predicate NonFailed(r: StepResult) { !r.status.StepFailed? }

  /** One entry per step from `start`, in order, skipped exactly when the condition does not hold. */
  ghost predicate Covers(w: Workflow, event: Event, start: nat, results: seq<StepResult>) {
    && start + |results| <= |w.steps|
    && forall k :: 0 <= k < |results| ==>
         && results[k].stepId == w.steps[start + k].id
         && NonFailed(results[k])
         && (results[k].status.Skipped? <==> !w.holds(w.steps[start + k].condition, event))
  }

  /** What a run's results say, given where it started. */
  ghost predicate WellFormed(w: Workflow, event: Event, start: nat, run: Run) {
    && start <= run.currentStep
    && (run.finished <==> run.status.Completed? || run.status.Failed?)
    && var n := run.currentStep - start;
       && n <= |run.results| <= n + 1
       && Covers(w, event, start, run.results[..n])
       && (|run.results| == n + 1 ==>
             && run.status.Failed? && run.currentStep < |w.steps|
             && run.results[n].status.StepFailed? && run.results[n].stepId == w.steps[run.currentStep].id)
       && (run.status.Completed? ==> run.currentStep >= |w.steps|)
       && (run.status.Waiting? ==> n > 0 && run.results[n - 1].status.Succeeded?)
       && (run.status.Failed? && |run.results| == n ==> n > 0 && run.error == Some(REJECTED))
  }

  /** Steps from `start` to `i` recorded, the run still going on at step `i`. */
  ghost predicate Going(w: Workflow, event: Event, start: nat, run: Run, i: nat) {
    run.status.Running? && !run.finished && run.currentStep == i ==
      start + |run.results| && Covers(w, event, start, run.results)
  }

  lemma GoingIsWellFormed(w: Workflow, event: Event, start: nat, run: Run, i: nat, stopped: Run)
    requires Going(w, event, start, run, i)
    requires || stopped == run
             || (i >= |w.steps| && stopped == run.(status := Completed, finished := true))
             || (|run.results| > 0 && run.results[|run.results| - 1].status.Succeeded? && stopped == run.(status := Waiting))
    ensures WellFormed(w, event, start, stopped)
  {
    assert run.results[..|run.results|] == run.results;
  }

  lemma RecordStep(w: Workflow, event: Event, start: nat, run: Run, i: nat, r: StepResult)
    requires Going(w, event, start, run, i) && i < |w.steps| && r.stepId == w.steps[i].id
    requires NonFailed(r) && (r.status.Skipped? <==> !w.holds(w.steps[i].condition, event))
    ensures Going(w, event, start, Record(run, i + 1, r), i + 1)
  {
  }

  lemma RecordFailure(w: Workflow, event: Event, start: nat, run: Run, i: nat, r: StepResult, error: Option<string>)
    requires Going(w, event, start, run, i) && i < |w.steps| && r.stepId == w.steps[i].id && r.status.StepFailed?
    ensures WellFormed(w, event, start, Record(run, i, r).(status := Failed, error := error, finished := true))
  {
    assert (run.results + [r])[..|run.results|] == run.results;
  }

  lemma {:induction false} ExecuteWellFormed(w: Workflow, event: Event, act: Actions, i: nat, context: Context,
      run: Run, start: nat)
    requires Going(w, event, start, run, i)
    ensures WellFormed(w, event, start, Execute(w, event, act, i, context, run).run)
    ensures !Execute(w, event, act, i, context, run).run.status.Running?
    decreases |w.steps| - i
  {
    hide WellFormed, Covers;
    if i >= |w.steps| {
      GoingIsWellFormed(w, event, start, run, i, run.(status := Completed, finished := true));
    } else {
      var step := w.steps[i];
      if !w.holds(step.condition, event) {
        var skipped := StepResult(step.id, Skipped, Object([Member("condition", Str(step.condition))]));
        RecordStep(w, event, start, run, i, skipped);
        ExecuteWellFormed(w, event, act, i + 1, context, Record(run, i + 1, skipped), start);
      } else {
        match act(i, context)
        case Raised(error) =>
          var failed := StepResult(step.id, StepFailed, Object([Member("error", Str(error))]));
          RecordFailure(w, event, start, run, i, failed, Some(error));
        case Produced(output) =>
          var done := StepResult(step.id, Succeeded, output);
          RecordStep(w, event, start, run, i, done);
          ExecuteWellFormed(w, event, act, i + 1, context[step.id := output], Record(run, i + 1, done), start);
        case Paused(output) =>
          var done := StepResult(step.id, Succeeded, output);
          RecordStep(w, event, start, run, i, done);
          GoingIsWellFormed(w, event, start, Record(run, i + 1, done), i + 1, Record(run, i + 1, done).(status := Waiting));
      }
    }
  }

  /** Every turn commits a run whose results cover its steps, whether it goes on or stops. */
  lemma TurnIsWellFormed(w: Workflow, event: Event, start: nat, run: Run, context: Context, outcome: ActionOutcome)
    requires Going(w, event, start, run, run.currentStep)
    ensures var after := Turn(w, event, run, context, outcome).run;
      WellFormed(w, event, start, after) && (after.status.Running? ==> Going(w, event, start, after, after.currentStep))
  {
    hide WellFormed, Covers;
    var i, after := run.currentStep, Turn(w, event, run, context, outcome).run;
    if i >= |w.steps| {
      GoingIsWellFormed(w, event, start, run, i, after);
    } else {
      var r := after.results[|run.results|];
      if r.status.StepFailed? {
        RecordFailure(w, event, start, run, i, r, after.error);
      } else {
        RecordStep(w, event, start, run, i, r);
        GoingIsWellFormed(w, event, start, Record(run, i + 1, r), i + 1, after);
      }
    }
  }

  /** A turn puts into the context what it records. */
  lemma TurnAbsorbs(w: Workflow, event: Event, run: Run, context: Context, outcome: ActionOutcome, base: Context,
      seen: seq<StepResult>)
    requires context == Absorb(base, seen)
    ensures var h := Turn(w, event, run, context, outcome);
      && run.results <= h.run.results && h.context == Absorb(base, seen + h.run.results[|run.results|..])
      && (h.run.status.Waiting? ==> run.status.Waiting? || |run.results| < |h.run.results|)
  {
    hide Absorb;
    var h := Turn(w, event, run, context, outcome);
    if h.run.results == run.results {
      assert seen + h.run.results[|run.results|..] == seen;
    } else {
      var r := h.run.results[|run.results|];
      assert h.run.results[|run.results|..] == [r];
      AbsorbOne(base, seen, r);
    }
  }

  lemma {:induction false} ExecuteAppends(w: Workflow, event: Event, act: Actions, i: nat, context: Context, run: Run)
    ensures run.results <= Execute(w, event, act, i, context, run).run.results
    decreases |w.steps| - i
  {
    if i < |w.steps| {
      var step := w.steps[i];
      if !w.holds(step.condition, event) {
        var skipped := StepResult(step.id, Skipped, Object([Member("condition", Str(step.condition))]));
        ExecuteAppends(w, event, act, i + 1, context, Record(run, i + 1, skipped));
      } else if act(i, context).Produced? {
        var output := act(i, context).output;
        ExecuteAppends(w, event, act, i + 1, context[step.id := output], Record(run, i + 1, StepResult(step.id,
          Succeeded, output)));
      }
    }
  }

  lemma AbsorbOne(base: Context, results: seq<StepResult>, r: StepResult)
    ensures Absorb(base, results + [r]) ==
      if r.status.Succeeded? then Absorb(base, results)[r.stepId := r.output] else Absorb(base, results)
  {
    assert (results + [r])[..|results|] == results;
  }

  /** The context held at the end is the one at the start with the added results absorbed. */
  lemma {:induction false} ExecuteAbsorbs(w: Workflow, event: Event, act: Actions, i: nat, context: Context, run: Run,
      base: Context)
    requires context == Absorb(base, run.results)
    ensures Execute(w, event, act, i, context, run).context == Absorb(base, Execute(w, event, act, i, context, run).run.results)
    decreases |w.steps| - i
  {
    hide Absorb;
    if i < |w.steps| {
      var step := w.steps[i];
      if !w.holds(step.condition, event) {
        var skipped := StepResult(step.id, Skipped, Object([Member("condition", Str(step.condition))]));
        AbsorbOne(base, run.results, skipped);
        ExecuteAbsorbs(w, event, act, i + 1, context, Record(run, i + 1, skipped), base);
      } else {
        match act(i, context)
        case Raised(error) =>
          AbsorbOne(base, run.results, StepResult(step.id, StepFailed, Object([Member("error", Str(error))])));
        case Produced(output) =>
          var done := StepResult(step.id, Succeeded, output);
          AbsorbOne(base, run.results, done);
          ExecuteAbsorbs(w, event, act, i + 1, context[step.id := output], Record(run, i + 1, done), base);
        case Paused(output) =>
          AbsorbOne(base, run.results, StepResult(step.id, Succeeded, output));
      }
    }
  }

  // ---- Actions that only ever fail or do what perfect ones would ----

  ghost predicate Perfect(out: Actions) { forall i, c :: out(i, c).Produced? }

  ghost predicate Unreliable(act: Actions, out: Actions) {
    forall i, c :: act(i, c).Raised? || act(i, c) == out(i, c)
  }

  /** The entries an execution that never fails records from step `i` on. */
  function PerfectResults(w: Workflow, event: Event, out: Actions, i: nat, context: Context): seq<StepResult>
    requires Perfect(out)
    decreases |w.steps| - i
  {
    if i >= |w.steps| then []
    else
      var step := w.steps[i];
      if !w.holds(step.condition, event) then
        [StepResult(step.id, Skipped, Object([Member("condition", Str(step.condition))]))]
        + PerfectResults(w, event, out, i + 1, context)
      else
        var output := out(i, context).output;
        [StepResult(step.id, Succeeded, output)] + PerfectResults(w, event, out, i + 1, context[step.id := output])
  }

  function NonFailedOf(results: seq<StepResult>): seq<StepResult> {
    if results == [] then []
    else NonFailedOf(results[..|results| - 1]) +
         (if NonFailed(results[|results| - 1]) then [results[|results| - 1]] else [])
  }

  lemma NonFailedOfOne(results: seq<StepResult>, r: StepResult)
    ensures NonFailedOf(results + [r]) == NonFailedOf(results) + (if NonFailed(r) then [r] else [])
  {
    assert (results + [r])[..|results|] == results;
  }

  /** What a perfect execution would still add where this one stopped. */
  function StillToDo(w: Workflow, event: Event, out: Actions, halt: Halt): seq<StepResult>
    requires Perfect(out)
  {
    PerfectResults(w, event, out, halt.run.currentStep, halt.context)
  }

  /** Failing early loses nothing: what was done plus what a perfect run does from there is all of it. */
  lemma {:induction false} FailureSplits(w: Workflow, event: Event, act: Actions, out: Actions, i: nat,
      context: Context, run: Run)
    requires Perfect(out) && Unreliable(act, out) && run.currentStep == i
    ensures var h := Execute(w, event, act, i, context, run);
      && (h.run.status.Failed? || h.run.status.Completed?)
      && NonFailedOf(h.run.results) + StillToDo(w, event, out, h)
         == NonFailedOf(run.results) + PerfectResults(w, event, out, i, context)
    decreases |w.steps| - i
  {
    hide NonFailedOf;
    if i < |w.steps| {
      var step := w.steps[i];
      if !w.holds(step.condition, event) {
        var skipped := StepResult(step.id, Skipped, Object([Member("condition", Str(step.condition))]));
        NonFailedOfOne(run.results, skipped);
        FailureSplits(w, event, act, out, i + 1, context, Record(run, i + 1, skipped));
      } else {
        assert out(i, context).Produced?;
        match act(i, context)
        case Raised(error) =>
          NonFailedOfOne(run.results, StepResult(step.id, StepFailed, Object([Member("error", Str(error))])));
        case Produced(output) =>
          var done := StepResult(step.id, Succeeded, output);
          NonFailedOfOne(run.results, done);
          FailureSplits(w, event, act, out, i + 1, context[step.id := output], Record(run, i + 1, done));
        case Paused(_) =>
      }
    }
  }
}
