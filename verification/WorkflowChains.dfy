/**
 What a retry puts back into the context of a workflow run: along a chain of attempts each retried
 from the last, across approvals, and in a lineage that forks.
 */
module WorkflowChains {
  import opened Wrappers
  import opened Json
  import opened Sorting
  import opened Workflows
  import opened WorkflowHistory

  // ---- Chains of attempts ----

  /** How an attempt went: what its actions did, then after each approval, and what the store listed before it. */
  datatype Life = Life(act: Actions, approvals: seq<Actions>, listed: seq<RunRecord>)

  /** The run after its approvals, as long as it waits for one. */
  function Lived(w: Workflow, r: RunRecord, approvals: seq<Actions>): RunRecord
    decreases approvals
  {
    if approvals == [] || !r.run.status.Waiting? then r
    else Lived(w, Finish(w, Approve(w, r, true), approvals[0]), approvals[1..])
  }

  /** Attempts of one run, each retried from the last, whatever the store lists besides. */
  ghost predicate LinearChain(w: Workflow, event: Event, chain: seq<RunRecord>, lives: seq<Life>) {
    && |chain| == |lives| > 0
    && chain[0] == Lived(w, Finish(w, StartRun(w, chain[0].id, event), lives[0].act), lives[0].approvals)
    && forall k :: 0 < k < |chain| ==> NextInChain(w, chain, k, lives[k])
  }

  ghost predicate NextInChain(w: Workflow, chain: seq<RunRecord>, k: nat, life: Life)
    requires 0 < k < |chain|
  {
    && ListsChain(w, chain, k, life.listed)
    && var born := RetryFailed(w, life.listed, chain[k - 1], chain[k].id);
       born.Ok? && chain[k] == Lived(w, Finish(w, born.value, life.act), life.approvals)
  }

  ghost predicate ListsChain(w: Workflow, chain: seq<RunRecord>, k: nat, listed: seq<RunRecord>)
    requires 0 < k <= |chain|
  {
    multiset(Filter(listed, InFamilyOf(w.id, chain[0].id))) == multiset(chain[..k])
  }

  lemma ChainShape(w: Workflow, event: Event, chain: seq<RunRecord>, lives: seq<Life>)
    requires LinearChain(w, event, chain, lives)
    ensures |chain| == |lives| > 0
    ensures forall k :: 0 < k < |chain| ==> ListsChain(w, chain, k, lives[k].listed)
  {
    forall k | 0 < k < |chain| ensures ListsChain(w, chain, k, lives[k].listed) {
      assert NextInChain(w, chain, k, lives[k]);
    }
  }

  /** What stays of a run while it is worked off. */
  predicate SameRun(a: RunRecord, b: RunRecord) {
    a.id == b.id && a.workflowId == b.workflowId && a.event == b.event && a.start == b.start
    && a.parent == b.parent && a.root == b.root && a.attempt == b.attempt
  }

  /** A run that lived on is the one it was, and has not forgotten unless it was approved. */
  lemma {:induction false} LivedKeeps(w: Workflow, r: RunRecord, approvals: seq<Actions>)
    requires RunSound(w, r) && !r.run.status.Running?
    ensures var after := Lived(w, r, approvals);
      && SameRun(r, after) && RunSound(w, after) && !after.run.status.Running?
      && (after == r || (after.forgotten > 0 && after.inherited == []))
      && (r.forgotten > 0 && r.inherited == [] ==> after.forgotten > 0 && after.inherited == [])
    decreases approvals
  {
    if approvals != [] && r.run.status.Waiting? {
      var resumed := Approve(w, r, true);
      DecisionIsSound(w, r, true);
      assert resumed.forgotten > 0;
      AdvancesAreSound(w, resumed, approvals[0]);
      hide RunSound, WellFormed, Execute;
      LivedKeeps(w, Finish(w, resumed, approvals[0]), approvals[1..]);
    }
  }

  /** The run of attempt `k` when it was stored. */
  function Born(w: Workflow, event: Event, chain: seq<RunRecord>, lives: seq<Life>, k: nat): RunRecord
    requires k < |chain| == |lives|
  {
    if k == 0 then StartRun(w, chain[0].id, event)
    else
      var born := RetryFailed(w, lives[k].listed, chain[k - 1], chain[k].id);
      if born.Ok? then born.value else StartRun(w, chain[k].id, event)
  }

  lemma AttemptIsLived(w: Workflow, event: Event, chain: seq<RunRecord>, lives: seq<Life>, k: nat)
    requires LinearChain(w, event, chain, lives) && k < |chain|
    ensures var born := Born(w, event, chain, lives, k);
      && chain[k] == Lived(w, Finish(w, born, lives[k].act), lives[k].approvals)
      && born.run == NewRun(born.start) && born.start <= |w.steps| && born.forgotten == 0
      && born.held == Absorb(BaseContext(w, born.event), born.inherited)
      && (k > 0 ==> NextInChain(w, chain, k, lives[k]) && born.start == chain[k - 1].run.currentStep
                    && RootOf(born) == RootOf(chain[k - 1]) && born.event == chain[k - 1].event)
      && (k > 0 ==> var lineage := Lineage(lives[k].listed, w.id, RootOf(chain[k - 1]));
            born.attempt == LastAttempt(lineage) + 1 && born.inherited == Inherited(lineage, chain[k - 1].attempt))
  {
    hide Execute, Inherited, Lineage, LastAttempt, Lived;
    if k > 0 {
      assert NextInChain(w, chain, k, lives[k]);
    }
  }

  lemma AttemptIsSound(w: Workflow, event: Event, chain: seq<RunRecord>, lives: seq<Life>, k: nat)
    requires LinearChain(w, event, chain, lives) && k < |chain|
    ensures var born := Born(w, event, chain, lives, k);
      && SameRun(born, chain[k]) && RunSound(w, chain[k])
      && (chain[k] == Finish(w, born, lives[k].act) || (chain[k].forgotten > 0 && chain[k].inherited == []))
  {
    hide Execute, LinearChain, RunSound, Lived, Born;
    ChainShape(w, event, chain, lives);
    var born := Born(w, event, chain, lives, k);
    AttemptIsLived(w, event, chain, lives, k);
    NewRunIsSound(w, born);
    AdvancesAreSound(w, born, lives[k].act);
    LivedKeeps(w, Finish(w, born, lives[k].act), lives[k].approvals);
  }

  lemma {:induction false} LastAttemptOfChain(chain: seq<RunRecord>)
    requires chain != [] && forall i :: 0 <= i < |chain| ==> chain[i].attempt == i + 1
    ensures LastAttempt(chain) == |chain|
  {
    if |chain| > 1 {
      LastAttemptOfChain(chain[..|chain| - 1]);
    }
  }

  lemma {:induction false} LineageIsChain(w: Workflow, chain: seq<RunRecord>, k: nat, listed: seq<RunRecord>)
    requires 0 < k <= |chain| && ListsChain(w, chain, k, listed)
    requires forall i :: 0 <= i < k ==> chain[i].attempt == i + 1
    ensures Lineage(listed, w.id, chain[0].id) == chain[..k]
  {
    SortRestores(Filter(listed, InFamilyOf(w.id, chain[0].id)), chain[..k], ByAttempt());
  }

  lemma {:induction false} ChainAttempts(w: Workflow, event: Event, chain: seq<RunRecord>, lives: seq<Life>, k: nat)
    requires LinearChain(w, event, chain, lives) && k < |chain|
    ensures forall i :: 0 <= i <= k ==> chain[i].attempt == i + 1 && RootOf(chain[i]) == chain[0].id && chain[i].event == event
    decreases k
  {
    hide LinearChain, NextInChain, ListsChain, RunSound, Lived, Execute, Inherited, Lineage, RetryFailed, LastAttempt;
    ChainShape(w, event, chain, lives);
    AttemptIsLived(w, event, chain, lives, k);
    AttemptIsSound(w, event, chain, lives, k);
    if k > 0 {
      ChainAttempts(w, event, chain, lives, k - 1);
      LineageIsChain(w, chain, k, lives[k].listed);
      LastAttemptOfChain(chain[..k]);
    }
  }

  /** An attempt inherits the succeeded results of all attempts before it. */
  lemma BornInherits(w: Workflow, event: Event, chain: seq<RunRecord>, lives: seq<Life>, k: nat)
    requires LinearChain(w, event, chain, lives) && k < |chain|
    ensures Born(w, event, chain, lives, k).inherited == Inherited(chain[..k], k)
  {
    hide LinearChain, NextInChain, ListsChain, Lived, Finish, Absorb, Lineage, RetryFailed, LastAttempt;
    ChainShape(w, event, chain, lives);
    if k > 0 {
      AttemptIsLived(w, event, chain, lives, k);
      ChainAttempts(w, event, chain, lives, k - 1);
      LineageIsChain(w, chain, k, lives[k].listed);
    } else {
      assert chain[..0] == [];
    }
  }

  // ---- What a retry rebuilds ----

  lemma {:induction false} AbsorbSucceeded(context: Context, results: seq<StepResult>)
    ensures Absorb(context, SucceededOf(results)) == Absorb(context, results)
  {
    if results != [] {
      var init, last := results[..|results| - 1], results[|results| - 1];
      AbsorbSucceeded(context, init);
      if last.status.Succeeded? {
        AbsorbOne(context, SucceededOf(init), last);
      } else {
        assert SucceededOf(results) == SucceededOf(init);
      }
    }
  }

  lemma {:induction false} InheritedAll(chain: seq<RunRecord>, upTo: nat)
    requires chain != [] && forall i :: 0 <= i < |chain| ==> chain[i].attempt == i + 1
    requires |chain| <= upTo
    ensures Inherited(chain, upTo) == Inherited(chain[..|chain| - 1], |chain| - 1) + SucceededOf(chain[|chain| - 1].run.results)
  {
    InheritedBeyond(chain[..|chain| - 1], upTo, |chain| - 1);
  }

  lemma {:induction false} InheritedBeyond(chain: seq<RunRecord>, a: nat, b: nat)
    requires forall i :: 0 <= i < |chain| ==> chain[i].attempt <= a && chain[i].attempt <= b
    ensures Inherited(chain, a) == Inherited(chain, b)
  {
    if chain != [] {
      InheritedBeyond(chain[..|chain| - 1], a, b);
    }
  }

  /** The results an approval of the chain's last attempt made it forget: what it had inherited and recorded before. */
  function Dropped(chain: seq<RunRecord>): seq<StepResult>
    requires chain != [] && chain[|chain| - 1].forgotten <= |chain[|chain| - 1].run.results|
  {
    var n, last := |chain| - 1, chain[|chain| - 1];
    if last.forgotten == 0 then [] else Inherited(chain[..n], n) + last.run.results[..last.forgotten]
  }

  lemma DroppedAndSeen(w: Workflow, event: Event, chain: seq<RunRecord>, lives: seq<Life>)
    requires LinearChain(w, event, chain, lives)
    ensures var n, last := |chain| - 1, chain[|chain| - 1];
      && last.forgotten <= |last.run.results|
      && Dropped(chain) + Seen(last) == Inherited(chain[..n], n) + last.run.results
  {
    hide LinearChain, Lived, Inherited, Absorb, Born, Execute, WellFormed;
    ChainShape(w, event, chain, lives);
    var n, last := |chain| - 1, chain[|chain| - 1];
    AttemptIsLived(w, event, chain, lives, n);
    AttemptIsSound(w, event, chain, lives, n);
    BornInherits(w, event, chain, lives, n);
    if last.forgotten == 0 {
      assert last.run.results[0..] == last.run.results;
    } else {
      assert last.run.results[..last.forgotten] + last.run.results[last.forgotten..] == last.run.results;
    }
  }

  lemma RebuiltOfChain(w: Workflow, event: Event, chain: seq<RunRecord>, lives: seq<Life>, listed: seq<RunRecord>)
    requires LinearChain(w, event, chain, lives) && ListsChain(w, chain, |chain|, listed)
    ensures var n, last := |chain| - 1, chain[|chain| - 1];
      RebuiltContext(w, listed, last) == Absorb(BaseContext(w, event), Inherited(chain[..n], n) + last.run.results)
  {
    var n, last := |chain| - 1, chain[|chain| - 1];
    var base := BaseContext(w, event);
    ChainAttempts(w, event, chain, lives, n);
    assert chain[..|chain|] == chain;
    LineageIsChain(w, chain, |chain|, listed);
    InheritedAll(chain, n + 1);
    hide LinearChain, Inherited, Absorb, BaseContext;
    AbsorbConcat(base, Inherited(chain[..n], n), SucceededOf(last.run.results));
    AbsorbConcat(base, Inherited(chain[..n], n), last.run.results);
    AbsorbSucceeded(Absorb(base, Inherited(chain[..n], n)), last.run.results);
  }

  /**
   When the context a retry of the chain's last attempt rebuilds is the one that attempt held where
   it stopped: exactly when every output an approval made it forget was recorded again later or was
   in the event's own context with that value. An attempt that was never approved forgot nothing.
   */
  lemma {:induction false} RetryRebuildsContext(w: Workflow, event: Event, chain: seq<RunRecord>, lives: seq<Life>,
      listed: seq<RunRecord>)
    requires LinearChain(w, event, chain, lives) && ListsChain(w, chain, |chain|, listed)
    ensures var last := chain[|chain| - 1];
      && last.forgotten <= |last.run.results|
      && (RebuiltContext(w, listed, last) == last.held <==> NothingMissed(BaseContext(w, event), Dropped(chain), Seen(last)))
      && (last.forgotten == 0 ==> RebuiltContext(w, listed, last) == last.held)
  {
    var last := chain[|chain| - 1];
    ChainAttempts(w, event, chain, lives, |chain| - 1);
    AttemptIsSound(w, event, chain, lives, |chain| - 1);
    assert last.held == Absorb(BaseContext(w, event), Seen(last));
    hide LinearChain, ListsChain, RunSound, Absorb, BaseContext, RebuiltContext;
    DroppedAndSeen(w, event, chain, lives);
    RebuiltOfChain(w, event, chain, lives, listed);
    DroppingShows(BaseContext(w, event), Dropped(chain), Seen(last));
    assert last.forgotten == 0 ==> Dropped(chain) + Seen(last) == Seen(last);
  }

  // ---- Failing and retrying equals never failing ----

  /** The steps a chain completed or skipped, attempt after attempt. */
  function DoneBy(chain: seq<RunRecord>): seq<StepResult> {
    if chain == [] then [] else DoneBy(chain[..|chain| - 1]) + NonFailedOf(chain[|chain| - 1].run.results)
  }

  lemma DoneByOneMore(chain: seq<RunRecord>, k: nat)
    requires 0 < k <= |chain|
    ensures DoneBy(chain[..k]) == DoneBy(chain[..k - 1]) + NonFailedOf(chain[k - 1].run.results)
    ensures DoneBy(chain[..0]) == []
  {
    assert chain[..k][..k - 1] == chain[..k - 1];
  }

  ghost predicate AllUnreliable(lives: seq<Life>, out: Actions) {
    forall k :: 0 <= k < |lives| ==> Unreliable(lives[k].act, out)
  }

  /** What a perfect execution still adds where the attempt stopped. */
  function LeftOf(w: Workflow, out: Actions, r: RunRecord): seq<StepResult>
    requires Perfect(out)
  {
    PerfectResults(w, r.event, out, r.run.currentStep, r.held)
  }

  /** An attempt with such actions never pauses, and splits what was left to do when it was stored. */
  lemma AttemptSplits(w: Workflow, event: Event, chain: seq<RunRecord>, lives: seq<Life>, out: Actions, k: nat)
    requires LinearChain(w, event, chain, lives) && Perfect(out) && AllUnreliable(lives, out) && k < |chain|
    ensures var born := Born(w, event, chain, lives, k);
      && chain[k] == Finish(w, born, lives[k].act)
      && NonFailedOf(chain[k].run.results) + LeftOf(w, out, chain[k]) == LeftOf(w, out, born)
  {
    var born := Born(w, event, chain, lives, k);
    AttemptIsLived(w, event, chain, lives, k);
    FailureSplits(w, born.event, lives[k].act, out, born.start, born.held, born.run);
    hide Execute, PerfectResults;
    assert NonFailedOf([]) == [];
    assert [] + LeftOf(w, out, born) == LeftOf(w, out, born);
  }

  lemma NextInPrefix(w: Workflow, chain: seq<RunRecord>, k: nat, i: nat, life: Life)
    requires 0 < i < k <= |chain| && NextInChain(w, chain, i, life)
    ensures NextInChain(w, chain[..k], i, life)
  {
    hide Lived, Finish, RetryFailed, Filter, InFamilyOf;
    assert chain[..k][..i] == chain[..i];
  }

  lemma PrefixIsChain(w: Workflow, event: Event, chain: seq<RunRecord>, lives: seq<Life>, k: nat)
    requires LinearChain(w, event, chain, lives) && 0 < k < |chain|
    ensures LinearChain(w, event, chain[..k], lives[..k])
  {
    hide NextInChain, Lived, Finish, StartRun;
    forall i | 0 < i < k ensures NextInChain(w, chain[..k], i, lives[..k][i]) {
      NextInPrefix(w, chain, k, i, lives[i]);
    }
  }

  lemma PrefixIsListed(w: Workflow, chain: seq<RunRecord>, k: nat, listed: seq<RunRecord>)
    requires 0 < k <= |chain| && ListsChain(w, chain, k, listed)
    ensures ListsChain(w, chain[..k], k, listed)
  {
    hide Filter, InFamilyOf;
    assert chain[..k][..k] == chain[..k];
  }

  /** With such actions an attempt is never approved, so it has forgotten nothing. */
  lemma NeverForgets(w: Workflow, event: Event, chain: seq<RunRecord>, lives: seq<Life>, out: Actions, k: nat)
    requires LinearChain(w, event, chain, lives) && Perfect(out) && AllUnreliable(lives, out) && k < |chain|
    ensures chain[k].forgotten == 0
  {
    hide LinearChain, NextInChain, Lived, Born, Perfect, AllUnreliable, LeftOf, Execute, RetryFailed, Inherited, Absorb, Lineage;
    ChainShape(w, event, chain, lives);
    AttemptSplits(w, event, chain, lives, out, k);
    AttemptIsLived(w, event, chain, lives, k);
  }

  /** A retry is stored with the context rebuilt from the store, at the step its parent stopped. */
  lemma BornRebuilt(w: Workflow, event: Event, chain: seq<RunRecord>, lives: seq<Life>, k: nat)
    requires LinearChain(w, event, chain, lives) && 0 < k < |chain|
    ensures var born := Born(w, event, chain, lives, k);
      && born.held == RebuiltContext(w, lives[k].listed, chain[k - 1])
      && born.event == chain[k - 1].event && born.run.currentStep == chain[k - 1].run.currentStep
  {
    hide LinearChain, ListsChain, Lived, Finish, RebuiltContext, Inherited, Lineage, LastAttempt, RetryRefusal;
    AttemptIsLived(w, event, chain, lives, k);
  }

  /** So the retry holds what its parent held, and what is left to it is what was left to its parent. */
  lemma BornWhereTheLastStopped(w: Workflow, event: Event, chain: seq<RunRecord>, lives: seq<Life>, out: Actions, k: nat)
    requires LinearChain(w, event, chain, lives) && Perfect(out) && AllUnreliable(lives, out) && 0 < k < |chain|
    ensures LeftOf(w, out, Born(w, event, chain, lives, k)) == LeftOf(w, out, chain[k - 1])
  {
    hide LinearChain, ListsChain, Lived, Born, Perfect, AllUnreliable, PerfectResults, RebuiltContext, NothingMissed,
      Dropped, Seen;
    ChainShape(w, event, chain, lives);
    BornRebuilt(w, event, chain, lives, k);
    NeverForgets(w, event, chain, lives, out, k - 1);
    PrefixIsChain(w, event, chain, lives, k);
    PrefixIsListed(w, chain, k, lives[k].listed);
    RetryRebuildsContext(w, event, chain[..k], lives[..k], lives[k].listed);
  }

  lemma {:induction false} ChainSplits(w: Workflow, event: Event, chain: seq<RunRecord>, lives: seq<Life>, out: Actions, k: nat)
    requires LinearChain(w, event, chain, lives) && Perfect(out) && AllUnreliable(lives, out) && k < |chain|
    ensures DoneBy(chain[..k + 1]) + LeftOf(w, out, chain[k]) == LeftOf(w, out, StartRun(w, chain[0].id, event))
    decreases k
  {
    hide LinearChain, LeftOf, Finish, NonFailedOf;
    AttemptSplits(w, event, chain, lives, out, k);
    DoneByOneMore(chain, k + 1);
    var before, done, rest := DoneBy(chain[..k]), NonFailedOf(chain[k].run.results), LeftOf(w, out, chain[k]);
    assert (before + done) + rest == before + (done + rest);
    if k > 0 {
      ChainSplits(w, event, chain, lives, out, k - 1);
      BornWhereTheLastStopped(w, event, chain, lives, out, k);
    } else {
      assert before == [];
    }
  }

  lemma CompletedLeavesNothing(w: Workflow, out: Actions, r: RunRecord)
    requires Perfect(out) && RunSound(w, r) && r.run.status.Completed?
    ensures LeftOf(w, out, r) == []
  {
  }

  lemma PerfectRun(w: Workflow, event: Event, id: string, out: Actions)
    requires Perfect(out)
    ensures Finish(w, StartRun(w, id, event), out).run.results == LeftOf(w, out, StartRun(w, id, event))
  {
    PerfectExecution(w, event, out, 0, BaseContext(w, event), NewRun(0));
  }

  /**
   With actions that either fail or do what deterministic ones do, a run that failed and was
   retried to completion recorded the results of an execution that never failed.
   */
  lemma {:induction false} RetriesEqualNeverFailing(w: Workflow, event: Event, chain: seq<RunRecord>, lives: seq<Life>,
      out: Actions)
    requires LinearChain(w, event, chain, lives) && Perfect(out) && AllUnreliable(lives, out)
    requires chain[|chain| - 1].run.status.Completed?
    ensures DoneBy(chain) == Finish(w, StartRun(w, chain[0].id, event), out).run.results
  {
    hide LinearChain, LeftOf, Finish, RunSound, DoneBy;
    ChainShape(w, event, chain, lives);
    ChainSplits(w, event, chain, lives, out, |chain| - 1);
    AttemptIsSound(w, event, chain, lives, |chain| - 1);
    CompletedLeavesNothing(w, out, chain[|chain| - 1]);
    PerfectRun(w, event, chain[0].id, out);
    WholeChain(chain);
  }

  /** Such chains exist: one step that is raised at first and then succeeds, as it does when it never fails. */
  lemma SomeChainCompletes() returns (w: Workflow, chain: seq<RunRecord>, lives: seq<Life>, out: Actions)
    ensures LinearChain(w, [], chain, lives) && Perfect(out) && AllUnreliable(lives, out)
    ensures |chain| == 2 && chain[0].run.status.Failed? && chain[1].run.status.Completed?
  {
    out := (i: nat, c: Context) => Produced(Null);
    var bad: Actions := (i: nat, c: Context) => Raised("x");
    w := Workflow("w", "one step", [Step("a", "")], (condition: string, event: Event) => true);
    var first := Finish(w, StartRun(w, "0", []), bad);
    var born := RetryFailed(w, [first], first, "1").value;
    var second := Finish(w, born, out);
    chain, lives := [first, second], [Life(bad, [], [first]), Life(out, [], [first])];
    assert chain[..1] == [first];
    assert second.id == "1" && first.id == "0";
    assert NextInChain(w, chain, 1, lives[1]) by {
      FilterOne(first, InFamilyOf(w.id, first.id));
    }
    assert Unreliable(bad, out) && Unreliable(out, out);
  }

  lemma WholeChain(chain: seq<RunRecord>)
    requires chain != []
    ensures chain[..|chain| - 1 + 1] == chain
    ensures DoneBy(chain) + [] == DoneBy(chain)
  {
  }

  /** One turn of a perfect execution: the entry it records and the context it goes on with. */
  lemma PerfectTurn(w: Workflow, event: Event, out: Actions, i: nat, context: Context, run: Run)
    returns (entry: StepResult, next: Context)
    requires Perfect(out) && i < |w.steps|
    ensures Execute(w, event, out, i, context, run) == Execute(w, event, out, i + 1, next, Record(run, i + 1, entry))
    ensures PerfectResults(w, event, out, i, context) == [entry] + PerfectResults(w, event, out, i + 1, next)
  {
    var step := w.steps[i];
    if !w.holds(step.condition, event) {
      entry, next := StepResult(step.id, Skipped, Object([Member("condition", Str(step.condition))])), context;
    } else {
      var output := out(i, context).output;
      entry, next := StepResult(step.id, Succeeded, output), context[step.id := output];
    }
  }

  lemma {:induction false} PerfectExecution(w: Workflow, event: Event, out: Actions, i: nat, context: Context, run: Run)
    requires Perfect(out)
    ensures Execute(w, event, out, i, context, run).run.results == run.results + PerfectResults(w, event, out, i, context)
    decreases |w.steps| - i
  {
    if i < |w.steps| {
      hide Execute, PerfectResults, Perfect;
      var entry, next := PerfectTurn(w, event, out, i, context, run);
      PerfectExecution(w, event, out, i + 1, next, Record(run, i + 1, entry));
    } else {
      NothingLeft(w, event, out, i, context, run);
    }
  }

  lemma NothingLeft(w: Workflow, event: Event, out: Actions, i: nat, context: Context, run: Run)
    requires Perfect(out) && i >= |w.steps|
    ensures Execute(w, event, out, i, context, run).run.results == run.results && PerfectResults(w, event, out, i, context) == []
  {
  }
}
