/** What every run of pipeline operations keeps, and when a pipeline can go on. */
module PipelineProofs {
  import opened Wrappers
  import opened Pipeline

  lemma StepKeepsKeys(p: State, op: Op)
    requires WellKeyed(p)
    ensures WellKeyed(Step(p, op)) && Step(p, op).contracts == p.contracts && Step(p, op).maxAttempts == p.maxAttempts
  {
    hide Names, Distinct, EligibleStage;
  }

  /** The state after all operations of a run, refused ones included. */
  ghost function After(p: State, ops: seq<Op>): (r: State)
    requires WellKeyed(p)
    ensures WellKeyed(r) && r.contracts == p.contracts && r.maxAttempts == p.maxAttempts
  {
    if ops == [] then p
    else
      var before := After(p, ops[..|ops| - 1]);
      StepKeepsKeys(before, ops[|ops| - 1]);
      Step(before, ops[|ops| - 1])
  }

  lemma InitialIsWellKeyed(contracts: seq<Contract>, maxAttempts: nat)
    requires Distinct(contracts)
    ensures WellKeyed(Initial(contracts, maxAttempts))
  {
  }

  // ---- The invariant, part by part ----

  /** A stage that was begun has only succeeded stages before it. */
  ghost predicate InOrder(contracts: seq<Contract>, stageStatus: map<string, StageStatus>)
    requires stageStatus.Keys == Names(contracts)
  {
    forall i, j :: 0 <= i < j < |contracts| && !stageStatus[contracts[j].name].StagePending?
      ==> stageStatus[contracts[i].name].StageSucceeded?
  }

  ghost predicate SucceededEmitted(stageStatus: map<string, StageStatus>, producedByStage: map<string, set<string>>) {
    producedByStage.Keys == set stage | stage in stageStatus && stageStatus[stage].StageSucceeded?
  }

  ghost predicate IsUnion(produced: set<string>, producedByStage: map<string, set<string>>) {
    && (forall stage :: stage in producedByStage ==> producedByStage[stage] <= produced)
    && (forall artifact :: artifact in produced ==>
          exists stage :: stage in producedByStage && artifact in producedByStage[stage])
  }

  /** A stage that was ever begun still has its inputs. */
  ghost predicate InputsHeld(contracts: seq<Contract>, attempts: map<string, nat>, produced: set<string>)
    requires attempts.Keys == Names(contracts)
  {
    forall i :: 0 <= i < |contracts| && attempts[contracts[i].name] > 0 ==> contracts[i].requiredInputs <= produced
  }

  ghost predicate BegunCounted(stageStatus: map<string, StageStatus>, attempts: map<string, nat>)
    requires stageStatus.Keys == attempts.Keys
  {
    forall stage :: stage in stageStatus && !stageStatus[stage].StagePending? ==> attempts[stage] > 0
  }

  ghost predicate AllSucceeded(stageStatus: map<string, StageStatus>) {
    forall stage :: stage in stageStatus ==> stageStatus[stage].StageSucceeded?
  }

  ghost predicate StatusAgrees(status: PipelineStatus, stageStatus: map<string, StageStatus>,
      attempts: map<string, nat>, maxAttempts: nat)
    requires stageStatus.Keys == attempts.Keys
  {
    && (status.Succeeded? <==> stageStatus.Keys != {} && AllSucceeded(stageStatus))
    && (status.Failed? ==> exists stage ::
          stage in stageStatus && stageStatus[stage].StageFailed? && attempts[stage] >= maxAttempts)
    && (status.InProgress? ==> forall stage :: stage in stageStatus && stageStatus[stage].StageFailed? ==>
      attempts[stage] < maxAttempts)
  }

  ghost predicate Sound(p: State)
    requires WellKeyed(p)
  {
    && InOrder(p.contracts, p.stageStatus)
    && SucceededEmitted(p.stageStatus, p.producedByStage)
    && IsUnion(p.produced, p.producedByStage)
    && InputsHeld(p.contracts, p.attempts, p.produced)
    && BegunCounted(p.stageStatus, p.attempts)
    && StatusAgrees(p.status, p.stageStatus, p.attempts, p.maxAttempts)
  }

  lemma InitialIsSound(contracts: seq<Contract>, maxAttempts: nat)
    requires Distinct(contracts)
    ensures WellKeyed(Initial(contracts, maxAttempts)) && Sound(Initial(contracts, maxAttempts))
  {
    InitialIsWellKeyed(contracts, maxAttempts);
    var p := Initial(contracts, maxAttempts);
    if p.stageStatus.Keys != {} {
      var stage :| stage in p.stageStatus.Keys;
      assert stage in p.stageStatus && !p.stageStatus[stage].StageSucceeded?;
    }
  }

  // ---- Effects of setting one stage's status ----

  lemma OrderAdvances(contracts: seq<Contract>, stageStatus: map<string, StageStatus>, at: nat, status: StageStatus)
    requires Distinct(contracts) && stageStatus.Keys == Names(contracts) && InOrder(contracts, stageStatus)
    requires at < |contracts|
    requires forall i :: 0 <= i < at ==> stageStatus[contracts[i].name].StageSucceeded?
    requires forall j :: at < j < |contracts| ==> stageStatus[contracts[j].name].StagePending?
    ensures stageStatus[contracts[at].name := status].Keys == Names(contracts)
    ensures InOrder(contracts, stageStatus[contracts[at].name := status])
  {
    assert contracts[at].name in Names(contracts);
  }

  /** Around the first incomplete stage: succeeded ones before it, pending ones after it. */
  lemma AroundIncomplete(contracts: seq<Contract>, stageStatus: map<string, StageStatus>, at: nat)
    requires stageStatus.Keys == Names(contracts) && InOrder(contracts, stageStatus)
    requires at < |contracts| && !stageStatus[contracts[at].name].StageSucceeded?
    ensures forall j :: at < j < |contracts| ==> stageStatus[contracts[j].name].StagePending?
    ensures !stageStatus[contracts[at].name].StagePending? ==> forall i :: 0 <= i < at ==>
      stageStatus[contracts[i].name].StageSucceeded?
  {
  }

  lemma EmittedUnchanged(stageStatus: map<string, StageStatus>, producedByStage: map<string, set<string>>,
      stage: string, status: StageStatus)
    requires SucceededEmitted(stageStatus, producedByStage) && stage in stageStatus
    requires !stageStatus[stage].StageSucceeded? && !status.StageSucceeded?
    ensures SucceededEmitted(stageStatus[stage := status], producedByStage)
    ensures stage !in producedByStage
  {
    assert stage in producedByStage.Keys <==> stageStatus[stage].StageSucceeded?;
    var s' := stageStatus[stage := status];
    assert forall other :: other in s' && s'[other].StageSucceeded? <==>
      other in stageStatus && stageStatus[other].StageSucceeded?;
  }

  lemma EmittedGrows(stageStatus: map<string, StageStatus>, producedByStage: map<string, set<string>>,
      produced: set<string>, stage: string, emitted: set<string>)
    requires SucceededEmitted(stageStatus, producedByStage) && stage in stageStatus && !stageStatus[stage].StageSucceeded?
    requires IsUnion(produced, producedByStage)
    ensures SucceededEmitted(stageStatus[stage := StageSucceeded], producedByStage[stage := emitted])
    ensures IsUnion(produced + emitted, producedByStage[stage := emitted])
  {
    assert stage in producedByStage.Keys <==> stageStatus[stage].StageSucceeded?;
    var s' := stageStatus[stage := StageSucceeded];
    var p' := producedByStage[stage := emitted];
    assert forall other :: other in p'.Keys <==> other in s' && s'[other].StageSucceeded?;
    forall artifact | artifact in produced + emitted
      ensures exists other :: other in p' && artifact in p'[other]
    {
      if artifact in emitted {
        assert stage in p' && artifact in p'[stage];
      } else {
        var other :| other in producedByStage && artifact in producedByStage[other];
        assert other in p' && artifact in p'[other];
      }
    }
  }

  lemma AllSucceededAt(contracts: seq<Contract>, stageStatus: map<string, StageStatus>)
    requires stageStatus.Keys == Names(contracts)
    ensures FirstIncomplete(contracts, stageStatus, 0) == |contracts| <==> AllSucceeded(stageStatus)
  {
    var at := FirstIncomplete(contracts, stageStatus, 0);
    if at < |contracts| {
      assert contracts[at].name in Names(contracts);
    }
  }

  lemma InputsHeldByBegun(contracts: seq<Contract>, attempts: map<string, nat>, produced: set<string>, at: nat)
    requires Distinct(contracts) && attempts.Keys == Names(contracts) && InputsHeld(contracts, attempts, produced)
    requires at < |contracts| && contracts[at].requiredInputs <= produced
    ensures contracts[at].name in attempts
    ensures var attempts' := attempts[contracts[at].name := attempts[contracts[at].name] + 1];
      attempts'.Keys == Names(contracts) && InputsHeld(contracts, attempts', produced)
  {
    assert contracts[at].name in Names(contracts);
  }

  // ---- Each operation keeps the whole ----

  lemma BegunStaysCounted(stageStatus: map<string, StageStatus>, attempts: map<string, nat>, stage: string,
      status: StageStatus, count: nat)
    requires stageStatus.Keys == attempts.Keys && BegunCounted(stageStatus, attempts)
    requires stage in stageStatus && (count > 0 || status.StagePending?)
    ensures stageStatus[stage := status].Keys == attempts[stage := count].Keys
    ensures BegunCounted(stageStatus[stage := status], attempts[stage := count])
  {
  }

  /** A stage that neither succeeds nor ends the pipeline leaves its status in progress. */
  lemma StaysInProgress(stageStatus: map<string, StageStatus>, attempts: map<string, nat>, max: nat, stage: string,
      status: StageStatus, count: nat)
    requires stageStatus.Keys == attempts.Keys && StatusAgrees(InProgress, stageStatus, attempts, max)
    requires stage in stageStatus && !status.StageSucceeded? && (status.StageFailed? ==> count < max)
    ensures stageStatus[stage := status].Keys == attempts[stage := count].Keys
    ensures StatusAgrees(InProgress, stageStatus[stage := status], attempts[stage := count], max)
  {
    assert !stageStatus[stage := status][stage].StageSucceeded?;
  }

  lemma EndsFailed(stageStatus: map<string, StageStatus>, attempts: map<string, nat>, max: nat, stage: string)
    requires stageStatus.Keys == attempts.Keys && stage in stageStatus && attempts[stage] >= max
    ensures stageStatus[stage := StageFailed].Keys == attempts.Keys
    ensures StatusAgrees(Failed, stageStatus[stage := StageFailed], attempts, max)
  {
    assert stageStatus[stage := StageFailed][stage].StageFailed?;
  }

  lemma SameAttempts(attempts: map<string, nat>, stage: string)
    requires stage in attempts
    ensures attempts[stage := attempts[stage]] == attempts
  {
  }

  lemma BeginKeeps(p: State, stage: string)
    requires WellKeyed(p) && Sound(p) && BeginRefusal(p, stage).None?
    ensures WellKeyed(Begun(p, stage)) && Sound(Begun(p, stage))
  {
    hide SucceededEmitted, IsUnion, BegunCounted, StatusAgrees, InputsHeld;
    var at := FirstIncomplete(p.contracts, p.stageStatus, 0);
    AroundIncomplete(p.contracts, p.stageStatus, at);
    OrderAdvances(p.contracts, p.stageStatus, at, StageRunning);
    InputsHeldByBegun(p.contracts, p.attempts, p.produced, at);
    EmittedUnchanged(p.stageStatus, p.producedByStage, stage, StageRunning);
    BegunStaysCounted(p.stageStatus, p.attempts, stage, StageRunning, p.attempts[stage] + 1);
    StaysInProgress(p.stageStatus, p.attempts, p.maxAttempts, stage, StageRunning, p.attempts[stage] + 1);
  }

  lemma CompletedStatus(stageStatus: map<string, StageStatus>, attempts: map<string, nat>, max: nat, stage: string)
    requires stageStatus.Keys == attempts.Keys && stage in stageStatus && StatusAgrees(InProgress, stageStatus, attempts, max)
    ensures var after := stageStatus[stage := StageSucceeded];
      after.Keys == attempts.Keys && StatusAgrees(if AllSucceeded(after) then Succeeded else InProgress, after, attempts, max)
  {
    hide AllSucceeded;
  }

  lemma CompleteKeeps(p: State, stage: string, emitted: set<string>)
    requires WellKeyed(p) && Sound(p) && RunningRefusal(p, stage).None?
    ensures WellKeyed(Completed(p, stage, emitted)) && Sound(Completed(p, stage, emitted))
  {
    hide SucceededEmitted, IsUnion, FirstIncomplete, AllSucceeded, BegunCounted, StatusAgrees;
    var at := IndexOf(p.contracts, stage);
    AroundIncomplete(p.contracts, p.stageStatus, at);
    OrderAdvances(p.contracts, p.stageStatus, at, StageSucceeded);
    hide InOrder;
    EmittedGrows(p.stageStatus, p.producedByStage, p.produced, stage, emitted);
    AllSucceededAt(p.contracts, p.stageStatus[stage := StageSucceeded]);
    RunningWasCounted(p.stageStatus, p.attempts, stage);
    BegunStaysCounted(p.stageStatus, p.attempts, stage, StageSucceeded, p.attempts[stage]);
    SameAttempts(p.attempts, stage);
    CompletedStatus(p.stageStatus, p.attempts, p.maxAttempts, stage);
  }

  lemma RunningWasCounted(stageStatus: map<string, StageStatus>, attempts: map<string, nat>, stage: string)
    requires stageStatus.Keys == attempts.Keys && BegunCounted(stageStatus, attempts)
    requires stage in stageStatus && !stageStatus[stage].StagePending?
    ensures attempts[stage] > 0
  {
  }

  lemma FailKeeps(p: State, stage: string)
    requires WellKeyed(p) && Sound(p) && RunningRefusal(p, stage).None?
    ensures WellKeyed(StageFails(p, stage)) && Sound(StageFails(p, stage))
  {
    hide SucceededEmitted, IsUnion, BegunCounted, StatusAgrees, InputsHeld;
    var at := IndexOf(p.contracts, stage);
    AroundIncomplete(p.contracts, p.stageStatus, at);
    OrderAdvances(p.contracts, p.stageStatus, at, StageFailed);
    EmittedUnchanged(p.stageStatus, p.producedByStage, stage, StageFailed);
    RunningWasCounted(p.stageStatus, p.attempts, stage);
    BegunStaysCounted(p.stageStatus, p.attempts, stage, StageFailed, p.attempts[stage]);
    SameAttempts(p.attempts, stage);
    if p.attempts[stage] < p.maxAttempts {
      StaysInProgress(p.stageStatus, p.attempts, p.maxAttempts, stage, StageFailed, p.attempts[stage]);
    } else {
      EndsFailed(p.stageStatus, p.attempts, p.maxAttempts, stage);
    }
  }

  /** The purge before a retry removes nothing: a stage that failed never emitted. */
  lemma {:induction false} RetryPurgesNothing(p: State, stage: string)
    requires WellKeyed(p) && Sound(p) && stage in Names(p.contracts) && CanRetry(p, stage)
    ensures Retried(p, stage).produced == p.produced && Retried(p, stage).producedByStage == p.producedByStage
  {
    EmittedUnchanged(p.stageStatus, p.producedByStage, stage, StagePending);
  }

  lemma RetryKeeps(p: State, stage: string)
    requires WellKeyed(p) && Sound(p) && stage in Names(p.contracts) && CanRetry(p, stage)
    ensures WellKeyed(Retried(p, stage)) && Sound(Retried(p, stage))
  {
    RetryPurgesNothing(p, stage);
    hide SucceededEmitted, IsUnion;
    var at := IndexOf(p.contracts, stage);
    AroundIncomplete(p.contracts, p.stageStatus, at);
    OrderAdvances(p.contracts, p.stageStatus, at, StagePending);
    EmittedUnchanged(p.stageStatus, p.producedByStage, stage, StagePending);
    assert p.stageStatus[stage := StagePending][stage].StagePending?;
  }

  lemma CancelKeeps(p: State)
    requires WellKeyed(p) && Sound(p) && !Ended(p)
    ensures Sound(p.(status := Cancelled))
  {
  }

  lemma StepKeepsSound(p: State, op: Op)
    requires WellKeyed(p) && Sound(p)
    ensures WellKeyed(Step(p, op)) && Sound(Step(p, op))
  {
    StepKeepsKeys(p, op);
    hide InOrder, SucceededEmitted, IsUnion, InputsHeld, BegunCounted, StatusAgrees, Begun, Completed, StageFails, Retried;
    if Refusal(p, op).None? {
      match op
      case BeginStage(stage) => BeginKeeps(p, stage);
      case CompleteStage(stage, emitted) => CompleteKeeps(p, stage, emitted);
      case FailStage(stage) => FailKeeps(p, stage);
      case RetryStage(stage) => RetryKeeps(p, stage);
      case Cancel => CancelKeeps(p);
      case _ =>
    }
  }

  lemma {:induction false} RunKeepsSound(p: State, ops: seq<Op>)
    requires WellKeyed(p) && Sound(p)
    ensures Sound(After(p, ops))
  {
    if ops != [] {
      RunKeepsSound(p, ops[..|ops| - 1]);
      StepKeepsSound(After(p, ops[..|ops| - 1]), ops[|ops| - 1]);
    }
  }

  // ---- Main results: order, artifacts and progress ----

  /** Succeeded stages form a prefix; behind it at most one stage is running or failed. */
  lemma {:induction false} StagesSucceedInOrder(contracts: seq<Contract>, maxAttempts: nat, ops: seq<Op>)
    requires Distinct(contracts) && WellKeyed(Initial(contracts, maxAttempts))
    ensures var p := After(Initial(contracts, maxAttempts), ops);
      var n := FirstIncomplete(contracts, p.stageStatus, 0);
      && (forall i :: 0 <= i < n ==> p.stageStatus[contracts[i].name].StageSucceeded?)
      && (n < |contracts| ==> !p.stageStatus[contracts[n].name].StageSucceeded?)
      && (forall i :: n < i < |contracts| ==> p.stageStatus[contracts[i].name].StagePending?)
      && (p.status.Succeeded? <==> n == |contracts| && contracts != [])
  {
    InitialIsSound(contracts, maxAttempts);
    RunKeepsSound(Initial(contracts, maxAttempts), ops);
    var p := After(Initial(contracts, maxAttempts), ops);
    var n := FirstIncomplete(contracts, p.stageStatus, 0);
    if n < |contracts| {
      AroundIncomplete(contracts, p.stageStatus, n);
    }
    AllSucceededAt(contracts, p.stageStatus);
    assert contracts != [] ==> contracts[0].name in Names(contracts);
  }

  /** What is held is exactly what the succeeded stages emitted, and it covers the inputs of every stage ever begun. */
  lemma {:induction false} ProducedIsWhatSucceededStagesEmitted(contracts: seq<Contract>, maxAttempts: nat, ops: seq<Op>)
    requires Distinct(contracts) && WellKeyed(Initial(contracts, maxAttempts))
    ensures var p := After(Initial(contracts, maxAttempts), ops);
      && SucceededEmitted(p.stageStatus, p.producedByStage)
      && IsUnion(p.produced, p.producedByStage)
      && InputsHeld(p.contracts, p.attempts, p.produced)
  {
    InitialIsSound(contracts, maxAttempts);
    RunKeepsSound(Initial(contracts, maxAttempts), ops);
  }

  predicate KeepsContract(contracts: seq<Contract>, op: Op) {
    op.CompleteStage? ==> forall i :: 0 <= i < |contracts| && contracts[i].name == op.stage ==>
      contracts[i].produces <= op.emitted
  }

  ghost predicate ContractsKept(contracts: seq<Contract>, producedByStage: map<string, set<string>>) {
    forall i :: 0 <= i < |contracts| && contracts[i].name in producedByStage ==>
      contracts[i].produces <= producedByStage[contracts[i].name]
  }

  lemma StepKeepsContracts(p: State, op: Op)
    requires WellKeyed(p) && KeepsContract(p.contracts, op) && ContractsKept(p.contracts, p.producedByStage)
    ensures ContractsKept(p.contracts, Step(p, op).producedByStage)
  {
    hide Refusal, WellKeyed, FirstIncomplete;
  }

  lemma {:induction false} RunKeepsContracts(p: State, ops: seq<Op>)
    requires WellKeyed(p) && ContractsKept(p.contracts, p.producedByStage)
    requires forall op :: op in ops ==> KeepsContract(p.contracts, op)
    ensures ContractsKept(p.contracts, After(p, ops).producedByStage)
  {
    hide KeepsContract, ContractsKept, Step, WellKeyed;
    if ops != [] {
      assert ops[|ops| - 1] in ops;
      assert forall op :: op in ops[..|ops| - 1] ==> op in ops;
      RunKeepsContracts(p, ops[..|ops| - 1]);
      StepKeepsContracts(After(p, ops[..|ops| - 1]), ops[|ops| - 1]);
    }
  }

  lemma {:induction false} PrefixIsProduced(p: State, n: nat)
    requires WellKeyed(p) && Sound(p) && ContractsKept(p.contracts, p.producedByStage)
    requires n <= |p.contracts| && forall i :: 0 <= i < n ==> p.stageStatus[p.contracts[i].name].StageSucceeded?
    ensures ProducedBefore(p.contracts, n) <= p.produced
  {
    if n > 0 {
      PrefixIsProduced(p, n - 1);
      assert p.contracts[n - 1].name in p.producedByStage.Keys;
    }
  }

  /**
   The static check implies dynamic progress: when the graph is valid and every completed stage
   emitted at least its contract, a pipeline in progress always has a stage that may begin, its
   first incomplete one.
   */
  lemma {:induction false} ValidGraphNeverStalls(contracts: seq<Contract>, maxAttempts: nat, ops: seq<Op>)
    requires Distinct(contracts) && WellKeyed(Initial(contracts, maxAttempts))
    requires ValidGraph(contracts) && contracts != []
    requires forall op :: op in ops ==> KeepsContract(contracts, op)
    ensures var p := After(Initial(contracts, maxAttempts), ops);
      var n := FirstIncomplete(contracts, p.stageStatus, 0);
      !Ended(p) ==> n < |contracts| && EligibleStage(p) == Some(contracts[n].name)
                    && Refusal(p, BeginStage(contracts[n].name)).None?
  {
    hide KeepsContract, InOrder, IsUnion, InputsHeld, BegunCounted;
    InitialIsSound(contracts, maxAttempts);
    RunKeepsSound(Initial(contracts, maxAttempts), ops);
    RunKeepsContracts(Initial(contracts, maxAttempts), ops);
    var p := After(Initial(contracts, maxAttempts), ops);
    var n := FirstIncomplete(contracts, p.stageStatus, 0);
    AllSucceededAt(contracts, p.stageStatus);
    assert contracts[0].name in Names(contracts);
    if n < |contracts| {
      assert contracts[n].name in Names(contracts);
      PrefixIsProduced(p, n);
    }
  }

  /** The first incomplete stage waits for an artifact nobody before it emitted. */
  predicate Stalled(p: State)
    requires WellKeyed(p)
  {
    var n := FirstIncomplete(p.contracts, p.stageStatus, 0);
    && n < |p.contracts| && p.stageStatus[p.contracts[n].name].StagePending?
    && !(p.contracts[n].requiredInputs <= p.produced)
  }

  lemma NothingIsBegun(p: State, stage: string)
    requires WellKeyed(p) && InOrder(p.contracts, p.stageStatus) && Stalled(p) && stage in Names(p.contracts)
    ensures p.stageStatus[stage].StageSucceeded? || p.stageStatus[stage].StagePending?
    ensures BeginRefusal(p, stage).Some?
  {
    var n := FirstIncomplete(p.contracts, p.stageStatus, 0);
    AroundIncomplete(p.contracts, p.stageStatus, n);
    var i := IndexOf(p.contracts, stage);
  }

  lemma StallIsKept(p: State, op: Op)
    requires WellKeyed(p) && InOrder(p.contracts, p.stageStatus) && Stalled(p)
    ensures Step(p, op).stageStatus == p.stageStatus && Step(p, op).produced == p.produced
  {
    hide InOrder, Stalled, FirstIncomplete, EligibleStage, BeginRefusal, Names, Distinct;
    if (op.BeginStage? || op.CompleteStage? || op.FailStage? || op.RetryStage?) && op.stage in Names(p.contracts) {
      NothingIsBegun(p, op.stage);
    }
    BeginNamesAStage(p, op);
  }

  lemma BeginNamesAStage(p: State, op: Op)
    requires WellKeyed(p)
    ensures op.BeginStage? && op.stage !in Names(p.contracts) ==> BeginRefusal(p, op.stage).Some?
  {
  }

  /** A missing artifact stalls a pipeline for good: nothing that is called later begins, completes or fails a stage. */
  lemma {:induction false} StallIsPermanent(p: State, ops: seq<Op>)
    requires WellKeyed(p) && Sound(p) && Stalled(p)
    ensures After(p, ops).stageStatus == p.stageStatus && After(p, ops).produced == p.produced
    ensures EligibleStage(After(p, ops)).None?
  {
    if ops != [] {
      hide Step, Sound, WellKeyed;
      StallIsPermanent(p, ops[..|ops| - 1]);
      RunKeepsSound(p, ops[..|ops| - 1]);
      StallIsKept(After(p, ops[..|ops| - 1]), ops[|ops| - 1]);
    }
  }

  /** The static check alone does not prevent it: a planner of the default graph that emits nothing stalls the rest. */
  lemma UnderproducingStalls(maxAttempts: nat)
    ensures WellKeyed(Initial(DEFAULT_CONTRACTS, maxAttempts)) && ValidGraph(DEFAULT_CONTRACTS)
    ensures var p := After(Initial(DEFAULT_CONTRACTS, maxAttempts), [BeginStage("planner"), CompleteStage("planner", {})]);
      !Ended(p) && Stalled(p)
  {
    DefaultIsValid();
    var p0 := Initial(DEFAULT_CONTRACTS, maxAttempts);
    InitialIsWellKeyed(DEFAULT_CONTRACTS, maxAttempts);
    var b, c := BeginStage("planner"), CompleteStage("planner", {});
    var p1 := PlannerBegins(p0);
    assert [b, c][..1] == [b] && [b][..0] == [];
    assert After(p0, [b]) == p1;
    var p2 := PlannerEmitsNothing(p1);
    assert After(p0, [b, c]) == p2;
  }

  lemma PlannerBegins(p: State) returns (r: State)
    requires WellKeyed(p) && p.contracts == DEFAULT_CONTRACTS && p.status.InProgress? && p.produced == {}
    requires forall stage :: stage in p.stageStatus ==> p.stageStatus[stage].StagePending?
    ensures "planner" in Names(p.contracts)
    ensures WellKeyed(r) && r == Step(p, BeginStage("planner")) == Begun(p, "planner")
  {
    assert DEFAULT_CONTRACTS[0].name in Names(DEFAULT_CONTRACTS);
    assert FirstIncomplete(DEFAULT_CONTRACTS, p.stageStatus, 0) == 0;
    r := Begun(p, "planner");
    StepKeepsKeys(p, BeginStage("planner"));
  }

  lemma PlannerEmitsNothing(p: State) returns (r: State)
    requires WellKeyed(p) && p.contracts == DEFAULT_CONTRACTS && p.status.InProgress? && p.produced == {}
    requires forall stage :: stage in p.stageStatus ==>
      p.stageStatus[stage] == if stage == "planner" then StageRunning else StagePending
    ensures WellKeyed(r) && r == Step(p, CompleteStage("planner", {})) && !Ended(r) && Stalled(r)
  {
    assert DEFAULT_CONTRACTS[0].name in Names(DEFAULT_CONTRACTS);
    assert DEFAULT_CONTRACTS[1].name in Names(DEFAULT_CONTRACTS);
    StepKeepsKeys(p, CompleteStage("planner", {}));
    r := Completed(p, "planner", {});
    assert "planner" != "human_approval" && "coder" != "planner";
    var n := FirstIncomplete(DEFAULT_CONTRACTS, r.stageStatus, 0);
    assert n == 1;
    assert "plan" in DEFAULT_CONTRACTS[1].requiredInputs && "plan" !in r.produced;
  }

  lemma DefaultIsValid()
    ensures Distinct(DEFAULT_CONTRACTS) && ValidGraph(DEFAULT_CONTRACTS)
  {
    forall i | 0 <= i < |DEFAULT_CONTRACTS| ensures DEFAULT_CONTRACTS[i].requiredInputs <= ProducedBefore(DEFAULT_CONTRACTS, i) {
      if i > 0 { assert DEFAULT_CONTRACTS[i - 1].produces <= ProducedBefore(DEFAULT_CONTRACTS, i); }
      if i > 1 { assert DEFAULT_CONTRACTS[i - 2].produces <= ProducedBefore(DEFAULT_CONTRACTS, i - 1); }
    }
  }

  // ---- Main results: retries ----

  /** How many times a stage failed in a run. */
  ghost function Failures(p: State, ops: seq<Op>, stage: string): nat
    requires WellKeyed(p)
  {
    if ops == [] then 0
    else
      var before := After(p, ops[..|ops| - 1]);
      var op := ops[|ops| - 1];
      Failures(p, ops[..|ops| - 1], stage) + if op == FailStage(stage) && Refusal(before, op).None? then 1 else 0
  }

  ghost predicate FailuresFit(p: State, stage: string, failures: nat)
    requires WellKeyed(p) && stage in Names(p.contracts)
  {
    && failures <= p.attempts[stage]
    && (p.stageStatus[stage].StageRunning? ==> failures < p.attempts[stage])
    && (if p.status.Failed? then failures <= p.maxAttempts else failures < p.maxAttempts)
  }

  lemma StepKeepsFailures(p: State, op: Op, stage: string, failures: nat)
    requires WellKeyed(p) && stage in Names(p.contracts) && FailuresFit(p, stage, failures)
    ensures WellKeyed(Step(p, op)) && stage in Names(Step(p, op).contracts)
    ensures FailuresFit(Step(p, op), stage, failures + if op == FailStage(stage) && Refusal(p, op).None? then 1 else 0)
  {
    StepKeepsKeys(p, op);
    hide EligibleStage, Names, Distinct, FirstIncomplete, FailuresFit, WellKeyed, Begun, Completed, StageFails, Retried;
    if Refusal(p, op).None? {
      match op
      case BeginStage(other) => BegunFits(p, other, stage, failures);
      case CompleteStage(other, emitted) => CompletedFits(p, other, emitted, stage, failures);
      case FailStage(other) => FailedFits(p, other, stage, failures);
      case RetryStage(other) => RetriedFits(p, other, stage, failures);
      case _ => OthersFit(p, op, stage, failures);
    }
  }

  lemma OthersFit(p: State, op: Op, stage: string, failures: nat)
    requires WellKeyed(p) && stage in Names(p.contracts) && FailuresFit(p, stage, failures) && Refusal(p, op).None?
    requires !op.BeginStage? && !op.CompleteStage? && !op.FailStage? && !op.RetryStage?
    ensures WellKeyed(Step(p, op)) && stage in Names(Step(p, op).contracts)
    ensures FailuresFit(Step(p, op), stage, failures)
  {
    hide Names, Distinct, FirstIncomplete, Locked, GrantedDecision;
  }

  lemma BegunFits(p: State, other: string, stage: string, failures: nat)
    requires WellKeyed(p) && other in Names(p.contracts) && stage in Names(p.contracts) && FailuresFit(p, stage, failures)
    ensures WellKeyed(Begun(p, other)) && FailuresFit(Begun(p, other), stage, failures)
  {
  }

  lemma CompletedFits(p: State, other: string, emitted: set<string>, stage: string, failures: nat)
    requires WellKeyed(p) && other in Names(p.contracts) && stage in Names(p.contracts) && FailuresFit(p, stage, failures)
    requires !p.status.Failed?
    ensures WellKeyed(Completed(p, other, emitted)) && FailuresFit(Completed(p, other, emitted), stage, failures)
  {
    hide FirstIncomplete;
  }

  lemma FailedFits(p: State, other: string, stage: string, failures: nat)
    requires WellKeyed(p) && other in Names(p.contracts) && stage in Names(p.contracts) && FailuresFit(p, stage, failures)
    requires p.stageStatus[other].StageRunning? && !p.status.Failed?
    ensures WellKeyed(StageFails(p, other))
    ensures FailuresFit(StageFails(p, other), stage, failures + if other == stage then 1 else 0)
  {
  }

  lemma RetriedFits(p: State, other: string, stage: string, failures: nat)
    requires WellKeyed(p) && other in Names(p.contracts) && stage in Names(p.contracts) && FailuresFit(p, stage, failures)
    ensures WellKeyed(Retried(p, other)) && FailuresFit(Retried(p, other), stage, failures)
  {
  }

  /** No stage fails more often than the policy allows, whatever is called and however often it is begun again. */
  lemma {:induction false} FailuresAreBounded(contracts: seq<Contract>, maxAttempts: nat, ops: seq<Op>, stage: string)
    requires Distinct(contracts) && WellKeyed(Initial(contracts, maxAttempts))
    requires maxAttempts >= 1 && stage in Names(contracts)
    ensures Failures(Initial(contracts, maxAttempts), ops, stage) <= maxAttempts
    ensures FailuresFit(After(Initial(contracts, maxAttempts), ops), stage, Failures(Initial(contracts, maxAttempts),
      ops, stage))
  {
    var p := Initial(contracts, maxAttempts);
    if ops != [] {
      hide Step, Refusal, WellKeyed;
      FailuresAreBounded(contracts, maxAttempts, ops[..|ops| - 1], stage);
      StepKeepsFailures(After(p, ops[..|ops| - 1]), ops[|ops| - 1], stage, Failures(p, ops[..|ops| - 1], stage));
    }
  }

  ghost predicate PendingHasRoom(p: State)
    requires WellKeyed(p)
  {
    forall stage :: stage in Names(p.contracts) && p.stageStatus[stage].StagePending? ==> p.attempts[stage] < p.maxAttempts
  }

  lemma StepKeepsRoom(p: State, op: Op)
    requires WellKeyed(p) && PendingHasRoom(p)
    ensures WellKeyed(Step(p, op)) && PendingHasRoom(Step(p, op))
  {
    StepKeepsKeys(p, op);
    hide EligibleStage, Names, Distinct, FirstIncomplete, Locked, GrantedDecision;
  }

  lemma {:induction false} RunKeepsRoom(contracts: seq<Contract>, maxAttempts: nat, ops: seq<Op>)
    requires Distinct(contracts) && WellKeyed(Initial(contracts, maxAttempts)) && maxAttempts >= 1
    ensures PendingHasRoom(After(Initial(contracts, maxAttempts), ops))
  {
    if ops != [] {
      hide Step, PendingHasRoom, WellKeyed;
      RunKeepsRoom(contracts, maxAttempts, ops[..|ops| - 1]);
      StepKeepsRoom(After(Initial(contracts, maxAttempts), ops[..|ops| - 1]), ops[|ops| - 1]);
    }
  }

  /**
   The policy does not cap the attempts themselves. In every reachable pipeline a begin is accepted
   and goes over the cap exactly when the eligible stage is already running with no attempts left.
   */
  lemma {:induction false} OnlyARestartExceedsThePolicy(contracts: seq<Contract>, maxAttempts: nat, ops: seq<Op>, stage: string)
    requires Distinct(contracts) && WellKeyed(Initial(contracts, maxAttempts))
    requires maxAttempts >= 1 && stage in Names(contracts)
    ensures var p := After(Initial(contracts, maxAttempts), ops);
      Refusal(p, BeginStage(stage)).None? && Step(p, BeginStage(stage)).attempts[stage] > maxAttempts
      <==> EligibleStage(p) == Some(stage) && p.stageStatus[stage].StageRunning? && p.attempts[stage] >= maxAttempts
  {
    hide FirstIncomplete, InOrder, IsUnion, InputsHeld, SucceededEmitted, BegunCounted;
    InitialIsSound(contracts, maxAttempts);
    RunKeepsSound(Initial(contracts, maxAttempts), ops);
    RunKeepsRoom(contracts, maxAttempts, ops);
    EligibleIsIncomplete(After(Initial(contracts, maxAttempts), ops), stage);
  }

  /** A stage begun twice under a policy of one attempt has had two. */
  lemma BegunTwiceExceedsThePolicy(stage: string)
    ensures var graph := [Contract(stage, {}, {})];
      && Distinct(graph) && ValidGraph(graph) && WellKeyed(Initial(graph, 1)) && stage in Names(graph)
      && After(Initial(graph, 1), [BeginStage(stage), BeginStage(stage)]).attempts[stage] == 2
  {
    var graph, b := [Contract(stage, {}, {})], BeginStage(stage);
    assert graph[0].name == stage;
    assert stage in Names(graph);
    var p0 := Initial(graph, 1);
    BeginsOnlyStage(p0, stage);
    var p1 := Begun(p0, stage);
    StepKeepsKeys(p0, b);
    BeginsOnlyStage(p1, stage);
    assert [b, b][..1] == [b] && [b][..0] == [];
    assert After(p0, [b]) == p1;
  }

  lemma BeginsOnlyStage(p: State, stage: string)
    requires p.contracts == [Contract(stage, {}, {})] && WellKeyed(p) && stage in Names(p.contracts) && p.status.InProgress?
    requires !p.stageStatus[stage].StageSucceeded?
    ensures Step(p, BeginStage(stage)) == Begun(p, stage)
  {
    assert p.contracts[0].name == stage;
    assert FirstIncomplete(p.contracts, p.stageStatus, 0) == 0;
  }

  lemma EligibleIsIncomplete(p: State, stage: string)
    requires WellKeyed(p) && stage in Names(p.contracts)
    ensures EligibleStage(p) == Some(stage) ==> !Ended(p) && !p.stageStatus[stage].StageSucceeded?
  {
  }

  // ---- Main results: the end of a pipeline ----

  lemma EndedStays(p: State, op: Op, stage: string)
    requires WellKeyed(p) && Ended(p) && stage in Names(p.contracts)
    ensures WellKeyed(Step(p, op)) && Step(p, op).status == p.status
    ensures var now := Step(p, op).stageStatus[stage]; now.StageRunning? || now.StageSucceeded? ==> now == p.stageStatus[stage]
  {
    StepKeepsKeys(p, op);
  }

  /** Once ended, a pipeline keeps its status and no stage becomes running or succeeded any more. */
  lemma {:induction false} EndIsFinal(p: State, ops: seq<Op>, stage: string)
    requires WellKeyed(p) && Ended(p) && stage in Names(p.contracts)
    ensures After(p, ops).status == p.status
    ensures var now := After(p, ops).stageStatus[stage]; now.StageRunning? || now.StageSucceeded? ==>
      now == p.stageStatus[stage]
  {
    if ops != [] {
      hide Step, WellKeyed;
      EndIsFinal(p, ops[..|ops| - 1], stage);
      EndedStays(After(p, ops[..|ops| - 1]), ops[|ops| - 1], stage);
    }
  }

  lemma StepKeepsEvidence(p: State, op: Op, name: string)
    requires WellKeyed(p) && name in p.evidence
    ensures name in Step(p, op).evidence && Step(p, op).evidence[name] == p.evidence[name]
  {
    hide EligibleStage, FirstIncomplete, WellKeyed, Begun, Completed, StageFails, Retried;
    match op
    case BeginStage(stage) => EvidenceUntouched(p, stage, {});
    case CompleteStage(stage, emitted) => EvidenceUntouched(p, stage, emitted);
    case FailStage(stage) => EvidenceUntouched(p, stage, {});
    case RetryStage(stage) => EvidenceUntouched(p, stage, {});
    case _ =>
  }

  lemma EvidenceUntouched(p: State, stage: string, emitted: set<string>)
    requires WellKeyed(p)
    ensures stage in Names(p.contracts) ==>
      && Begun(p, stage).evidence == p.evidence && Completed(p, stage, emitted).evidence == p.evidence
      && StageFails(p, stage).evidence == p.evidence && Retried(p, stage).evidence == p.evidence
  {
    hide FirstIncomplete;
  }

  /** Attached evidence is frozen: no later operation replaces or drops it. */
  lemma {:induction false} EvidenceIsFrozen(p: State, ops: seq<Op>, name: string)
    requires WellKeyed(p) && name in p.evidence
    ensures name in After(p, ops).evidence && After(p, ops).evidence[name] == p.evidence[name]
  {
    if ops != [] {
      hide Step, WellKeyed;
      EvidenceIsFrozen(p, ops[..|ops| - 1], name);
      StepKeepsEvidence(After(p, ops[..|ops| - 1]), ops[|ops| - 1], name);
    }
  }

  // ---- Main results: a decision recorded before ----

  /** The last decision seeded by the operations, or the one before them. */
  function SeededLast(ops: seq<Op>, prior: Option<string>): Option<string> {
    if ops == [] then prior
    else
      var op := ops[|ops| - 1];
      if !op.SetPriorApprovalDecision? then SeededLast(ops[..|ops| - 1], prior)
      else if Locked(op.decision) || op.decision == Some("granted") then op.decision
      else None
  }

  lemma OnlySeedingChangesPrior(p: State, op: Op)
    requires WellKeyed(p)
    ensures Step(p, op).priorDecision == SeededLast([op], p.priorDecision)
  {
    hide FirstIncomplete, WellKeyed;
    assert [op][..0] == [];
  }

  lemma {:induction false} PriorIsSeededLast(p: State, ops: seq<Op>)
    requires WellKeyed(p)
    ensures After(p, ops).priorDecision == SeededLast(ops, p.priorDecision)
  {
    if ops != [] {
      hide Step, WellKeyed;
      PriorIsSeededLast(p, ops[..|ops| - 1]);
      OnlySeedingChangesPrior(After(p, ops[..|ops| - 1]), ops[|ops| - 1]);
      assert [ops[|ops| - 1]][..0] == [];
    }
  }

  /**
   When a recorded denial stands against a grant: an explicit grant after any operations is refused
   exactly when the decision seeded last among them, or the one before, is a locking one. So a
   denial stands as long as nothing is seeded, and seeding anything that does not lock lifts it.
   */
  lemma {:induction false} DenialStandsUntilReseeded(p: State, ops: seq<Op>, principal: string)
    requires WellKeyed(p) && principal != ""
    ensures Step(After(p, ops), GrantHumanApproval(Some(principal), true)).deliveryDecision ==
      Some(if Locked(SeededLast(ops, p.priorDecision)) then "denied" else "approved")
  {
    hide FirstIncomplete, WellKeyed;
    PriorIsSeededLast(p, ops);
  }

  /** A denial that is seeded over with nothing no longer stands. */
  lemma {:induction false} ReseedingLiftsADenial(p: State)
    requires WellKeyed(p)
    ensures After(p, [SetPriorApprovalDecision(Some("denied")), SetPriorApprovalDecision(None),
                      GrantHumanApproval(Some("p"), true)]).deliveryDecision == Some("approved")
  {
    var d, n := SetPriorApprovalDecision(Some("denied")), SetPriorApprovalDecision(None);
    var g := GrantHumanApproval(Some("p"), true);
    assert [d, n, g][..2] == [d, n] && [d, n][..1] == [d];
    DenialStandsUntilReseeded(p, [d, n], "p");
  }

  // ---- Main results: human approval ----

  predicate WritesDecision(op: Op) {
    op.GrantHumanApproval? || (op.SetPriorApprovalDecision? && Locked(op.decision))
  }

  predicate IsExplicitGrant(op: Op) {
    op.GrantHumanApproval? && op.approved && op.principal.Some? && op.principal.value != ""
  }

  /** The last write to the decision among the operations is an explicit grant, over no locking prior decision. */
  ghost predicate GrantedLast(p: State, ops: seq<Op>)
    requires WellKeyed(p)
  {
    exists j :: 0 <= j < |ops| && IsExplicitGrant(ops[j]) && !Locked(After(p, ops[..j]).priorDecision)
      && forall k :: j < k < |ops| ==> !WritesDecision(ops[k])
  }

  lemma OnlyWritesChangeDecision(p: State, op: Op)
    requires WellKeyed(p) && !WritesDecision(op)
    ensures Step(p, op).deliveryDecision == p.deliveryDecision
  {
    hide Refusal, FirstIncomplete, WellKeyed;
  }

  lemma ApprovedByGrant(p: State, op: Op)
    requires WellKeyed(p) && WritesDecision(op) && Step(p, op).deliveryDecision == Some("approved")
    ensures IsExplicitGrant(op) && !Locked(p.priorDecision)
  {
    hide FirstIncomplete, WellKeyed;
  }

  lemma {:induction false} ApprovedMeansGrantedLast(p: State, ops: seq<Op>)
    requires WellKeyed(p) && p.deliveryDecision.None?
    requires After(p, ops).deliveryDecision == Some("approved")
    ensures GrantedLast(p, ops)
  {
    hide WellKeyed, Step, Locked;
    var last := |ops| - 1;
    var before := ops[..last];
    if WritesDecision(ops[last]) {
      ApprovedByGrant(After(p, before), ops[last]);
    } else {
      OnlyWritesChangeDecision(After(p, before), ops[last]);
      ApprovedMeansGrantedLast(p, before);
      var j :| 0 <= j < |before| && IsExplicitGrant(before[j]) && !Locked(After(p, before[..j]).priorDecision)
        && forall k :: j < k < |before| ==> !WritesDecision(before[k]);
      assert before[..j] == ops[..j] && before[j] == ops[j];
      assert forall k :: j < k < |ops| ==> k == last || ops[k] == before[k];
    }
  }

  lemma OnlyCompletionSucceeds(p: State, op: Op, stage: string)
    requires WellKeyed(p) && stage in Names(p.contracts) && WellKeyed(Step(p, op))
    requires Step(p, op).stageStatus[stage].StageSucceeded? && !p.stageStatus[stage].StageSucceeded?
    ensures op.CompleteStage? && op.stage == stage && Refusal(p, op).None?
  {
    hide EligibleStage, FirstIncomplete;
  }

  lemma CompletionWasApproved(p: State, op: Op)
    requires WellKeyed(p) && "human_approval" in Names(p.contracts) && WellKeyed(Step(p, op)) && Step(p, op).contracts ==
      p.contracts
    requires Step(p, op).stageStatus["human_approval"].StageSucceeded? && !p.stageStatus["human_approval"].StageSucceeded?
    ensures op.CompleteStage? && op.stage == "human_approval" && Refusal(p, op).None? && p.deliveryDecision == Some("approved")
  {
    hide Step, WellKeyed;
    OnlyCompletionSucceeds(p, op, "human_approval");
  }

  lemma StageIsKeyed(p: State, stage: string)
    requires WellKeyed(p) && stage in Names(p.contracts)
    ensures stage in p.stageStatus
  {
  }

  /** A human-approval stage succeeds only at a completion at which an explicit grant was the last word. */
  lemma {:induction false} ApprovalIsExplicit(p: State, ops: seq<Op>) returns (i: nat)
    requires WellKeyed(p) && "human_approval" in Names(p.contracts)
    requires p.deliveryDecision.None? && !p.stageStatus["human_approval"].StageSucceeded?
    requires After(p, ops).stageStatus["human_approval"].StageSucceeded?
    ensures i < |ops| && ops[i].CompleteStage? && ops[i].stage == "human_approval"
    ensures Refusal(After(p, ops[..i]), ops[i]).None? && GrantedLast(p, ops[..i])
  {
    hide WellKeyed, Step, GrantedLast, Refusal, Names;
    var before, op := ops[..|ops| - 1], ops[|ops| - 1];
    StageIsKeyed(After(p, before), "human_approval");
    if After(p, before).stageStatus["human_approval"].StageSucceeded? {
      i := ApprovalIsExplicit(p, before);
      assert before[..i] == ops[..i] && before[i] == ops[i];
    } else {
      i := |ops| - 1;
      CompletionWasApproved(After(p, before), op);
      ApprovedMeansGrantedLast(p, before);
    }
  }

  /** Delivery by the default graph needs an explicit human grant with a principal, not taken back before the completion. */
  lemma {:induction false} DeliveryNeedsAGrant(maxAttempts: nat, ops: seq<Op>) returns (i: nat)
    requires WellKeyed(Initial(DEFAULT_CONTRACTS, maxAttempts))
    requires After(Initial(DEFAULT_CONTRACTS, maxAttempts), ops).status.Succeeded?
    ensures i < |ops| && ops[i].CompleteStage? && ops[i].stage == "human_approval"
    ensures GrantedLast(Initial(DEFAULT_CONTRACTS, maxAttempts), ops[..i])
  {
    var p := Initial(DEFAULT_CONTRACTS, maxAttempts);
    DefaultIsValid();
    assert DEFAULT_CONTRACTS[4].name in Names(DEFAULT_CONTRACTS);
    InitialIsSound(DEFAULT_CONTRACTS, maxAttempts);
    RunKeepsSound(p, ops);
    i := ApprovalIsExplicit(p, ops);
  }
}
