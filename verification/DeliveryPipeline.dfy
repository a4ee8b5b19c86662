/** The delivery pipeline as an object whose operations update it in place. */
module DeliveryPipeline {
  import opened Wrappers
  import opened Pipeline
  import opened PipelineProofs

  class Machine {
    const contracts: seq<Contract>
    const maxAttempts: nat
    var status: PipelineStatus
    var stageStatus: map<string, StageStatus>
    var attempts: map<string, nat>
    var produced: set<string>
    var producedByStage: map<string, set<string>>
    var evidence: map<string, string>
    var deliveryDecision: Option<string>
    var priorDecision: Option<string>

    ghost function Value(): State
      reads this
    {
      State(contracts, maxAttempts, status, stageStatus, attempts, produced, producedByStage, evidence,
        deliveryDecision, priorDecision)
    }

    ghost predicate Valid()
      reads this
    {
      WellKeyed(Value()) && Sound(Value())
    }

    constructor (graph: seq<Contract>, max: nat)
      requires Distinct(graph)
      ensures Valid() && Value() == Initial(graph, max)
    {
      InitialIsSound(graph, max);
      contracts, maxAttempts, status := graph, max, InProgress;
      stageStatus := map stage | stage in Names(graph) :: StagePending;
      attempts := map stage | stage in Names(graph) :: 0;
      produced, producedByStage, evidence := {}, map[], map[];
      deliveryDecision, priorDecision := None, None;
    }

    /** A policy without attempts and a graph with a gap are refused before a pipeline exists. */
    static method Create(graph: seq<Contract>, max: int) returns (r: Result<Machine, Error>)
      requires Distinct(graph)
      ensures r.Ok? <==> max >= 1 && ValidGraph(graph)
      ensures r.Ok? ==> fresh(r.value) && r.value.Valid() && r.value.Value() == Initial(graph, max)
    {
      if max < 1 {
        return Err(InvalidPolicy);
      }
      var valid := ValidatePipelineGraph(graph);
      if !valid {
        return Err(InvalidGraph);
      }
      var machine := new Machine(graph, max);
      return Ok(machine);
    }

    method FirstIncompleteStage() returns (i: nat)
      requires WellKeyed(Value())
      ensures i == FirstIncomplete(contracts, stageStatus, 0)
    {
      for j := 0 to |contracts|
        invariant FirstIncomplete(contracts, stageStatus, 0) == FirstIncomplete(contracts, stageStatus, j)
      {
        assert contracts[j].name in Names(contracts);
        if !stageStatus[contracts[j].name].StageSucceeded? {
          return j;
        }
      }
      return |contracts|;
    }

    method NextEligible() returns (stage: Option<string>)
      requires Valid()
      ensures stage == EligibleStage(Value())
    {
      if !status.InProgress? {
        return None;
      }
      var target := FirstIncompleteStage();
      if target == |contracts| || !(contracts[target].requiredInputs <= produced) {
        return None;
      }
      return Some(contracts[target].name);
    }

    method BeginStage(stage: string) returns (raised: Option<Error>)
      requires Valid()
      modifies this
      ensures raised == Refusal(old(Value()), Op.BeginStage(stage))
      ensures Valid() && Value() == Step(old(Value()), Op.BeginStage(stage))
    {
      hide Sound, EligibleStage, Distinct;
      StepKeepsSound(Value(), Op.BeginStage(stage));
      if stage !in Names(contracts) {
        return Some(UnknownStage);
      }
      if !status.InProgress? {
        return Some(PipelineEnded);
      }
      if stageStatus[stage].StageSucceeded? {
        return Some(AlreadySucceeded);
      }
      var eligible := NextEligible();
      if eligible != Some(stage) {
        return Some(NotEligible);
      }
      attempts := attempts[stage := attempts[stage] + 1];
      stageStatus := stageStatus[stage := StageRunning];
      return None;
    }

    method CompleteStage(stage: string, emitted: set<string>) returns (raised: Option<Error>)
      requires Valid()
      modifies this
      ensures raised == Refusal(old(Value()), Op.CompleteStage(stage, emitted))
      ensures Valid() && Value() == Step(old(Value()), Op.CompleteStage(stage, emitted))
    {
      hide Sound, FirstIncomplete, Distinct, Names;
      StepKeepsSound(Value(), Op.CompleteStage(stage, emitted));
      if !status.InProgress? {
        return Some(PipelineEnded);
      }
      if stage !in Names(contracts) {
        return Some(UnknownStage);
      }
      if !stageStatus[stage].StageRunning? {
        return Some(NotRunning);
      }
      if stage == "human_approval" && deliveryDecision != Some("approved") {
        return Some(ApprovalNotGranted);
      }
      stageStatus := stageStatus[stage := StageSucceeded];
      producedByStage := producedByStage[stage := emitted];
      produced := produced + emitted;
      var target := FirstIncompleteStage();
      if target == |contracts| {
        status := Succeeded;
      }
      return None;
    }

    method FailStage(stage: string) returns (raised: Option<Error>)
      requires Valid()
      modifies this
      ensures raised == Refusal(old(Value()), Op.FailStage(stage))
      ensures Valid() && Value() == Step(old(Value()), Op.FailStage(stage))
    {
      hide Sound, Distinct;
      StepKeepsSound(Value(), Op.FailStage(stage));
      if !status.InProgress? {
        return Some(PipelineEnded);
      }
      if stage !in Names(contracts) {
        return Some(UnknownStage);
      }
      if !stageStatus[stage].StageRunning? {
        return Some(NotRunning);
      }
      stageStatus := stageStatus[stage := StageFailed];
      if attempts[stage] >= maxAttempts {
        status := Failed;
      }
      return None;
    }

    method AttachArtifact(stage: string, name: string, payload: string) returns (raised: Option<Error>)
      requires Valid()
      modifies this
      ensures raised == Refusal(old(Value()), Op.AttachArtifact(stage, name, payload))
      ensures Valid() && Value() == Step(old(Value()), Op.AttachArtifact(stage, name, payload))
    {
      hide Sound, Distinct;
      StepKeepsSound(Value(), Op.AttachArtifact(stage, name, payload));
      if !status.InProgress? {
        return Some(PipelineEnded);
      }
      if stage !in Names(contracts) {
        return Some(UnknownStage);
      }
      if !stageStatus[stage].StageRunning? {
        return Some(NotRunning);
      }
      if name in evidence {
        return Some(ArtifactFrozen);
      }
      evidence := evidence[name := payload];
      return None;
    }

    method RetryStage(stage: string) returns (raised: Option<Error>)
      requires Valid()
      modifies this
      ensures raised == Refusal(old(Value()), Op.RetryStage(stage))
      ensures Valid() && Value() == Step(old(Value()), Op.RetryStage(stage))
      ensures produced == old(produced)
    {
      hide Sound, Distinct;
      StepKeepsSound(Value(), Op.RetryStage(stage));
      if stage !in Names(contracts) {
        return Some(UnknownStage);
      }
      if !stageStatus[stage].StageFailed? || attempts[stage] >= maxAttempts {
        return Some(CannotRetry);
      }
      var stale := if stage in producedByStage then producedByStage[stage] else {};
      RetryPurgesNothing(Value(), stage);
      producedByStage := producedByStage - {stage};
      produced := produced - stale;
      stageStatus := stageStatus[stage := StagePending];
      return None;
    }

    method GrantHumanApproval(principal: Option<string>, approved: bool)
      requires Valid()
      modifies this`deliveryDecision
      ensures Valid() && Value() == Step(old(Value()), Op.GrantHumanApproval(principal, approved))
    {
      hide Sound, Distinct;
      StepKeepsSound(Value(), Op.GrantHumanApproval(principal, approved));
      if Locked(priorDecision) {
        deliveryDecision := Some("denied");
        return;
      }
      if approved && principal.Some? && principal.value != "" {
        deliveryDecision := Some("approved");
      } else {
        deliveryDecision := Some("denied");
      }
    }

    method SetPriorApprovalDecision(decision: Option<string>)
      requires Valid()
      modifies this`deliveryDecision, this`priorDecision
      ensures Valid() && Value() == Step(old(Value()), Op.SetPriorApprovalDecision(decision))
    {
      hide Sound, Distinct;
      StepKeepsSound(Value(), Op.SetPriorApprovalDecision(decision));
      priorDecision := decision;
      if Locked(decision) {
        deliveryDecision := Some("denied");
      } else if decision != Some("granted") {
        priorDecision := None;
      }
    }

    method Cancel() returns (raised: Option<Error>)
      requires Valid()
      modifies this`status
      ensures raised == Refusal(old(Value()), Op.Cancel)
      ensures Valid() && Value() == Step(old(Value()), Op.Cancel)
    {
      hide Sound, Distinct;
      StepKeepsSound(Value(), Op.Cancel);
      if !status.InProgress? {
        return Some(PipelineEnded);
      }
      status := Cancelled;
      return None;
    }
  }
}
