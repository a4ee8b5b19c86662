/**
 What the delivery pipeline grants: exactly when each operation is accepted, and what it then leaves
 behind; in every reachable state a permitted retry is granted and its stage may begin again.
 */
module PipelineGrants {
  import opened Wrappers
  import opened Pipeline
  import opened PipelineProofs

  /** The stage at this place is the next to work on: all before it succeeded, and its inputs are there. */
  predicate IsNext(p: State, i: nat)
    requires WellKeyed(p)
  {
    && i < |p.contracts| && InProgress == p.status
    && (forall j :: 0 <= j < i ==> p.stageStatus[p.contracts[j].name] == StageSucceeded)
    && p.stageStatus[p.contracts[i].name] != StageSucceeded
    && p.contracts[i].requiredInputs <= p.produced
  }

  predicate IsRunning(p: State, stage: string) {
    p.status == InProgress && stage in p.stageStatus && p.stageStatus[stage] == StageRunning
  }

  // ---- Each operation: when it is accepted, and what it does ----

  /** Exactly the next stage may begin, pending, running or failed; it then runs, in one more attempt, and nothing else changes. */
  lemma {:induction false} BeginsTheNextStage(p: State, stage: string)
    requires WellKeyed(p)
    ensures Refusal(p, BeginStage(stage)).None? <==> exists i: nat :: IsNext(p, i) && p.contracts[i].name == stage
    ensures Refusal(p, BeginStage(stage)).None? ==>
      && stage in p.attempts
      && Step(p, BeginStage(stage)) == p.(stageStatus := p.stageStatus[stage := StageRunning],
                                          attempts := p.attempts[stage := p.attempts[stage] + 1])
  {
    var n := FirstIncomplete(p.contracts, p.stageStatus, 0);
    if i: nat :| IsNext(p, i) && p.contracts[i].name == stage {
      assert p.contracts[i].name in Names(p.contracts);
      assert i == n;
    }
    if n < |p.contracts| && EligibleStage(p) == Some(stage) {
      assert IsNext(p, n);
    }
  }

  /** A running stage may complete, human approval only when granted; it succeeds with what it emitted, and the pipeline with its last stage. */
  lemma {:induction false} RunningStagesComplete(p: State, stage: string, emitted: set<string>)
    requires WellKeyed(p)
    ensures Refusal(p, CompleteStage(stage, emitted)).None? <==>
      IsRunning(p, stage) && (stage == "human_approval" ==> p.deliveryDecision == Some("approved"))
    ensures Refusal(p, CompleteStage(stage, emitted)).None? ==>
      var after := Step(p, CompleteStage(stage, emitted));
      && after == p.(stageStatus := p.stageStatus[stage := StageSucceeded], produced := p.produced + emitted,
                     producedByStage := p.producedByStage[stage := emitted], status := after.status)
      && after.status == if (forall other :: other in after.stageStatus ==> after.stageStatus[other] == StageSucceeded)
                         then PipelineStatus.Succeeded else InProgress
  {
    var op := CompleteStage(stage, emitted);
    if Refusal(p, op).None? {
      StepKeepsKeys(p, op);
      AllSucceededAt(p.contracts, Step(p, op).stageStatus);
    }
  }

  /** A running stage may fail; with no attempt left the pipeline fails with it. */
  lemma {:induction false} RunningStagesFail(p: State, stage: string)
    requires WellKeyed(p)
    ensures Refusal(p, FailStage(stage)).None? <==> IsRunning(p, stage)
    ensures Refusal(p, FailStage(stage)).None? ==>
      && stage in p.attempts
      && Step(p, FailStage(stage)) == p.(stageStatus := p.stageStatus[stage := StageFailed],
           status := if p.attempts[stage] >= p.maxAttempts then PipelineStatus.Failed else InProgress)
  {
  }

  /** A running stage may attach evidence under a name not used yet, and it is there. */
  lemma {:induction false} RunningStagesAttach(p: State, stage: string, name: string, payload: string)
    requires WellKeyed(p)
    ensures Refusal(p, AttachArtifact(stage, name, payload)).None? <==> IsRunning(p, stage) && name !in p.evidence
    ensures Refusal(p, AttachArtifact(stage, name, payload)).None? ==>
      Step(p, AttachArtifact(stage, name, payload)) == p.(evidence := p.evidence[name := payload])
  {
  }

  /** A failed stage may be retried while it had fewer attempts than the policy allows. */
  lemma {:induction false} FailedStagesRetry(p: State, stage: string)
    requires WellKeyed(p)
    ensures Refusal(p, RetryStage(stage)).None? <==>
      stage in Names(p.contracts) && p.stageStatus[stage] == StageFailed && p.attempts[stage] < p.maxAttempts
  {
  }

  /** Only an explicit grant of a named principal approves, and only over no locking decision; the decision is all that changes. */
  lemma {:induction false} GrantsDecide(p: State, principal: Option<string>, approved: bool)
    requires WellKeyed(p)
    ensures var locked := p.priorDecision in {Some("denied"), Some("expired"), Some("requested")};
      Step(p, GrantHumanApproval(principal, approved)) == p.(deliveryDecision :=
        Some(if approved && principal != None && principal != Some("") && !locked then "approved" else "denied"))
  {
    hide FirstIncomplete, WellKeyed;
  }

  /** A locking decision is seeded and denies, a grant is seeded, anything else clears the prior decision. */
  lemma {:induction false} SeedsLock(p: State, decision: Option<string>)
    requires WellKeyed(p)
    ensures Step(p, SetPriorApprovalDecision(decision)) ==
      if decision in {Some("denied"), Some("expired"), Some("requested")}
      then p.(priorDecision := decision, deliveryDecision := Some("denied"))
      else p.(priorDecision := if decision == Some("granted") then decision else None)
  {
    hide FirstIncomplete, WellKeyed;
  }

  /** A pipeline in progress can be cancelled, and no other. */
  lemma {:induction false} CancelsEnd(p: State)
    requires WellKeyed(p)
    ensures Step(p, Op.Cancel) == if p.status == InProgress then p.(status := PipelineStatus.Cancelled) else p
  {
  }

  /** The stage an operation is about, if it is about one. */
  function StageOf(op: Op): Option<string> {
    match op
    case BeginStage(stage) => Some(stage)
    case CompleteStage(stage, _) => Some(stage)
    case FailStage(stage) => Some(stage)
    case AttachArtifact(stage, _, _) => Some(stage)
    case RetryStage(stage) => Some(stage)
    case _ => None
  }

  /** A refusal names its reason, and each reason is true. */
  lemma {:induction false} RefusalsTellWhy(p: State, op: Op)
    requires WellKeyed(p)
    ensures match Refusal(p, op)
      case None => true
      case Some(UnknownStage) => StageOf(op).Some? && StageOf(op).value !in p.stageStatus
      case Some(PipelineEnded) => p.status != InProgress && !op.RetryStage?
      case Some(AlreadySucceeded) => op.BeginStage? && op.stage in p.stageStatus && p.stageStatus[op.stage] == StageSucceeded
      case Some(NotEligible) => op.BeginStage? && op.stage in p.stageStatus && p.stageStatus[op.stage] != StageSucceeded
      case Some(NotRunning) => StageOf(op).Some? && StageOf(op).value in p.stageStatus && p.stageStatus[StageOf(op).value] != StageRunning
      case Some(ApprovalNotGranted) => op.CompleteStage? && op.stage == "human_approval" && p.deliveryDecision != Some("approved")
      case Some(ArtifactFrozen) => op.AttachArtifact? && op.name in p.evidence
      case Some(CannotRetry) => op.RetryStage? && op.stage in p.stageStatus
      case _ => false
  {
    hide FirstIncomplete;
  }

  // ---- Retries of reachable pipelines ----

  /**
   In every reachable state of a pipeline in progress a failed stage is granted its retry. It is then
   pending, with everything that was produced still there, and it may begin again at once.
   */
  lemma {:induction false} FailedStagesGetTheirRetry(contracts: seq<Contract>, maxAttempts: nat, ops: seq<Op>, stage: string)
    requires Distinct(contracts) && WellKeyed(Initial(contracts, maxAttempts)) && stage in Names(contracts)
    requires var p := After(Initial(contracts, maxAttempts), ops); p.status == InProgress && p.stageStatus[stage] == StageFailed
    ensures var p := After(Initial(contracts, maxAttempts), ops);
      && Refusal(p, RetryStage(stage)).None?
      && var after := Step(p, RetryStage(stage));
         && after == p.(stageStatus := p.stageStatus[stage := StagePending])
         && Refusal(after, BeginStage(stage)).None?
  {
    var p := After(Initial(contracts, maxAttempts), ops);
    InitialIsSound(contracts, maxAttempts);
    RunKeepsSound(Initial(contracts, maxAttempts), ops);
    RetryIsGranted(p, stage);
    hide After, Initial;
    RetriedMayBegin(p, stage);
  }

  lemma RetryIsGranted(p: State, stage: string)
    requires WellKeyed(p) && Sound(p) && p.status == InProgress && stage in Names(p.contracts) && p.stageStatus[stage] == StageFailed
    ensures Refusal(p, RetryStage(stage)).None?
    ensures Step(p, RetryStage(stage)) == p.(stageStatus := p.stageStatus[stage := StagePending])
  {
    RetryPurgesNothing(p, stage);
    hide InOrder, IsUnion, InputsHeld, BegunCounted;
    assert stage !in p.producedByStage;
    assert p.producedByStage - {stage} == p.producedByStage;
  }

  lemma RetriedMayBegin(p: State, stage: string)
    requires WellKeyed(p) && Sound(p) && p.status == InProgress && stage in Names(p.contracts) && p.stageStatus[stage] == StageFailed
    ensures var after := p.(stageStatus := p.stageStatus[stage := StagePending]);
      WellKeyed(after) && Refusal(after, BeginStage(stage)).None?
  {
    hide SucceededEmitted, IsUnion, StatusAgrees;
    var n := FirstIncomplete(p.contracts, p.stageStatus, 0);
    var i := IndexOf(p.contracts, stage);
    AroundIncomplete(p.contracts, p.stageStatus, n);
    assert i == n;
    var after := p.(stageStatus := p.stageStatus[stage := StagePending]);
    assert after.stageStatus.Keys == Names(p.contracts);
    assert IsNext(after, n);
    BeginsTheNextStage(after, stage);
  }
}
