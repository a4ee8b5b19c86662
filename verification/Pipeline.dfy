/**
 The delivery pipeline: a linear stage machine over handoff contracts. Every operation is a step on
 the pipeline's value; a refused operation names its reason and changes nothing.
 */
module Pipeline {
  import opened Wrappers

  datatype Contract = Contract(name: string, requiredInputs: set<string>, produces: set<string>)

  datatype PipelineStatus = InProgress | Succeeded | Failed | Cancelled

  datatype StageStatus = StagePending | StageRunning | StageSucceeded | StageFailed

  /** The artifacts held and which stage emitted them. */
  datatype State = State(
    contracts: seq<Contract>,
    maxAttempts: nat,
    status: PipelineStatus,
    stageStatus: map<string, StageStatus>,
    attempts: map<string, nat>,
    produced: set<string>,
    producedByStage: map<string, set<string>>,
    evidence: map<string, string>,
    deliveryDecision: Option<string>,
    priorDecision: Option<string>)

  datatype Error =
    | UnknownStage | PipelineEnded | AlreadySucceeded | NotEligible | NotRunning | ApprovalNotGranted
    | ArtifactFrozen | CannotRetry | InvalidGraph | InvalidPolicy

  // ---- The contract graph ----

  /** What the first n stages emit when each keeps its contract. */
  function ProducedBefore(contracts: seq<Contract>, n: nat): set<string>
    requires n <= |contracts|
  {
    if n == 0 then {} else ProducedBefore(contracts, n - 1) + contracts[n - 1].produces
  }

  predicate ValidGraph(contracts: seq<Contract>) {
    forall i :: 0 <= i < |contracts| ==> contracts[i].requiredInputs <= ProducedBefore(contracts, i)
  }

  method ValidatePipelineGraph(contracts: seq<Contract>) returns (valid: bool)
    ensures valid <==> ValidGraph(contracts)
  {
    var producedSoFar := {};
    for i := 0 to |contracts|
      invariant producedSoFar == ProducedBefore(contracts, i)
      invariant forall j :: 0 <= j < i ==> contracts[j].requiredInputs <= ProducedBefore(contracts, j)
    {
      var missing := contracts[i].requiredInputs - producedSoFar;
      if missing != {} {
        assert !(contracts[i].requiredInputs <= ProducedBefore(contracts, i));
        return false;
      }
      assert forall artifact :: artifact in contracts[i].requiredInputs ==> artifact !in missing && artifact in producedSoFar;
      producedSoFar := producedSoFar + contracts[i].produces;
    }
    return true;
  }

  function Names(contracts: seq<Contract>): set<string> {
    set i | 0 <= i < |contracts| :: contracts[i].name
  }

  /** Stage names are the keys of a dictionary. */
  predicate Distinct(contracts: seq<Contract>) {
    forall i, j :: 0 <= i < j < |contracts| ==> contracts[i].name != contracts[j].name
  }

  function IndexOf(contracts: seq<Contract>, stage: string): (i: nat)
    requires stage in Names(contracts)
    ensures i < |contracts| && contracts[i].name == stage
  {
    if contracts[|contracts| - 1].name == stage then |contracts| - 1
    else
      assert forall j :: 0 <= j < |contracts| - 1 ==> contracts[j] == contracts[..|contracts| - 1][j];
      IndexOf(contracts[..|contracts| - 1], stage)
  }

  const DEFAULT_CONTRACTS: seq<Contract> := [
    Contract("planner", {}, {"plan", "task_spec"}),
    Contract("coder", {"plan"}, {"code", "change_set"}),
    Contract("reviewer", {"change_set"}, {"review"}),
    Contract("tester", {"code", "review"}, {"verification"}),
    Contract("human_approval", {"verification"}, {"delivery_decision"})]

  // ---- Queries ----

  predicate Ended(p: State) { !p.status.InProgress? }

  predicate WellKeyed(p: State) {
    && Distinct(p.contracts)
    && p.stageStatus.Keys == Names(p.contracts)
    && p.attempts.Keys == Names(p.contracts)
  }

  /** The index of the first stage that has not succeeded, from the i-th on; the number of stages if all have. */
  function FirstIncomplete(contracts: seq<Contract>, stageStatus: map<string, StageStatus>, i: nat): (r: nat)
    requires i <= |contracts| && stageStatus.Keys == Names(contracts)
    ensures i <= r <= |contracts|
    ensures forall j :: i <= j < r ==> stageStatus[contracts[j].name].StageSucceeded?
    ensures r < |contracts| ==> !stageStatus[contracts[r].name].StageSucceeded?
    decreases |contracts| - i
  {
    if i == |contracts| || !stageStatus[contracts[i].name].StageSucceeded? then i
    else FirstIncomplete(contracts, stageStatus, i + 1)
  }

  function EligibleStage(p: State): Option<string>
    requires WellKeyed(p)
  {
    var target := FirstIncomplete(p.contracts, p.stageStatus, 0);
    if Ended(p) || target == |p.contracts| then None
    else if p.contracts[target].requiredInputs <= p.produced then Some(p.contracts[target].name)
    else None
  }

  predicate CanRetry(p: State, stage: string)
    requires WellKeyed(p) && stage in Names(p.contracts)
  {
    p.stageStatus[stage].StageFailed? && p.attempts[stage] < p.maxAttempts
  }

  // ---- Operations ----

  datatype Op =
    | BeginStage(stage: string)
    | CompleteStage(stage: string, emitted: set<string>)
    | FailStage(stage: string)
    | AttachArtifact(stage: string, name: string, payload: string)
    | RetryStage(stage: string)
    | GrantHumanApproval(principal: Option<string>, approved: bool)
    | SetPriorApprovalDecision(decision: Option<string>)
    | Cancel

  function Initial(contracts: seq<Contract>, maxAttempts: nat): State {
    State(contracts, maxAttempts, InProgress,
          map stage | stage in Names(contracts) :: StagePending,
          map stage | stage in Names(contracts) :: 0,
          {}, map[], map[], None, None)
  }

  function BeginRefusal(p: State, stage: string): Option<Error>
    requires WellKeyed(p)
  {
    if stage !in Names(p.contracts) then Some(UnknownStage)
    else if Ended(p) then Some(PipelineEnded)
    else if p.stageStatus[stage].StageSucceeded? then Some(AlreadySucceeded)
    else if EligibleStage(p) != Some(stage) then Some(NotEligible)
    else None
  }

  /** The test shared by completing, failing and attaching: the order of its parts differs only for an unknown stage. */
  function RunningRefusal(p: State, stage: string): Option<Error>
    requires WellKeyed(p)
  {
    if Ended(p) then Some(PipelineEnded)
    else if stage !in Names(p.contracts) then Some(UnknownStage)
    else if !p.stageStatus[stage].StageRunning? then Some(NotRunning)
    else None
  }

  predicate Locked(decision: Option<string>) {
    decision == Some("denied") || decision == Some("expired") || decision == Some("requested")
  }

  function Refusal(p: State, op: Op): Option<Error>
    requires WellKeyed(p)
  {
    match op
    case BeginStage(stage) => BeginRefusal(p, stage)
    case CompleteStage(stage, _) =>
      if RunningRefusal(p, stage).Some? then RunningRefusal(p, stage)
      else if stage == "human_approval" && p.deliveryDecision != Some("approved") then Some(ApprovalNotGranted)
      else None
    case FailStage(stage) => RunningRefusal(p, stage)
    case AttachArtifact(stage, name, _) =>
      if RunningRefusal(p, stage).Some? then RunningRefusal(p, stage)
      else if name in p.evidence then Some(ArtifactFrozen)
      else None
    case RetryStage(stage) =>
      if stage !in Names(p.contracts) then Some(UnknownStage)
      else if !CanRetry(p, stage) then Some(CannotRetry)
      else None
    case Cancel => if Ended(p) then Some(PipelineEnded) else None
    case _ => None
  }

  /** Only an explicit grant by a named principal approves, and never over a locking prior decision. */
  function GrantedDecision(prior: Option<string>, principal: Option<string>, approved: bool): string {
    if Locked(prior) then "denied"
    else if approved && principal.Some? && principal.value != "" then "approved"
    else "denied"
  }

  function Begun(p: State, stage: string): State
    requires WellKeyed(p) && stage in Names(p.contracts)
  {
    p.(attempts := p.attempts[stage := p.attempts[stage] + 1], stageStatus := p.stageStatus[stage := StageRunning])
  }

  function Completed(p: State, stage: string, emitted: set<string>): State
    requires WellKeyed(p) && stage in Names(p.contracts)
  {
    var stageStatus := p.stageStatus[stage := StageSucceeded];
    p.(stageStatus := stageStatus,
       producedByStage := p.producedByStage[stage := emitted],
       produced := p.produced + emitted,
       status := if FirstIncomplete(p.contracts, stageStatus, 0) == |p.contracts| then Succeeded else p.status)
  }

  function StageFails(p: State, stage: string): State
    requires WellKeyed(p) && stage in Names(p.contracts)
  {
    p.(stageStatus := p.stageStatus[stage := StageFailed],
       status := if p.attempts[stage] < p.maxAttempts then p.status else Failed)
  }

  function Retried(p: State, stage: string): State
    requires WellKeyed(p) && stage in Names(p.contracts)
  {
    var stale := if stage in p.producedByStage then p.producedByStage[stage] else {};
    p.(stageStatus := p.stageStatus[stage := StagePending],
       producedByStage := p.producedByStage - {stage},
       produced := p.produced - stale)
  }

  function Seeded(p: State, decision: Option<string>): State {
    if Locked(decision) then p.(priorDecision := decision, deliveryDecision := Some("denied"))
    else p.(priorDecision := if decision == Some("granted") then decision else None)
  }

  function Step(p: State, op: Op): State
    requires WellKeyed(p)
  {
    if Refusal(p, op).Some? then p
    else
      match op
      case BeginStage(stage) => Begun(p, stage)
      case CompleteStage(stage, emitted) => Completed(p, stage, emitted)
      case FailStage(stage) => StageFails(p, stage)
      case AttachArtifact(_, name, payload) => p.(evidence := p.evidence[name := payload])
      case RetryStage(stage) => Retried(p, stage)
      case GrantHumanApproval(principal, approved) =>
        p.(deliveryDecision := Some(GrantedDecision(p.priorDecision, principal, approved)))
      case SetPriorApprovalDecision(decision) => Seeded(p, decision)
      case Cancel => p.(status := Cancelled)
  }
}
