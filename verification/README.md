# Crewspace protocol models

A Dafny model of the stateful protocol layer of Crewspace: the connections of remote agents, the
workflow executor, the team inbox and its event log, coding runs with their change sets, the
delivery pipeline, ordered event resume, and a few smaller algorithms. Each stretch of code between
two awaits is one atomic step, and each unit of work is one transaction.

Most parts have the same shape. The state is a value, each operation a function on it, and a run is
a sequence of events from the initial state; lemmas show what every step keeps and what therefore
holds of every run. Beside it stands a class whose fields the methods update in place, as the
program does; each method is proved to take the very step the function describes. Some fields of the
state are kept for the statements only and stored nowhere: who is inside a request, what was
accepted, claimed or sent so far.

| files | what they hold |
|---|---|
| `ConnectionState`, `ConnectionProofs`, `AgentConnectionManager` | the tables of the agent connection manager, the steps on them, their invariants, and the manager itself |
| `ConnectionAnswers`, `ConnectionGrants` | what callers are told, and what the manager takes and refuses |
| `AgentFrames`, `CodingFrames` | the gates and the dispatch of the frame loop, and the coding frames, where connections meet the tables of runs |
| `Workflows`, `WorkflowHistory`, `WorkflowService` | executing a workflow, histories of runs turn by turn, and the service |
| `WorkflowChains`, `WorkflowExceptions` | what a retry rebuilds along a chain of attempts; forked lineages and approvals, where it is something else |
| `WorkflowEntries` | the entries and the error a run keeps, and what they stand for |
| `Inbox`, `InboxEvents`, `InboxStore` | the projection, the event log, and the store that publishes to it |
| `InboxDecisions` | what decisions change and how long they last, and the items records give |
| `CodingRuns`, `CodingRunService` | coding runs and change sets as compare-and-set machines, and the tables updated in place |
| `CodingRunOutcomes` | what each operation stores: orders, deliveries, ends and decisions |
| `OutputTail` | the bounded tail of a run's output, with UTF-8 as in section 3 of RFC 3629 |
| `Pipeline`, `PipelineProofs`, `DeliveryPipeline` | the delivery pipeline, its results, and the object |
| `PipelineGrants` | what the pipeline permits, and what then changes |
| `Events` | ordering, resume, deduplication and numbering of execution events |
| `SchemaControls`, `Json` | the worklist that checks tool schemas, and JSON values |
| `RemoteAgent`, `RemoteAnswers` | the example agent's once-only handling of coding runs across reconnects, and the frames it sends |
| `BoardViews`, `BoardGroups`, `BoardTimeline`, `IsoDates` | groupings and timeline of a planning view, and calendar dates as text (ISO 8601) |
| `Sorting`, `Wrappers` | stable sorting and filtering of sequences, options and results |

Assumptions: sockets, frame-session ids and request ids are new when they first appear; a change set
is stored under its run, which the table holds unique; the workflow definition does not change
between attempts. Signature checks, workflow
actions, agent subprocesses, workspace allocation and capture, the remote answer to a workspace
action, Python's text of an error that is no string, and the reading of dates are inputs.

Where code and documentation disagree, the model follows the code:

- `events_after` is documented as still including events whose place before the cursor was not
  known. It drops whatever sorts at or below the cursor: `Events.ResumeIsGapFree` says when that
  leaves no gap, `Events.EarlierRunIsMissed` shows one.
- Frame numbers are there so that no frame of a session is taken twice. Between a reconnect and its
  hello the profile is legacy and takes every frame: `AgentFrames.ReplayStopsExactlyWhereNegotiated`
  gives the condition, `AgentFrames.NextSocketTakesTheFrameAgain` the case.
- `RetryPolicy` is documented as capping how often a stage is attempted. It caps failures:
  `PipelineProofs.OnlyARestartExceedsThePolicy` says when attempts go over it,
  `PipelineProofs.BegunTwiceExceedsThePolicy` shows it.
- A prior denial is documented as never overridden by a later grant. Seeding another decision lifts
  it: `PipelineProofs.DenialStandsUntilReseeded`, `PipelineProofs.ReseedingLiftsADenial`.
- The cancel handler of the example agent promises no change set after the cancel was recorded.
  `RemoteAgent.CancelSilences` gives the exception, `RemoteAgent.CancelDuringCapture` a run with it.
- Retried workflows are meant to resume with the outputs of earlier attempts. A retry resumes with
  those of every attempt of its lineage, siblings included (`WorkflowExceptions.ForkInheritsASibling`),
  and also with those its own failed attempt had lost to an approval
  (`WorkflowExceptions.RetryBringsBackThePause`): it is the approval that drops outputs
  (`WorkflowExceptions.ApprovalForgetsOutputs`).
- `inbox_store` names the resolution of an item as state of the inbox alone. A reconciliation takes
  it from the record: `Inbox.ResolveSurvivesWithItsRecord`.

`dafny verify dfyconfig.toml` checks the whole project.

## Model

| member | source | states |
|---|---|---|
| ConnectionProofs.CapacityIsAccounted | src/crewspace/api/connection.py:276-315 | In every reachable state a connected agent's active runs are its reported activity plus the requests in flight on its current socket, the reservation count is the number of those requests, the total is within `max_concurrency`, and no other socket has a reservation |
| ConnectionProofs.NeverBelowActiveRuns | src/crewspace/api/connection.py:317-365 | The refusal "max concurrency is below active runs" cannot be reached |
| ConnectionProofs.WaitersAreOnTheCurrentSocket | src/crewspace/api/connection.py:195-226 | Every registered waiter belongs to a live request on its agent's current socket, and every pending live request is registered |
| ConnectionProofs.OutcomesAreFinal | src/crewspace/api/connection.py:399-458 | A settled future keeps its outcome over any continuation: timeouts, late replies, losses and shutdown included |
| ConnectionProofs.LosingASocketFailsExactlyItsRequests | src/crewspace/api/connection.py:117-187 | Disconnecting, closing or replacing a socket fails exactly the requests still pending on it, with the reason of the loss, and leaves every other future as it was |
| ConnectionProofs.ResultsMatchTheirRequest | src/crewspace/api/connection.py:565-718 | A future never holds a change set or workspace result that differs from what its own request asked for |
| ConnectionProofs.CloseIsDrop | src/crewspace/api/connection.py:178-187 | Closing an agent's connection has the effect of losing its socket: the order in which `close` clears its tables leaves nothing behind |
| ConnectionProofs.CloseAgain | src/crewspace/api/connection.py:178-187 | A repeated close changes nothing |
| ConnectionProofs.ReplaceIsDropThenConnect | src/crewspace/api/connection.py:117-131 | Replacing a socket is losing the old one and connecting anew |
| ConnectionProofs.AcceptedNumbersRise | src/crewspace/api/connection.py:228-248 | Over all reconnects the numbers accepted under a negotiated profile strictly increase within a session, so no (session, number) pair is accepted twice under one; what a legacy profile lets through carries no accepted number and is outside this |
| ConnectionProofs.OnlyTheCurrentSocketIsHeard | src/crewspace/api/connection.py:228-248 | Only the current socket's frames are accepted; a connected agent's profile is legacy exactly when its socket has no frame session |
| ConnectionProofs.EachSocketNegotiatesOnce | src/crewspace/api/connection.py:317-365 | Each socket negotiates at most once |
| ConnectionProofs.ConnectedAgentsHaveProfiles | src/crewspace/api/connection.py:117-145 | Connections, profiles and reported activity have the same agents, and each waiter has an owner and a future, so no unguarded lookup fails |
| ConnectionProofs.ReachableInvariant | src/crewspace/api/connection.py:91-718 | Every sequence of connects, losses, negotiations, frames, requests, timeouts and deliveries keeps the accounting, the correlation and the replay protection of the tables |
| ConnectionAnswers.StepAnswers | src/crewspace/api/connection.py:399-458 | In every reachable state a step settles the caller that waits for what it brings, with exactly that: the reply's own value, a matching change set or workspace result, an error text of 1 to 4,096 characters, or the error, the cancellation or the reason of the loss; every other future stays as it was |
| ConnectionAnswers.OutcomesAreWhatWasSent | src/crewspace/api/connection.py:399-718 | Over all runs a future holds an outcome if and only if some step brought just that outcome for its request while its caller waited |
| ConnectionAnswers.WaitersWait | src/crewspace/api/connection.py:406-451 | A registered waiter that has no answer waits on its agent's current socket |
| ConnectionAnswers.PendingWaits | src/crewspace/api/connection.py:195-226 | A live request that has no answer waits, and nobody else does |
| ConnectionGrants.ConnectingStartsLegacy | src/crewspace/api/connection.py:117-131 | A new socket is its agent's only one, has no frame session and nothing in flight, and may send progress and tool frames, one request at a time |
| ConnectionGrants.LosingForgetsTheAgent | src/crewspace/api/connection.py:133-187 | A lost or closed connection takes its agent, its session and its reservations with it, and nothing of anyone else |
| ConnectionGrants.LateDisconnectIsIgnored | src/crewspace/api/connection.py:133-145 | A socket that was replaced loses nothing when it disconnects |
| ConnectionGrants.RequestsAreTakenWhileASlotIsFree | src/crewspace/api/connection.py:283-296 | In every reachable state a request is taken if and only if its agent is connected, it is a proper one the agent can serve, and reported activity plus requests in flight are below the announced capacity |
| ConnectionGrants.RefusedRequestsAreToldWhy | src/crewspace/api/connection.py:506-535 | A refused request is told what is wrong with it, and that the agent is busy only when nothing else is |
| ConnectionGrants.TakenRequestsWait | src/crewspace/api/connection.py:406-430 | The caller of a request that was taken waits for it on the current socket, in one more slot; nobody else is touched |
| ConnectionGrants.ReturningFreesTheSlot | src/crewspace/api/connection.py:441-451 | A request that returns gives its slot back, is in no table any more, and leaves every future alone |
| ConnectionGrants.ProgressIsCounted | src/crewspace/api/connection.py:460-478 | Progress is counted frame by frame and byte by byte exactly while it stays within 256 frames and 1 MiB |
| ConnectionGrants.SafeBranchesHaveNamedParts | src/crewspace/api/connection.py:618-624 | A branch is accepted if and only if it is "crewspace" and one or more names joined by slashes, none of them empty, "." or "..", at most 255 characters in all |
| ConnectionGrants.JoinedPartsSplit | src/crewspace/api/connection.py:622-622 | Splitting at slashes what was joined with slashes gives the parts back |
| ConnectionGrants.CharactersAreThese | src/crewspace/api/connection.py:38-38 | Identifiers are 1 to 64 ASCII letters, digits, underscores and hyphens, neither of the latter two in front; white space is what Unicode says |
| ConnectionGrants.PartsJoin | src/crewspace/api/connection.py:622-622 | The parts a name is split into have no slash in them and, joined by slashes, are the name |
| ConnectionGrants.ProperHellosAreTaken | src/crewspace/api/connection.py:317-352 | The first hello of a current socket is taken if and only if it announces protocol 1, a version that is not blank, known capabilities and a capacity of 1 to 64 |
| ConnectionGrants.RefusedHellosAreToldWhy | src/crewspace/api/connection.py:317-352 | A refused hello is told what is wrong with it; that it allows less than is running is never the reason |
| ConnectionGrants.TakenHellosSetTheProfile | src/crewspace/api/connection.py:353-365 | A hello that is taken opens a session without a number and gives the agent the profile it announced, with what is in flight counted |
| ConnectionGrants.StripTrims | src/crewspace/api/connection.py:357-357 | The version stored is the announced one without the white space around it |
| ConnectionGrants.FittingReportsAreTaken | src/crewspace/api/connection.py:367-381 | A report of activity is taken over if and only if it comes on the current socket and fits beside what is in flight |
| ConnectionGrants.TakenReportsCount | src/crewspace/api/connection.py:382-388 | The activity reported then is what the agent's runs are counted from; nothing else changes |
| ConnectionGrants.NewerFramesAreTaken | src/crewspace/api/connection.py:228-248 | A negotiated agent's frame is let through if and only if it comes on the current socket, in its session, with a number above every one this session let through |
| AgentConnectionManager.Connections.Connect | src/crewspace/api/connection.py:117-131 | Registers the socket, drops the one it replaces with everything on it, and starts a legacy profile |
| AgentConnectionManager.Connections.Reset | src/crewspace/api/connection.py:147-176 | Forgets every table and cancels exactly the futures still waiting |
| AgentConnectionManager.Connections.FailSocketRequests | src/crewspace/api/connection.py:195-226 | The loop over the socket's requests fails each registered one and unregisters them all |
| AgentConnectionManager.Connections.NegotiateCapabilities | src/crewspace/api/connection.py:317-365 | Refuses with the first error in the order of the checks, or opens the frame session and the negotiated profile |
| AgentConnectionManager.Connections.ValidateFrameSequence | src/crewspace/api/connection.py:228-248 | Accepts exactly the current socket's frames that are legacy or carry its session and a higher number, and records that number |
| AgentConnectionManager.Connections.BeginRequest | src/crewspace/api/connection.py:406-430 | Checks, reserves and registers a request before its first await, or changes nothing |
| AgentConnectionManager.Connections.FinishRequest | src/crewspace/api/connection.py:441-451 | The `finally` block: forgets the request and gives its slot back |
| AgentConnectionManager.Connections.DeliverChangeSet | src/crewspace/api/connection.py:551-563 | Settles an open coding future with its change set, or with the error when the frame is malformed or not its own |
| AgentConnectionManager.Connections.DeliverWorkspaceActionResult | src/crewspace/api/connection.py:659-701 | Settles an open workspace future of this socket, and reports success exactly when the result matches all that was asked for |
| AgentFrames.HandleFrame | src/crewspace/api/routers/agents.py:53-178 | The gates in order: a stale socket, a bad signature and a bad sequence number each leave the manager untouched; a frame that passes takes it through possible steps of the connection machine |
| AgentFrames.HandleBody | src/crewspace/api/routers/agents.py:72-178 | What each kind of frame does after the gates: one step at most; without its capability it does nothing and the answer names the capability, exactly then. What callers are handed is `PassingFramesAnswer` |
| AgentFrames.StepsArePossible | src/crewspace/api/routers/agents.py:53-178 | The steps of a frame are always possible ones, so every result about connection runs holds of the frame loop |
| AgentFrames.ReplayStopsExactlyWhereNegotiated | src/crewspace/api/routers/agents.py:53-71 | The copy of a frame that a negotiated connection let through passes the gates again, whatever came between, exactly on a current socket that has not negotiated |
| AgentFrames.NextSocketTakesTheFrameAgain | src/crewspace/api/connection.py:117-131 | Every frame of a session passes the gates once more on the agent's next socket, until that one has negotiated |
| AgentFrames.CheckCodingChangeSet | src/crewspace/api/routers/agents.py:220-232 | A change set that is malformed or not its request's is reported to the waiter at once; otherwise only the check is remembered |
| AgentFrames.GatesStandInOrder | src/crewspace/api/routers/agents.py:53-71 | In every reachable state a frame is stopped at the first gate it does not fit, and at the last one only when its session is not the socket's or its number is not above all that were let through |
| AgentFrames.PassingFramesAnswer | src/crewspace/api/routers/agents.py:72-178 | A frame that passed the gates hands the caller that waits for it exactly what it carries, if its agent has the capability; no other future changes |
| AgentFrames.PassingFramesCount | src/crewspace/api/routers/agents.py:72-130 | A frame that passed leaves its number behind in its session, and counts as the progress or the report of activity that it is; connections stay as they are |
| AgentFrames.HelloFramesNegotiate | src/crewspace/api/routers/agents.py:60-90 | A signed hello of the current socket is negotiated, and nothing else is done for it |
| CodingFrames.StoreCodingChangeSet | src/crewspace/api/routers/agents.py:233-250 | The unit of work of a change-set frame: nothing for an ended run, an error told at once and nothing stored for a refused one, and otherwise the change set stored and its delivery still owed |
| CodingFrames.FailCodingRun | src/crewspace/api/routers/agents.py:284-306 | The unit of work of a failure frame: fails the run of the request, and owes the failure to the caller unless that run had already ended |
| CodingFrames.TellCaller | src/crewspace/api/routers/agents.py:251-252 | The rest of either handler, after its unit of work: settles the future of the sending agent's request |
| CodingFrames.CallersAreToldOnlyWhatIsStored | src/crewspace/api/routers/agents.py:220-252 | Over every interleaving of connection steps, table changes, commits and the deliveries owed after them, a caller is told of a change set, or owed one, only if it is stored, for the run, agent, request and repository of that call, and the run succeeded |
| CodingFrames.FailureFrameFails | src/crewspace/api/routers/agents.py:284-307 | A failure frame fails a run exactly when its sender has the capability, it names the run's request and the run is live; who sends it makes no difference |
| CodingFrames.OnlyTheOwnerFails | src/crewspace/api/routers/agents.py:284-307 | Only the agent a run was dispatched to can fail it exactly when the run has ended or no other agent with the capability is connected |
| CodingFrames.StrangersFailureSilencesTheOwner | src/crewspace/api/routers/agents.py:237-252 | After another agent failed a run, frames of the agent it was dispatched to store nothing and owe its caller nothing |
| CodingFrames.ManagerCapturesNothing | src/crewspace/api/connection.py:399-718 | No step of the manager except a completion after storing puts a change set into a future |
| CodingFrames.DeliveriesAreStoredAndOwed | src/crewspace/api/routers/agents.py:233-252 | A frame that delivers a running run's own order is stored, the run succeeds, and its caller is owed the change set |
| CodingFrames.OtherFramesStoreNothing | src/crewspace/api/routers/agents.py:233-250 | Any other change-set frame stores nothing: for a run that ended it is dropped, and otherwise a caller that waits is told why at once |
| CodingFrames.OwedIsPaid | src/crewspace/api/routers/agents.py:251-252 | What is owed is paid in full: a caller that still waits gets the very change set or error, and nobody else anything |
| CodingFrames.FailureFramesAreOwed | src/crewspace/api/routers/agents.py:284-306 | A failure frame is owed to its caller exactly when its agent has the capability and the request's run has not ended |
| Workflows.ExecuteWellFormed | src/crewspace/application/workflows.py:305-371 | Executing from any step leaves one non-failed result for each step from the start to `current_step`, in order, plus one failed result exactly when an action failed |
| Workflows.ExecuteAppends | src/crewspace/application/workflows.py:305-371 | An execution only adds results behind those it found |
| Workflows.ExecuteAbsorbs | src/crewspace/application/workflows.py:296-348 | The context held at the end is the base context with the succeeded outputs of all results put in |
| Workflows.FailureSplits | src/crewspace/application/workflows.py:305-371 | What was done before a failure plus what a run that never fails does from there is what it does from the start |
| WorkflowHistory.HistoryKeepsRuns | src/crewspace/application/workflows.py:282-371 | In every state of every history of starts, single turns, retries and decisions, those between two steps included, each run's results cover its steps in order, its context holds exactly what it inherited and recorded since it was last approved, and each retry's parent failed at the step it starts from |
| WorkflowHistory.FinishIsAdvances | src/crewspace/application/workflows.py:305-371 | Working a run off is a sequence of single turns, so its states in between are those the histories contain |
| WorkflowHistory.DecisionIsSound | src/crewspace/application/workflows.py:520-536 | A paused run that is approved or rejected keeps its results in order, and its context accounts for what it still knows |
| WorkflowHistory.DescendantsStartLater | src/crewspace/application/workflows.py:373-422 | A retry, direct or not, starts no earlier than where its ancestor stopped |
| WorkflowHistory.NoStepTwiceAlongAChain | src/crewspace/application/workflows.py:373-422 | Along a chain of parents no step is completed or skipped twice |
| WorkflowChains.LineageIsChain | src/crewspace/application/workflows.py:384-391 | For a linear chain, filtering by root and sorting by attempt gives back the chain, whatever else is listed |
| WorkflowChains.RetryRebuildsContext | src/crewspace/application/workflows.py:382-422 | Along a linear chain of attempts, each with any number of approvals, the context a retry rebuilds is the one the failed attempt held exactly when every output an approval made it forget was recorded again or was in the event's own context with that value |
| WorkflowChains.RetriesEqualNeverFailing | src/crewspace/application/workflows.py:373-422 | With deterministic actions that may fail, a failure retried to completion records the results of an execution that never failed |
| WorkflowChains.SomeChainCompletes | src/crewspace/application/workflows.py:373-422 | Such a chain: an attempt that failed and its retry that completed |
| WorkflowExceptions.SiblingOutputsAreInherited | src/crewspace/application/workflows.py:393-399 | What a retry inherits from its whole lineage is what a part of it (its ancestors, say) would leave it exactly when no other attempt up to the failed one recorded an output |
| WorkflowExceptions.ForkInheritsASibling | src/crewspace/application/workflows.py:393-399 | A history in which the second retry of a run fails at its first step and, retried itself, starts with an output of the first retry it never saw |
| WorkflowExceptions.ApprovalForgetsOutputs | src/crewspace/application/workflows.py:520-536 | In every history an approval resumes a waiting run with the context it held at the pause exactly when every output it held, inherited or its own, was in the event's own context with that value |
| WorkflowExceptions.ApprovalStepIsForgotten | src/crewspace/application/workflows.py:520-536 | When no step is named like a field of the event, the output of the approval step itself is lost by every approval |
| WorkflowExceptions.RetryBringsBackThePause | src/crewspace/application/workflows.py:393-399 | A history in which a run is approved, fails without the output of its approval step, and is retried with it |
| WorkflowEntries.ContextsBeginWithTheEvent | src/crewspace/application/workflows.py:296-303 | A run begins with the fields of its event, and the fixed names in place of fields so called |
| WorkflowEntries.TurnsRecordWhatHappened | src/crewspace/application/workflows.py:305-371 | A turn at a step adds the entry of that step: skipped with its condition, failed with the error raised as its output, or succeeded with what the action gave, a pause included. An error is the error of the run and stops it at that step; a pause leaves it waiting behind the step; otherwise it runs on |
| WorkflowEntries.TurnsEndTheRun | src/crewspace/application/workflows.py:363-371 | A turn past the last step completes the run and records nothing |
| WorkflowEntries.EntriesAreWhatHappened | src/crewspace/application/workflows.py:282-371 | In every history each entry of each run is what some turn of that very run found its step to do |
| WorkflowEntries.ErrorsAreExplained | src/crewspace/application/workflows.py:349-364 | In every history a failed run carries the text its last step failed with, or the rejection text when no step failed; a run that did not fail has no error |
| WorkflowEntries.StartsAreFirstAttempts | src/crewspace/application/workflows.py:282-294 | A start adds a first attempt without ancestors, which holds the context of its event |
| WorkflowEntries.RetriesContinueTheLineage | src/crewspace/application/workflows.py:373-422 | In every state of the store a retry is taken if and only if the run is one of this workflow, failed, and its step is still there; it adds one attempt at the same root with the event of the run, from the step that failed, numbered one above the highest attempt at that root |
| WorkflowEntries.DecisionsResumeOrFail | src/crewspace/application/workflows.py:520-536 | An approval lets a paused run go on behind its approval step, a rejection fails it there with the rejection text; no other run is touched |
| WorkflowService.Perform | src/crewspace/application/workflows.py:282-371 | The loop over the steps leaves the run, and the context, of the execution from that step with the inherited results put in |
| WorkflowService.Start | src/crewspace/application/workflows.py:282-294 | A new run is the execution from step zero with nothing inherited |
| WorkflowService.ContextResults | src/crewspace/application/workflows.py:393-399 | The loop collects the succeeded results of the lineage up to the failed attempt, attempt by attempt |
| WorkflowService.RetryFailed | src/crewspace/application/workflows.py:373-422 | Refuses a foreign run, one that did not fail and one past the last step; otherwise runs the next attempt from the failing step |
| WorkflowService.Approve | src/crewspace/application/workflows.py:520-536 | Refuses a run that is not waiting; rejects or resumes it |
| Inbox.ProjectionIsExact | src/crewspace/application/inbox.py:120-147 | The projection is strictly ordered by priority and id, of one team, without duplicates, and holds for each id exactly the last item its records give |
| Inbox.LastItemComesFromTheTeam | src/crewspace/application/inbox.py:128-146 | Every projected item comes from a record of the requested team |
| Inbox.ItemIdNamesItsSource | src/crewspace/application/inbox.py:75-78 | Two records whose items share an id have the same source type and source id |
| Inbox.ReconciledIsWellOrdered | src/crewspace/application/inbox.py:150-180 | A reconciled list is duplicate-free, of one team and strictly ordered by priority then id |
| Inbox.ReconcileKeepsDecisions | src/crewspace/application/inbox.py:167-180 | A surviving item is its latest record's item with the acknowledgement and the owner decided before; whether it is resolved comes from the record; one whose record needs no attention is gone |
| Inbox.ResolveSurvivesWithItsRecord | src/crewspace/application/inbox.py:150-180 | A local resolve survives the next reconciliation exactly when the latest record of the item is resolved too |
| Inbox.ReconcileIsIdempotent | src/crewspace/application/inbox.py:150-180 | Reconciling again with the same records changes nothing |
| Inbox.DecideKeepsOrder | src/crewspace/application/inbox.py:248-270 | Acknowledging, assigning and resolving keep the list ordered and duplicate-free |
| InboxDecisions.DecisionsChangeTheirItemAlone | src/crewspace/application/inbox.py:248-270 | An acknowledgement sets `acknowledged`, an assignment the owner and a resolve `resolved`, in the item of that id alone; every other field and every other item is unchanged |
| InboxDecisions.DecisionsAreFound | src/crewspace/application/inbox.py:248-270 | Looked up by id, the item decided about is the old one with exactly that field changed, and every other item the old one |
| InboxDecisions.AcknowledgementsLast | src/crewspace/application/inbox.py:150-180 | Over any decisions and reconciliations an acknowledgement lasts while the record needs attention |
| InboxDecisions.OwnersLast | src/crewspace/application/inbox.py:150-180 | Over any decisions and reconciliations an assigned owner stays until another is assigned, while the record needs attention |
| InboxDecisions.AnnouncedCountIsUnread | src/crewspace/application/inbox_events.py:19-21 | The count announced last is the number of items that are neither acknowledged nor resolved |
| InboxDecisions.UrgentItemsComeFirst | src/crewspace/application/inbox.py:150-180 | The inbox lists items by falling priority, and those of one priority by id |
| InboxDecisions.RecordsGiveTheirItems | src/crewspace/application/inbox.py:47-117 | A record gives an item exactly when the rules name its type and status, with the urgency of that rule, its own fields and the link of its kind |
| InboxEvents.PublishKeepsConsistent | src/crewspace/application/inbox_events.py:37-55 | Publishing keeps sequences exactly 1..n, the folded log equal to the snapshot and the latest count equal to the unread items |
| InboxEvents.PublicationIsDetermined | src/crewspace/application/inbox_events.py:37-55 | There is only one log a publication can produce |
| InboxEvents.PublicationsTellWhatChanged | src/crewspace/application/inbox_events.py:37-55 | A publication adds exactly one event for each item that is new, gone or another than before and none for any other, and announces the count exactly when it changed or nothing was ever published |
| InboxEvents.CountIsUnreadIds | src/crewspace/application/inbox_events.py:19-21 | The count is the number of ids neither acknowledged nor resolved |
| InboxEvents.SuffixBySequence | src/crewspace/application/inbox_events.py:57-60 | Replay after a cursor is the rest of the log from that position, and nothing past its end |
| InboxEvents.RedeliveryIsHarmless | src/crewspace/application/inbox_events.py:57-60 | Hearing events once more before what follows them changes no item |
| InboxEvents.OverlappingReplayConverges | src/crewspace/application/inbox_events.py:57-60 | A client at any position that replays from any cursor at or before it, malformed and negative ones included, ends with the current snapshot |
| InboxStore.InboxEventStream.Publish | src/crewspace/application/inbox_events.py:37-55 | The three loops append the removals and the changed items in id order, then the count when it is first or changed, and touch no other team |
| InboxStore.InboxEventStream.EventsAfter | src/crewspace/application/inbox_events.py:57-60 | Returns the events strictly after the cursor, or all |
| InboxStore.InboxEventStream.Cursor | src/crewspace/application/inbox_events.py:62-63 | Returns the number of the team's latest event, 0 before any |
| InboxStore.ReconcileItems | src/crewspace/application/inbox.py:150-180 | The loops of the reconciliation give the reconciled list; its second sort changes nothing |
| InboxStore.InboxStore.Reconcile | src/crewspace/application/inbox_store.py:32-36 | Replaces the team's items and publishes them, leaving other teams alone |
| InboxStore.InboxStore.Update | src/crewspace/application/inbox_store.py:50-56 | Applies a decision and publishes exactly when the item exists |
| InboxStore.InboxAndLogAgree | src/crewspace/application/inbox_store.py:32-56 | After any mix of reconcile, acknowledge, assign and resolve the folded log is the current list, the list is well ordered, and the latest unread count (0 if none) is the number of unread items |
| CodingRuns.RunLifecycle | src/crewspace/infrastructure/repositories.py:685-740 | Over any interleaving of dispatch, capture, cancel, failure, disconnect and restart a run makes at most two moves along the allowed transitions, is finished exactly when terminal, has a change set exactly when it succeeded, and a reason of at most 1,024 characters only when it failed |
| CodingRuns.TerminalIsAbsorbing | src/crewspace/infrastructure/repositories.py:565-568 | Nothing that happens later changes a run that ended |
| CodingRuns.ReconcileTwice | src/crewspace/application/coding_runs.py:143-176 | An immediately repeated reconciliation finds no run and changes nothing |
| CodingRuns.CancelTakesEffectUnlessOvertaken | src/crewspace/application/coding_runs.py:108-140 | A cancel takes effect exactly when nobody moved its run while it waited for the agent, whatever else happened; an overtaken one changes no run |
| CodingRuns.CaptureKeeps | src/crewspace/application/change_sets.py:20-71 | A capture keeps every table sound; its run never has a change set yet, so the insert cannot collide and the move cannot miss |
| CodingRunOutcomes.DispatchStoresTheOrder | src/crewspace/application/coding_runs.py:17-85 | A granted dispatch of a new run stores a running row with exactly the team, repository, agent and request given, and no other row changes; any other dispatch is refused and changes nothing |
| CodingRunOutcomes.OrdersStay | src/crewspace/application/coding_runs.py:17-85 | Whatever happens later, a run keeps the team, repository, agent and request it was dispatched with |
| CodingRunOutcomes.CaptureStoresWhatWasOrdered | src/crewspace/application/change_sets.py:20-71 | A capture for a running run by its own agent, request and repository is stored as a change set of that team, repository, agent and request, and the run succeeds; any other capture changes nothing |
| CodingRunOutcomes.DispatchedRunsCanDeliver | src/crewspace/application/change_sets.py:20-71 | After a dispatch, whatever else happened, a capture is stored if and only if the run has made no move since and the capture names the agent, request and repository given |
| CodingRunOutcomes.FailureMovesALiveRun | src/crewspace/application/coding_runs.py:179-212 | A failure ends a live run with the reason it gives, as far as the bound goes; nothing else changes |
| CodingRunOutcomes.CancelMovesTheRunItRead | src/crewspace/application/coding_runs.py:108-140 | A cancel ends a run that is still in the status it read; nothing else changes |
| CodingRunOutcomes.ReconcileInterruptsLiveRuns | src/crewspace/application/coding_runs.py:143-176 | A restart interrupts exactly the live runs in scope, each ending now; the others stay as they are |
| CodingRunOutcomes.DecisionsMoveTheirChangeSet | src/crewspace/application/change_sets.py:73-155 | What each decision does: review, approval, pull request, retain, discard and the answers of the agent each move the change set from one status alone, with one audit action, and otherwise leave it |
| CodingRuns.TornCaptureLeavesAnOrphan | src/crewspace/api/routers/agents.py:233-249 | Why the capture must be one transaction: were the run to end otherwise between its read and its writes, an error return would commit a change set of a run that did not succeed |
| CodingRuns.AuditReplays | src/crewspace/infrastructure/repositories.py:839-864 | Replaying a change set's audit actions gives its status, and the trail is one longer than the number of moves |
| CodingRuns.PendingEndsAsItself | src/crewspace/application/change_sets.py:158-230 | A pending retain or discard can only finish as itself or go back to reviewed, and only its own action does that |
| CodingRuns.PendingWaitsForItsAction | src/crewspace/application/change_sets.py:126-155 | However many other steps are taken, a pending change set waits unchanged for its own action |
| CodingRuns.WorkspaceDecisionEnds | src/crewspace/application/change_sets.py:158-230 | A retain or discard, whatever happens to the tables while it waits for the agent, ends in its final status, or back in reviewed when the agent failed, with exactly the request and the outcome added to the audit trail and no other change set moved by its end |
| CodingRunService.Tables.Transition | src/crewspace/infrastructure/repositories.py:685-710 | Compare-and-set: an unlisted move is an error, a run no longer in the expected status is left alone |
| CodingRunService.Tables.TransitionChangeSet | src/crewspace/infrastructure/repositories.py:839-864 | Compare-and-set that adds an audit event exactly when it moved the change set |
| CodingRunService.Tables.DispatchCodingRun | src/crewspace/application/coding_runs.py:17-85 | Refuses a team without the grant; otherwise the run is stored and running |
| CodingRunService.Tables.ReadRunForCancel | src/crewspace/application/coding_runs.py:108-117 | An unknown run is an error; a run that ended is not cancelled; otherwise the status read is kept for later |
| CodingRunService.Tables.CommitPendingCancel | src/crewspace/application/coding_runs.py:128-140 | Reports success exactly when the run was still in the status read |
| CodingRunService.Tables.MarkRunFailed | src/crewspace/application/coding_runs.py:179-212 | Moves a live run to failed with the bounded text of the error as its reason; a second call does nothing |
| CodingRunService.Tables.FailCodingRequest | src/crewspace/api/routers/agents.py:298-307 | Fails the run of a request; says not to deliver exactly when that run had ended |
| CodingRunService.Tables.SearchActiveRuns | src/crewspace/infrastructure/repositories.py:638-662 | Each live run of the agent, or of all agents, once, in the order of creation |
| CodingRunService.Tables.ReconcileInterruptedRuns | src/crewspace/application/coding_runs.py:143-176 | The loop moves exactly the live runs in scope to interrupted and reports them |
| CodingRunService.Tables.RecordCapture | src/crewspace/application/change_sets.py:20-71 | Refuses with the first error in the order of the checks and changes nothing, or stores the change set and finishes the run |
| CodingRunService.Tables.ReviewChangeSet | src/crewspace/application/change_sets.py:73-93 | Moves a captured change set to reviewed, or says why not |
| CodingRunService.Tables.DecideChangeSet | src/crewspace/application/change_sets.py:95-124 | Moves a reviewed change set to the status requested, or says why not |
| CodingRunService.Tables.FinishWorkspaceAction | src/crewspace/application/change_sets.py:126-155 | Moves a change set out of the expected pending status, or refuses |
| CodingRunService.Tables.StartWorkspaceDecision | src/crewspace/application/change_sets.py:158-188 | The part of a retain or discard before its wait: refuses a pull-request decision, an unknown and an unreviewed change set, or leaves it pending |
| OutputTail.StoredOutput | src/crewspace/infrastructure/repositories.py:712-731 | After any appends the stored output is at most three U+FFFD and a suffix of everything appended, at most `MAX_OUTPUT_BYTES` + 6 bytes, and at most three bytes short of the longest tail |
| OutputTail.SingleByteOutput | src/crewspace/infrastructure/repositories.py:712-731 | Text of single-byte characters is kept as exactly its last `MAX_OUTPUT_BYTES` characters |
| OutputTail.AppendKeepsTail | src/crewspace/infrastructure/repositories.py:723-727 | One append keeps that form, replacement characters of earlier cuts being cut themselves |
| OutputTail.DecodeTail | src/crewspace/infrastructure/repositories.py:725-727 | Decoding a tail of encoded text gives one replacement for each byte left of a broken character, then the characters after it |
| OutputTail.DecodeEncode | src/crewspace/infrastructure/repositories.py:724-727 | Decoding the UTF-8 encoding of a text gives the text |
| OutputTail.RunOutputs.CreateRun | src/crewspace/infrastructure/repositories.py:592-636 | A new run has no output |
| OutputTail.RunOutputs.AppendOutput | src/crewspace/infrastructure/repositories.py:712-731 | Ignores an unknown run; otherwise stores the tail of the stored output and the text |
| Events.TailIsExact | src/crewspace/dto/events.py:388-417 | The tail holds exactly the events strictly above the cursor, each as often as given, in canonical order |
| Events.PrefixAndTailRebuild | src/crewspace/dto/events.py:388-417 | With distinct ids, what came up to any event and the tail after it rebuild the ordered list, in whatever order the events arrive |
| Events.ResumeIsGapFree | src/crewspace/dto/events.py:388-417 | Resuming after everything delivered gives exactly the newer events if and only if each of them sorts above the cursor |
| Events.EarlierRunIsMissed | src/crewspace/dto/events.py:388-417 | An event of run "a" that comes after one of run "b" was delivered is never sent |
| Events.TailAfter | src/crewspace/dto/events.py:406-419 | The search for the first event above the cursor finds that tail, or nothing when the cursor is at the end |
| Events.EventsAfter | src/crewspace/dto/events.py:388-425 | With a store, the tail without ids seen before and without repeats, every id of it marked |
| Events.NoIdIsReturnedTwice | src/crewspace/dto/events.py:281-306 | Over any series of calls sharing a store no id is returned twice, and every id above a cursor is returned or was seen before |
| Events.NumbersAreConsecutive | src/crewspace/dto/events.py:254-278 | Each run's events carry consecutive numbers from its own counter, whatever other runs emit between them |
| Events.NumbersStartAtNought | src/crewspace/dto/events.py:254-278 | The events of a run that emitted nothing before carry the numbers from 0 |
| Events.EventsAreOrderedByRunThenNumber | src/crewspace/dto/events.py:309-316 | Events compare by run, then by number, then by id; no run comes first and equals the empty one, and no number comes before every number |
| Events.SortingRestoresEmissionOrder | src/crewspace/dto/events.py:309-316 | Sorting any shuffle of numbered events gives every run its events back in the order it emitted them |
| Events.RunSequencer.Next | src/crewspace/dto/events.py:266-269 | Returns the run's counter and advances only that |
| Events.RunSequencer.Peek | src/crewspace/dto/events.py:271-272 | Returns the counter the next event of the run will carry |
| Events.NumberEvent | src/crewspace/dto/events.py:266-269 | An event numbered by the counter continues the numbering of everything emitted before |
| Events.EventDedupeStore.Observe | src/crewspace/dto/events.py:293-297 | False the first time an id is seen and true thereafter |
| Pipeline.ValidatePipelineGraph | src/crewspace/dto/handoffs.py:100-112 | The loop accepts exactly the graphs in which every stage's inputs are produced by earlier stages |
| PipelineProofs.StagesSucceedInOrder | src/crewspace/application/pipeline.py:86-142 | Succeeded stages form a prefix, at most the next one is running or failed, the rest is pending, and the pipeline succeeded exactly when a non-empty graph is all succeeded |
| PipelineProofs.ProducedIsWhatSucceededStagesEmitted | src/crewspace/application/pipeline.py:124-141 | What is held is exactly the union of what succeeded stages emitted, and it covers the inputs of every stage ever begun |
| PipelineProofs.RetryPurgesNothing | src/crewspace/application/pipeline.py:167-177 | The purge before a retry removes no artifact |
| PipelineProofs.ValidGraphNeverStalls | src/crewspace/dto/handoffs.py:100-112 | With a valid non-empty graph and completions that emit at least their contract, a pipeline in progress always has a stage that may begin |
| PipelineProofs.StallIsPermanent | src/crewspace/application/pipeline.py:92-101 | When an input is missing, no later operation begins, completes or fails a stage |
| PipelineProofs.UnderproducingStalls | src/crewspace/application/pipeline.py:124-141 | The default graph stalls when its planner completes with nothing, which `complete_stage` allows |
| PipelineProofs.FailuresAreBounded | src/crewspace/application/pipeline.py:143-150 | No stage fails more than `max_attempts` times in any run of operations |
| PipelineProofs.OnlyARestartExceedsThePolicy | src/crewspace/application/pipeline.py:110-122 | A begin takes a stage over `max_attempts` exactly when the eligible stage is already running with none left |
| PipelineProofs.BegunTwiceExceedsThePolicy | src/crewspace/application/pipeline.py:110-122 | Under a policy of one attempt, a stage begun twice has had two |
| PipelineProofs.EndIsFinal | src/crewspace/application/pipeline.py:79-84 | A terminal status never changes, and no stage becomes running or succeeded afterwards |
| PipelineProofs.EvidenceIsFrozen | src/crewspace/application/pipeline.py:152-165 | Attached evidence is never replaced or dropped |
| PipelineProofs.ApprovedMeansGrantedLast | src/crewspace/application/pipeline.py:179-207 | The decision is approved only if its last write was an explicit grant with a principal over no locking prior decision |
| PipelineProofs.DenialStandsUntilReseeded | src/crewspace/application/pipeline.py:179-207 | An explicit grant after any operations is refused exactly when the decision seeded last, or the one before them, locks |
| PipelineProofs.ReseedingLiftsADenial | src/crewspace/application/pipeline.py:196-207 | Seeding a denial, then nothing, then granting ends approved |
| PipelineProofs.DeliveryNeedsAGrant | src/crewspace/application/pipeline.py:130-134 | The default graph succeeds only through a human_approval completion at which such a grant was the last word |
| PipelineGrants.FailedStagesGetTheirRetry | src/crewspace/application/pipeline.py:103-177 | In every state reached from a policy of at least one attempt, a failed stage of a pipeline in progress is never refused its retry; it is pending afterwards with everything else as it was, and may begin at once |
| PipelineGrants.FailedStagesRetry | src/crewspace/application/pipeline.py:103-177 | A retry is granted if and only if the stage is one of the graph, failed, and had fewer attempts than the policy allows |
| PipelineGrants.BeginsTheNextStage | src/crewspace/application/pipeline.py:92-122 | Exactly the first stage that has not succeeded may begin, its inputs being there; it then runs in one more attempt, and nothing else changes |
| PipelineGrants.RunningStagesComplete | src/crewspace/application/pipeline.py:124-141 | A running stage may complete, human approval only when granted; it succeeds with what it emitted, and the pipeline with its last stage |
| PipelineGrants.RunningStagesFail | src/crewspace/application/pipeline.py:143-150 | A running stage may fail; with no attempt left the pipeline fails with it |
| PipelineGrants.RunningStagesAttach | src/crewspace/application/pipeline.py:152-165 | A running stage may attach evidence under a name not used yet, and it is there |
| PipelineGrants.GrantsDecide | src/crewspace/application/pipeline.py:179-194 | Only an explicit grant of a named principal approves, and only over no locking decision; the decision is all that changes |
| PipelineGrants.SeedsLock | src/crewspace/application/pipeline.py:196-207 | A locking decision is seeded and denies, a grant is seeded, anything else clears the prior decision |
| PipelineGrants.CancelsEnd | src/crewspace/application/pipeline.py:209-212 | A pipeline in progress can be cancelled, and no other |
| PipelineGrants.RefusalsTellWhy | src/crewspace/application/pipeline.py:110-212 | A refusal names its reason, and each reason is true |
| DeliveryPipeline.Machine.Create | src/crewspace/application/pipeline.py:67-72 | A pipeline exists exactly for a policy of at least one attempt and a valid graph |
| DeliveryPipeline.Machine.FirstIncompleteStage | src/crewspace/application/pipeline.py:86-90 | The loop finds the first stage that has not succeeded |
| DeliveryPipeline.Machine.BeginStage | src/crewspace/application/pipeline.py:110-122 | Refuses with the first error in the order of the checks and changes nothing, or starts another attempt |
| DeliveryPipeline.Machine.CompleteStage | src/crewspace/application/pipeline.py:124-141 | Only a running stage, and human approval only when granted, succeeds with what it emitted; the last one ends the pipeline |
| DeliveryPipeline.Machine.FailStage | src/crewspace/application/pipeline.py:143-150 | Fails a running stage, and the pipeline when no attempt is left |
| DeliveryPipeline.Machine.AttachArtifact | src/crewspace/application/pipeline.py:152-165 | Attaches evidence of a running stage under a new name |
| DeliveryPipeline.Machine.RetryStage | src/crewspace/application/pipeline.py:167-177 | Puts a failed stage with attempts left back to pending; nothing produced is lost |
| DeliveryPipeline.Machine.GrantHumanApproval | src/crewspace/application/pipeline.py:179-194 | Approves only an explicit grant with a principal over no locking prior decision, and denies otherwise |
| DeliveryPipeline.Machine.SetPriorApprovalDecision | src/crewspace/application/pipeline.py:196-207 | A denied, expired or requested decision locks delivery; an unknown one clears the prior decision |
| DeliveryPipeline.Machine.Cancel | src/crewspace/application/pipeline.py:209-212 | Cancels a pipeline in progress |
| SchemaControls.ValidateSchemaControls | src/crewspace/application/mcp_catalog.py:41-66 | The stack-driven check ends, finds the fault the recursive search finds first, and accepts exactly the values in which no node is deeper than 64 and every object has a supported draft and only local references |
| SchemaControls.FaultFreeIsAcceptable | src/crewspace/application/mcp_catalog.py:41-66 | The recursive search finds nothing exactly when the node at every path is in order, and what it finds is the fault of some node |
| SchemaControls.Pushed | src/crewspace/application/mcp_catalog.py:64-66 | Pushing the children of a node leaves exactly their faults and their nodes to be found |
| SchemaControls.AcceptedSchemasAreSafe | src/crewspace/application/mcp_catalog.py:41-66 | A schema is accepted if and only if every node in it is at most 64 levels deep and, as an object, names a known draft or none and has only references that are absent or begin with "#" |
| SchemaControls.FaultsSayWhatIsWrong | src/crewspace/application/mcp_catalog.py:41-66 | The fault reported is one that some node has: too deep, an unknown draft, or a reference that is not local |
| Json.LookupFinds | src/crewspace/application/mcp_catalog.py:55-62 | With the distinct keys of a dict, a lookup gives the value under the key, or null when there is none |
| RemoteAgent.EachRunOnce | examples/claude_code_agent.py:160-212 | Over any connections, replays, cancels and recycles each run is claimed at most once, gets at most one change-set or failure frame, on the connection that claimed it, and is never in flight and terminal at once |
| RemoteAgent.CancelSilences | examples/claude_code_agent.py:295-339 | After a cancel some continuation still sends a frame for the run exactly when its workspace is just being captured on the open connection |
| RemoteAgent.CancelDuringCapture | examples/claude_code_agent.py:428-479 | A run of events from the start in which a cancelled run still sends its change set |
| RemoteAgent.ReconnectSilences | examples/claude_code_agent.py:196-216 | A new connection leaves nothing in flight, and no run claimed before it ever sends a frame again |
| RemoteAgent.ReplayIsIgnoredForGood | examples/claude_code_agent.py:536-543 | Once a run is claimed, its replayed frames change nothing, whatever connections, cancels and completions follow |
| RemoteAnswers.FramesTellHowRunsEnded | examples/claude_code_agent.py:428-479 | Over any run of the agent a frame was sent if and only if some event ended its run in just that way: no workspace, a task that raised, a capture that failed or one that succeeded, on the connection that launched it |
| RemoteAnswers.StepsSendTheirFrame | examples/claude_code_agent.py:428-576 | Each step sends exactly the frame it owes, and no other |
| RemoteAnswers.TerminalRunsWereEnded | examples/claude_code_agent.py:160-212 | Over any run of the agent a coding run is terminal if and only if some event ended it, and is in flight never again |
| RemoteAnswers.StepsClaimAndEnd | examples/claude_code_agent.py:160-216 | A run is in flight from its claim until the event that ends it and terminal from then on; only a cancel cancels it |
| RemoteAnswers.StepsMoveTasks | examples/claude_code_agent.py:428-479 | A claimed run is allocated next, an allocated one runs on the connection that is open, and each task moves by itself: to its capture when it succeeded uncancelled, and otherwise to its end |
| RemoteAgent.AgentRuntime.OpenConnection | examples/claude_code_agent.py:403-405 | Bumps the generation and forces every run in flight terminal |
| RemoteAgent.AgentRuntime.ClaimCodingRun | examples/claude_code_agent.py:160-170 | Claims exactly a run that is neither terminal nor in flight |
| RemoteAgent.AgentRuntime.AfterAllocation | examples/claude_code_agent.py:544-576 | A failed allocation ends the run and answers with a failure frame; otherwise its task starts |
| RemoteAgent.AgentRuntime.HandleCancel | examples/claude_code_agent.py:309-339 | Marks the run cancelled and terminal |
| RemoteAgent.AgentRuntime.StartFinish | examples/claude_code_agent.py:428-473 | A cancelled run is answered with nothing, a task that raised with a failure, and one that succeeded goes on to its capture |
| RemoteAgent.AgentRuntime.FinishCapture | examples/claude_code_agent.py:436-479 | Ends the run and sends its frame only on the connection that launched it |
| RemoteAgent.AgentRuntime.Recycle | examples/claude_code_agent.py:206-212 | The loop empties the runs in flight into the terminal ones |
| BoardViews.FillBuckets | src/crewspace/application/board_views.py:223-232 | One pass over the items gives the keys in first-seen order and, under each, exactly its items in their order |
| BoardViews.GroupsPartition | src/crewspace/application/board_views.py:124-191 | Groups under distinct keys that cover the cards hold each card exactly as often as given |
| BoardViews.GroupStatus | src/crewspace/application/board_views.py:124-135 | Groups by column in first-seen order, captioned by the column's name |
| BoardViews.GroupAssignee | src/crewspace/application/board_views.py:138-154 | Groups by assignee in first-seen order, captioned after the first card; the agent view leaves out cards of other assignees |
| BoardViews.GroupDue | src/crewspace/application/board_views.py:181-191 | Groups by due bucket in the fixed order, leaving out empty ones |
| BoardViews.GroupPriority | src/crewspace/application/board_views.py:168-178 | Groups by priority in the fixed order; a card of any other priority is in no group |
| BoardViews.GroupLabel | src/crewspace/application/board_views.py:157-165 | The nested loop puts each card under each of its labels; the groups stand in the order of the labels as text |
| BoardGroups.GroupsHoldWhatTheySay | src/crewspace/application/board_views.py:124-191 | Every group holds exactly the cards that belong under its key, at least one: by column, by assignee, by agent, by how the due date lies to today, by priority or by label; and it is called by the column, by its first card's assignee, by the bucket, the priority or the label |
| BoardGroups.GroupsStandInOrder | src/crewspace/application/board_views.py:124-191 | Due dates and priorities stand in their fixed order, labels in that of their texts, other groups in that of their first cards |
| BoardGroups.LabelsHaveTheirGroups | src/crewspace/application/board_views.py:157-165 | Exactly the labels of the cards have a group |
| BoardGroups.CardsStandUnderEachLabel | src/crewspace/application/board_views.py:157-165 | A card stands in a group as often as it has the label, each time it is on the board |
| BoardGroups.DoneCardsStandInDone | src/crewspace/application/board_views.py:39-45 | A card is done if and only if the id or the name of its column is "done" in any case |
| BoardTimeline.BuildTimeline | src/crewspace/application/board_views.py:194-220 | The loops split, sort and group the cards into the timeline |
| BoardTimeline.TimelinePartitions | src/crewspace/application/board_views.py:194-220 | The timeline holds every card exactly once |
| BoardTimeline.DatedKeysIncrease | src/crewspace/application/board_views.py:207-216 | The dated keys of the timeline strictly increase as text |
| BoardTimeline.BucketsKeepBoardOrder | src/crewspace/application/board_views.py:207-216 | Each bucket holds the cards due on its text in the order of the board, and is overdue exactly when that date is past |
| BoardTimeline.ViewsShowWhatFits | src/crewspace/application/board_views.py:97-121 | A view shows each card that has what every filter set asks for as often as it stands on the board, and no other |
| BoardTimeline.AllCardsJoin | src/crewspace/application/board_views.py:97-98 | The board is read column by column, each from top to bottom |
| BoardTimeline.ChronologicalExactlyWhenFormatsKeepOrder | src/crewspace/application/board_views.py:194-220 | On a board of extended and basic ISO dates the timeline is in the order of the dates exactly when no year has an extended date later than a basic one; a board that keeps to one format always is |
| BoardTimeline.MixedBoardIsOutOfOrder | src/crewspace/application/board_views.py:194-220 | A board with "2025-12-31" and "20250101" is out of order |
| BoardTimeline.OverdueBucketsHoldOverdueCards | src/crewspace/application/board_views.py:278-280 | The overdue buckets hold exactly the overdue cards, so their number is the metric |
| BoardTimeline.OverdueGroupHoldsOverdueCards | src/crewspace/application/board_views.py:278-280 | The overdue group of the grouping by due date has that number of cards too |
| BoardTimeline.BuildBoardPlanningView | src/crewspace/application/board_views.py:235-286 | The view holds the filtered cards, its timeline or its groups partition the cards they show, and its overdue and completed counts are theirs |

## Left out

- Presence broadcasts, progress tasks and their clean-up: scheduling of best-effort notifications.
- Message, request and session ids: taken as fresh; a reused message id would overwrite a waiter.
- Chat, coding and workspace waiters: three families of dictionaries, one table keyed by kind here; a future is named by its key.
- Frames whose identifiers are not strings end the connection; a tool frame of an agent with the capability runs a registry. Neither is part of this model.
- AgentConnectionManager.Connections.BeginRequest: the send inside the request is the transport and not modelled; its failure is a return of the request.
- Lone surrogates in progress and output text, which cannot be encoded as UTF-8: characters are Unicode scalar values.
- WorkflowService.Perform: actions are an oracle of step and context; templates, filters, time limits, progress events and the database writes between steps are not modelled.
- An approval token left behind by an approval step that raises after it set the run to waiting, and two approvals at once: the code does not guard them.
- Scheduled workflows and runs that outlive their lease.
- Inbox filters and views, and the reset of the store, which forgets the items and keeps the log.
- Audit events are kept in the order of their insertion; the listing by time and id is not modelled.
- CodingRunService.Tables.SearchActiveRuns: runs created at the same time come in no particular order, as from the database.
- CodingRunService.Tables.DispatchCodingRun: the frame sent after the commit is the transport; instructions are not stored.
- CodingRunService.Tables.StartWorkspaceDecision: the access check is left out; a cancelled caller counts as a failed answer of the agent, as in the code.
- Resume tokens as JSON text, and the transports of events.
- Saved views of boards.
- BoardTimeline.BuildBoardPlanningView: the groupings by agent and by priority partition the cards they show, not all filtered ones; a grouping by label holds a card once for each of its labels.
- BoardTimeline.ChronologicalExactlyWhenFormatsKeepOrder: week dates ("2025-W01-1"), the third way to write a date, are not modelled.
- Pipeline.ValidatePipelineGraph: stage names are taken as distinct, being dictionary keys; schema versions of contracts are not modelled.
- RemoteAgent.AgentRuntime.StartFinish: chat replies, subprocess termination and autonomous activity are left out; a task may end in any way after it was told to stop.
- SQL text, migrations, signatures, sockets, DNS, templates, the command line and `examples/remote_coding_workspace.py`.
