# SentryGate: a verified model of the execution gate

SentryGate lets an agent change infrastructure only through a recorded decision. The ingress
handler evaluates a proposal against the policy and records the verdict. For an ALLOW it starts a
Temporal workflow. The workflow verifies that record, claims the decision, re-validates the
proposal, and schedules one dispatch activity. That activity moves the claim through a fence
before it calls the infrastructure adapter. An outcome that is not known is reconciled, never
retried.

This project models that path in Dafny and proves what it promises for every interleaving.

## The system model

`System.dfy` is a step system. Its state holds the decision records, the execution claims, the
ledger of idempotency keys behind the adapter, the audit rows, the policies so far, and any number
of workflow runs. One step is one SQL statement, one adapter call, one event delivered to a
workflow, or one move of the environment:

- Attempts of a scheduled activity run at any later time and any number of times, also after the
  workflow stopped waiting for them. Dispatch and compensation are the exceptions: the number of
  attempts of one scheduled activity is bounded. That a run schedules each once is proved.
- A write may commit while its answer is lost.
- A reset creates a run with a new run ID that replays a prefix of another run's history,
  including its token. The original run may go on.
- Workflows may be started with any request under any workflow ID.
- The active policy may change at any step.
- A request that reached the target may take effect later, after the call returned UNKNOWN.

A workflow is its replay over the history of what it was told (`Saga.dfy`). `SagaProgram.dfy` is
the same workflow as straight-line code with early returns, a deferred release and a loop; it is
proved to compute that replay on every history. `SagaAccount.dfy` and `SagaDuties.dfy` say,
without the workflow's own steps, what a run must return, record and schedule given what it was
told; every history is proved to follow these tables.

`Invariant.dfy` states the invariant and what no step takes back (`Grows`). `RunProof`,
`OrderProof`, `GrowthProof`, `TruthProof` and `TableProof` carry it through one step, and
`InvariantProof` through every execution. The safety results are in `Theorems`, `OutcomeTheorems`,
`ConservationTheorems`, `ExitTheorems` and `RunTheorems`. `Progress` builds executions and shows that the gate
does not refuse everything: an allowed decision can be carried to success. `Witnesses` builds the
executions in which a promise stops short.

| file | models |
|---|---|
| Contracts, ClaimTable, Stores | records, claim states, transition table, both claim stores |
| Adapter | the adapter contract as a relation, and the simulated adapter |
| RequestHash, Policy, Evaluation | request hash, policy validation, evaluation, ingress binding |
| PolicyRules | what a policy document accepts and what verdict it gives, in the words of the document |
| Saga, SagaFacts, SagaOrder, SagaRows, SagaProgram | the workflow, its evidence, the order of its activities, its audit trail, its program |
| SagaAccount, SagaDuties | the tables of what a run returns, records and schedules |
| RunTheorems | those tables, the stored rows and the activities' answers in every reachable state |
| Progress, Witnesses | executions that can happen |
| Activities | the dispatch activity and the ingress handler over the stores |
| ReconcileSchedule, AgentKeys | the reconciliation timing and the agent keyring |

## Assumptions

- A single SQL statement is atomic, and run IDs are unique.
- SHA-256 (section 6.2 of FIPS 180-4) has no collisions: a digest is represented by what was hashed.
- The adapter keeps its contract (`AdapterContract`): a key settles once, and SUCCESS and FAILURE
  name how it settled. The simulated adapter is proved to keep it, as long as its in-memory record
  is not lost.
- `limit` is the number of attempts of one scheduled dispatch activity. The source sets it to 1.
  Results that need this say `Reaches(1, ...)`; the others hold for every limit. Compensation has
  one attempt per scheduled activity, as in the source.

## Where a promise needs a condition

Six promises of the source hold only under a condition. Each has an exact result, and an execution
that breaks the promise where the condition fails.

**Every exit before dispatch releases the claim** (`workflows/saga.go:38-39`). One exit does not:
a run that is told that someone else holds the claim (`workflows/saga.go:202-205`) never schedules
a release. `ExitBeforeDispatch` sorts all exits before dispatch. `ToldHeldHoldsForeverIffItTook`
shows that the run holds the claim, now and forever, if and only if one of its own claim statements
changed the row. `ClaimCanBeHeldForever` builds that case: an attempt reads a rival's claim, the
rival releases it, and an earlier attempt that had timed out takes it. For every exit with no claim
attempt left, `QuietExitIsFinalIffNothingWasTaken` gives the exact condition.

**A released claim stays released.** `ReleaseIsFinalIffNoClaimAttemptIsLeft`: if and only if no
attempt of the run's own claim activity is outstanding. `ReleasedClaimCanComeBack` builds the
failing execution. Nothing is dispatched in either case.

**A released decision may be used again.** `FreeDecisionCanSucceedIffItsKeyIsOpen`: it can still
succeed if and only if its idempotency key is not settled at the target. `FreeDecisionCanBeBarred`
builds the failing execution: a fence write and the answer of the release that follows are lost,
the outcome is UNKNOWN, and reconciliation bars the key.

**UNKNOWN never releases the claim, and a refused mark leaves it EXECUTING**
(`workflows/saga.go:56-58` and `workflows/saga.go:286`). `ClaimStaysFencedIffFenceWasAcquired`: the
claim is and stays fenced under the run if and only if an attempt of the run acquired the fence.
`UnknownCanHaveReleased` builds an UNKNOWN outcome with a RELEASED claim.

**A DISPATCH_CONFIG row with PASS or FAIL means one adapter call by the run, and success means a
COMPLETED claim.** `DispatchRowMeansOneDispatch` and `SuccessIsComplete`: if and only if the run
did not inherit the dispatch answer, or the granted claim, through a reset. `ResetCanSucceedAgain`
builds two runs of one decision that both return success.

**A claim is one atomic step.** The SQL store writes and then reads.
`TwoStepClaimIsAtomicUnlessReleased`: its reply is that of an atomic call at one of the two moments
unless the caller held the row at the write and the row was RELEASED by the read.
`TwoStepClaimCanDiffer` gives the failing sequence of writes.

## Model

| member | source | states |
|---|---|---|
| `GateTheorems.DispatchAtMostOncePerDecision` | workflows/activities.go:66-96 | in every reachable state the adapter's Dispatch was called at most once per decision, for any number of attempts per run, and never while the decision is unclaimed, CLAIMED or RELEASED |
| `GateTheorems.DispatchIsAuthorized` | workflows/saga.go:134-250 | whenever the adapter is about to be called, ingress evaluated exactly this agent and proposal to ALLOW under a loaded policy and recorded it for this workflow, and this run was itself granted the claim, then re-evaluated to ALLOW under a loaded policy in force no earlier, and stored that decision and its row with verdict PASS |
| `GateTheorems.VerifiedIsIngress` | internal/decision/ingress.go:54-66 | a request that passes verification carries, field by field, what the ingress handler evaluated to ALLOW |
| `OutcomeTheorems.RecordedOutcomesAreTrueForever` | workflows/saga.go:299-327 | a COMPLETED claim means its key was applied exactly once, a FAILED one that it was barred or applied in part, now and in every later state |
| `OutcomeTheorems.EndedRunsAreTrueForever` | workflows/saga.go:272-339 | a run that ended with a failure that is not partial has a key with zero mutations in every later state, even with a dispatch in flight; a success or partial failure has exactly one |
| `OutcomeTheorems.UnknownIsNeverFailure` | workflows/saga.go:282-297 | a run told only UNKNOWN, unrecognised or nothing never asks for COMPLETED or FAILED, owns no such claim, never compensates and ends in neither |
| `OutcomeTheorems.CompensationIsOnceAndDeserved` | workflows/saga.go:305-321 | every run compensates at most once, because the workflow schedules compensation at most once, and only after it was told FAILURE with PartiallyApplied for a key that took effect once |
| `OutcomeTheorems.FenceRejectionIsSound` | workflows/activities.go:82-93 | a fence rejection after reading the claim back means that this run never acquired the fence and never called the adapter |
| `OutcomeTheorems.ClaimRejectedNeverDispatches` | workflows/saga.go:251-265 | a run that ended with EXECUTION_CLAIM_REJECTED calls the adapter at no time, also after an ambiguous fence write followed by a successful release |
| `OutcomeTheorems.FenceRowMeansNoDispatch` | workflows/saga.go:260-271 | an EXECUTION_FENCE row means zero adapter calls by the run |
| `OutcomeTheorems.DispatchRowMeansOneDispatch` | workflows/saga.go:272-280 | a run with a DISPATCH_CONFIG row of PASS or FAIL has called the adapter exactly once if and only if it did not inherit the dispatch answer, and otherwise not at all |
| `OutcomeTheorems.SuccessIsComplete` | workflows/saga.go:323-339 | a run that returned success owns the COMPLETED claim, was told SUCCESS, and has stored its decision, its PASS row, an outcome row with PASS and the final row with PASS, if and only if it inherited no granted claim |
| `OutcomeTheorems.OneSuccessPerDecision` | workflows/saga.go:323-339 | at most one run per decision returns success, inherited claims apart |
| `ConservationTheorems.MutationsAreBoundedByDecisions` | internal/decision/claim.go:54-62 | over any execution the total number of mutations is at most the number of recorded ingress ALLOW decisions |
| `ConservationTheorems.FencedClaimsNeverGoBack` | shared/contracts/claim.go:18-30 | from the fence on a claim keeps its owner and never returns to CLAIMED or RELEASED; COMPLETED and FAILED never change |
| `ConservationTheorems.ReleaseTouchesOwnClaimOnly` | workflows/decisions.go:91-104 | no claim transition changes another owner's claim |
| `ConservationTheorems.ReleaseLeavesNoClaim` | workflows/saga.go:180-191 | once the release statement has run, also if its answer is lost, the run owns no CLAIMED row |
| `ConservationTheorems.QuietReleaseIsFinal` | workflows/saga.go:180-191 | with no claim attempt left, that holds in every later state |
| `ConservationTheorems.LateClaimReclaims` | workflows/saga.go:193-205 | a claim attempt that is still outstanding can take a released claim back |
| `ConservationTheorems.ReleaseIsFinalIffNoClaimAttemptIsLeft` | workflows/saga.go:180-205 | a release is final exactly when no claim attempt of the run is left |
| `OutcomeTheorems.ClaimStaysFencedIffFenceWasAcquired` | workflows/saga.go:56-58 | whatever a run was told, its claim is fenced under it in this and every later state if and only if one of its attempts acquired the fence |
| `OutcomeTheorems.UnknownStaysMarked` | workflows/saga.go:58-59 | after an acknowledged mark, a run that ended without knowing the outcome leaves its claim in RECONCILIATION_REQUIRED forever |
| `OutcomeTheorems.FailureStaysMarked` | workflows/saga.go:299-304 | after an acknowledged mark, a run that acted on a FAILURE leaves its claim FAILED forever |
| `OutcomeTheorems.InheritedClaimIsUseless` | ARCHITECTURE.md:118 | a reset run that inherited a granted claim never owns a claim and never calls the adapter |
| `ExitTheorems.EachActivityIsScheduledOnce` | workflows/saga.go:69-81 | in every reachable state a run has scheduled each activity at most once, so dispatch attempts are bounded per run and compensation has at most one |
| `ExitTheorems.HoldsIffItTook` | internal/decision/claim.go:71-116 | a run holds its claim in CLAIMED if and only if a claim statement of it changed the row after its last release statement and it has not passed the fence; no other run can make or undo that |
| `ExitTheorems.ExitBeforeDispatch` | workflows/saga.go:176-205 | a run that ended before dispatch never asked for the claim, or was told it is held and scheduled no release, or scheduled the release; it holds its claim if and only if it took it after its last release |
| `ExitTheorems.QuietExitIsFinalIffNothingWasTaken` | workflows/saga.go:176-205 | with no claim attempt left, such a run holds no claim now and forever if and only if it took none after its last release |
| `ExitTheorems.ToldHeldHoldsForeverIffItTook` | workflows/saga.go:202-205 | a run told that someone else holds the claim never releases it, and holds it now and forever if and only if one of its own claim statements changed the row |
| `RunTheorems.RunsReturnByTable` | workflows/saga.go:134-339 | in every reachable state every ended run, reset or not, returned and recorded what the table says |
| `RunTheorems.RunsScheduleByTable` | workflows/saga.go:134-339 | in every reachable state a run that inherited nothing has scheduled what its history asked for and, once ended, exactly what the table calls for |
| `RunTheorems.FailedRunsAreCompensated` | workflows/saga.go:299-321 | an ended failed run scheduled the FAILED mark, and compensation if and only if the failure was partial, unless a reset handed it a history already past that point |
| `RunTheorems.RecordsAreExact` | cmd/sentrygate/handler.go:206-226 | every stored decision record is, column by column, an ingress evaluation under a policy that was in force, or a decision that a run asked to record |
| `RunTheorems.AuditRowsAreExact` | workflows/audit.go:93-117 | every stored audit row is the run's own entry at its sequence number, counted from 1, with the proposal, workflow, target and command of that run |
| `RunTheorems.VerificationReportsTheCheck` | workflows/decisions.go:38-56 | the verification activity answers valid, or the reason that the ingress check found |
| `RunTheorems.ClaimAnswersAreTrue` | workflows/decisions.go:65-85 | a claim answer is a grant exactly when the run holds the claim at that moment; "held" means the statement changed nothing |
| `RunTheorems.TransitionAnswersAreTrue` | workflows/decisions.go:87-106 | a transition is acknowledged only if the run owns the claim in the state it asked for; it is refused exactly if the run is not the owner or the diagram has no such arrow, and then nothing changed |
| `RunTheorems.FenceAnswersAreTrue` | workflows/activities.go:66-93 | the fence is rejected exactly for a request without decision or token, or after a read that shows the claim as not held by the run or RELEASED; a lost write is UNKNOWN |
| `SagaOrder.EachActivityIsAwaitedOnce` | workflows/saga.go:62-339 | on every history no activity is awaited twice |
| `SagaOrder.WaitingPointsRise` | workflows/saga.go:62-339 | on every history the waiting points rise in one order until the run ends, reconciliation by rounds |
| `ProgressTheorems.FreeDecisionCanSucceedIffItsKeyIsOpen` | workflows/saga.go:250-297 | in every reachable state, an allowed decision that nobody holds can be carried to success by a new run exactly when its key is open at the target |
| `ProgressTheorems.SettledKeyNeverSucceeds` | workflows/activities.go:14-37 | once the key of a free decision is settled, no later state has a successful run of it |
| `ProgressTheorems.AllowedProposalCanSucceed` | cmd/sentrygate/handler.go:200-304 | from an empty system, every proposal a policy allows can be recorded, claimed, re-validated, dispatched and completed |
| `Witnesses.ReleasedClaimCanComeBack` | workflows/saga.go:180-205 | from every state in which a recorded ALLOW is free, some execution ends with a rejected run that released its claim and holds it again |
| `Witnesses.ClaimCanBeHeldForever` | workflows/saga.go:202-205 | from every state in which a recorded ALLOW is free, and for every two new runs of it, some execution leaves one of them ended, with no claim attempt left, and holding the claim forever |
| `Witnesses.ResetCanSucceedAgain` | ARCHITECTURE.md:118 | from every state in which an allowed decision is free with an open key, a run and its reset can both return success, the reset with a dispatch row, no call and no claim |
| `Witnesses.UnknownCanHaveReleased` | workflows/saga.go:250-271 | from every state in which an allowed decision is free, a run can treat its outcome as UNKNOWN while its claim is RELEASED |
| `Witnesses.FreeDecisionCanBeBarred` | workflows/saga.go:250-297 | from every such state with an open key, some execution leaves the decision free and its key barred |
| `InvariantProof.ReachableInv` | workflows/saga.go:62-339 | in every reachable state each run is where its history puts it and was told only true answers, each claim row, fence, adapter call and ledger key belongs to the run and decision that produced it, and final claims agree with the target |
| `InvariantProof.LaterGrows` | internal/decision/store.go:34-53 | no step takes back a record, an audit row, a settled key, a fence, an adapter call, or what a run was told |
| `SagaRows.AuditTrailIsAWord` | workflows/saga.go:101-112 | on every history the audit phases, in sequence order, form a word of one grammar, and how the run ended says where its trail stops; a partial failure is read through COMPENSATION, any other failure is not |
| `SagaRows.ReplayTrail` | workflows/saga.go:219-336 | fence rows, dispatch rows and success rest on what the dispatch, claim and audit activities answered |
| `SagaAccount.ReturnsAndRecordsByTable` | workflows/saga.go:62-339 | on every history that ends a run, what it returned and its whole audit trail, verdicts included, are one function of what it was told |
| `SagaAccount.ReplayAnswers` | workflows/saga.go:134-321 | on every history each activity is answered at most once, and the claim, the allowance and the outcome the workflow works with are exactly the ones it was told |
| `SagaDuties.SchedulesByTable` | workflows/saga.go:62-339 | on every history that ends a run, each activity was scheduled if and only if a table over what the run was told calls for it: record, claim, release, dispatch, reconciliation, each mark and compensation |
| `SagaDuties.PartialFailureIsCompensated` | workflows/saga.go:299-321 | a run that ended in a partial failure awaited compensation, and its last two rows are COMPENSATION, with PASS exactly if compensation was acknowledged, and WORKFLOW_FAILED |
| `SagaDuties.AskedMeans` | workflows/saga.go:62-339 | an activity counts as scheduled exactly when the workflow waited for it after some prefix of its history |
| `SagaFacts.ReplayFacts` | workflows/saga.go:134-321 | on every history a claim, an ALLOW and a confirmed outcome that the workflow acts on is one it was told |
| `SagaProgram.RunSaga` | workflows/saga.go:62-339 | the workflow as code ends, on every history, exactly when and as its replay does, with the same audit rows, and waits for exactly the same activities in order; its result, its rows and the activities it scheduled are those of the tables |
| `SagaProgram.Execution.Dispatch` | workflows/saga.go:244-280 | the dispatch part leaves the workflow where the replay is, with the checked outcome and the failed audit write remembered |
| `SagaProgram.Execution.HandleFenceError` | workflows/saga.go:251-271 | a fence error ends the run if the release succeeds or the fence was rejected, and is UNKNOWN otherwise |
| `SagaProgram.Execution.Ask` | workflows/saga.go:354-371 | the reconciliation loop returns the first confirmed outcome or UNKNOWN |
| `SagaProgram.Execution.Leave` | workflows/saga.go:183-191 | the deferred release runs exactly when the claim may be held and dispatch is not scheduled |
| `ReconcileSchedule.ReconcileDispatch` | workflows/saga.go:341-371 | at most 55 rounds for any delays, exactly 55 with instant answers; every wait is on schedule and ends within 24 h; an UNKNOWN that was not cancelled means more than 23.5 h elapsed |
| `ReconcileSchedule.WindowHolds54Waits` | workflows/saga.go:345-349 | the window holds 54 waits and not one more |
| `ReconcileSchedule.WaitNeverDecreases` | workflows/saga.go:369 | waits never decrease |
| `ClaimTable.SourcesMatchDiagram` | internal/decision/claim.go:30-52 | the transition table is the documented diagram plus, except for the fence, a repeat of the transition that produced the state |
| `ClaimTable.ExecutionKeyInjective` | internal/decision/claim.go:54-62 | the execution key tells decisions apart |
| `ClaimTable.ExecutionKeyText` | internal/decision/claim.go:54-62 | the execution key is the versioned prefix followed by the decision ID |
| `ClaimTable.AdvanceIsExact` | internal/decision/claim.go:98-116 | a transition changes at most the state of its own row, and exactly if the caller owns it in a permitting state |
| `ClaimTable.TwoStepClaimIsSafe` | internal/audit/claims.go:21-59 | whatever runs between statement and read, a grant means the row was CLAIMED by the caller during the call, and "held" means the call changed nothing |
| `ClaimTable.TwoStepClaimIsAtomicUnlessReleased` | internal/audit/claims.go:21-59 | the two-step reply is that of an atomic call at the statement or at the read, up to the reported claim, exactly unless the caller held the row at the statement and it was RELEASED by the read |
| `ClaimTable.TwoStepClaimCanDiffer` | internal/audit/claims.go:21-59 | a caller whose own release commits between the statement and the read of a repeated claim is told the claim is held, where an atomic call would grant at either moment |
| `ClaimTable.TwoStepClaimRefinesAtomic` | internal/audit/claims.go:21-59 | with nothing in between both stores give the same answer and state |
| `ClaimTable.WritesKeepRows` | internal/decision/claim.go:98-116 | over any writes by any callers fenced and final rows keep what they reached, and writes on other decisions leave a row alone |
| `ClaimTable.FenceAcquiredAtMostOnce` | internal/decision/claim.go:30-40 | over any writes the fence of a decision is acquired at most once, and never after it |
| `Stores.MemoryStore.AppendDecision` | internal/decision/store.go:34-53 | a record is written once; an identical one is accepted; a missing ID, proposal or hash is invalid, and otherwise a different stored record with the ID is a conflict |
| `Stores.MemoryStore.GetDecision` | internal/decision/store.go:55-68 | the record behind the index, or none |
| `Stores.MemoryStore.ClaimExecution` | internal/decision/claim.go:71-96 | the atomic claim: reply and new state, and a grant exactly when the caller now holds the claim |
| `Stores.MemoryStore.AdvanceClaim` | internal/decision/claim.go:98-116 | the owner-checked compare-and-set, and what it keeps |
| `Stores.SqlStore.UpsertStatement` | internal/audit/claims.go:26-50 | the conditional upsert and its row count |
| `Stores.SqlStore.ClaimExecution` | internal/audit/claims.go:21-59 | the two-step claim with any writes in between |
| `Stores.SqlStore.AdvanceClaim` | internal/audit/claims.go:63-87 | the conditional update is the same compare-and-set |
| `Activities.InfrastructureActivities.DispatchConfig` | workflows/activities.go:66-96 | the adapter is called exactly when this attempt moved the claim through the fence and knows it; each error leaves the adapter untouched; the attempt is rejected exactly if the request is not valid or the store refused the fence and then showed a claim that the run does not hold, or holds as RELEASED; afterwards nobody can pass the fence |
| `Activities.InfrastructureActivities.ReconcileDispatch` | workflows/activities.go:108-116 | reconciliation changes no mutation count and answers as the adapter does |
| `Activities.IngressHandler.Intercept` | cmd/sentrygate/handler.go:200-304 | a workflow is requested exactly for an ALLOW whose record is known to be stored, and what is requested passes verification and re-validation; a record written under a new ID says, column by column, what was evaluated, and names the workflow exactly for an ALLOW |
| `Contracts.CheckedIsSound` | shared/contracts/outcome.go:41-53 | checking invents no confirmation and loses none |
| `SagaWorkflow.StandingIsChecked` | workflows/saga.go:386-394 | acting on an outcome is acting on the checked outcome, and its audit verdict is the same |
| `SimulatedTarget.SimulatedMeetsContract` | workflows/simulated.go:41-119 | every call of the simulated adapter is one the contract allows |
| `SimulatedTarget.EachKeyTakesEffectAtMostOnce` | workflows/simulated.go:109-113 | over every sequence of calls a key has at most one mutation, and one exactly when its effect is SUCCESS or a partial FAILURE |
| `SimulatedTarget.ConfirmedAnswerIsFinal` | workflows/activities.go:14-32 | a confirmed answer is the key's effect after any later calls |
| `SimulatedTarget.DispatchByTarget` | workflows/simulated.go:41-67 | after any calls and before any others, the first dispatch of a key: an ordinary target answers SUCCESS and FAILING_NODE a partial FAILURE, each with one mutation; LOST_RESPONSE_NODE answers UNKNOWN with one mutation and reconciles to SUCCESS; the unreachable targets answer UNKNOWN and change nothing |
| `SimulatedTarget.EndedDispatchNeverApplies` | workflows/simulated.go:41-50 | a first dispatch after the context has ended is a FAILURE that is not partial, and the key has no mutation after any later calls |
| `SimulatedTarget.ReconcileBarsNewKeys` | workflows/simulated.go:69-82 | reconciling a key nobody saw answers FAILURE and no later call makes it take effect; a partitioned target answers UNKNOWN and nothing changes |
| `SimulatedTarget.SeenKeyAnswersItsRecord` | workflows/simulated.go:41-82 | a recorded key is never sent again: dispatch and reconciliation answer with its record and change nothing |
| `SimulatedTarget.CompensationCounts` | workflows/simulated.go:84-93 | compensation adds one to the count of its own key and touches no other key, effect or mutation |
| `SimulatedTarget.SimulatedAdapter.Dispatch` | workflows/simulated.go:41-67 | a seen key answers with its record; a new key answers by target: SUCCESS, partial FAILURE, UNKNOWN after taking effect, or UNKNOWN without a trace; after the context has ended it is fenced |
| `SimulatedTarget.SimulatedAdapter.Reconcile` | workflows/simulated.go:69-82 | a seen key answers with its record; a new key is fenced with FAILURE unless the target is partitioned; no mutation count changes |
| `SimulatedTarget.SimulatedAdapter.Compensate` | workflows/simulated.go:84-93 | only the count of this key goes up, by one, and not after the context has ended |
| `RequestHashing.RequestHashBinds` | internal/decision/hash.go:14-30 | two proposals hash alike exactly if all four fields are alike |
| `RequestHashing.CanonicalLayout` | internal/decision/hash.go:11-30 | what is hashed is the domain, then ID, command, target and payload in this order, each after its length in eight bytes |
| `RequestHashing.PrefixIsBigEndian` | internal/decision/hash.go:23-28 | the length prefix has the most significant byte first |
| `RequestHashing.ComputeRequestHash` | internal/decision/hash.go:20-30 | the running hash is the hash of the canonical encoding |
| `IngressBinding.VerifyIngressIsExact` | internal/decision/ingress.go:26-49 | verification succeeds exactly for an ingress ALLOW of this agent, workflow and hashed proposal |
| `IngressBinding.FirstFailedCheckIsReported` | internal/decision/ingress.go:26-49 | a failed verification reports the first check, in the documented order, that fails |
| `IngressBinding.MissingDecisionIsReported` | internal/decision/ingress.go:51-66 | a missing or unnamed decision is reported as not found, and a stored one is verified |
| `PolicySchema.Build` | internal/policy/schema.go:159-255 | accepts a document exactly when it satisfies the declarative rules, and describes it; every environment keeps the mode text it was declared with |
| `PolicySchema.BuildEnvironments` | internal/policy/schema.go:179-192 | accepts the environments, and keeps each declared mode, whatever order they are read in |
| `PolicySchema.DescriptionIsUnique` | internal/policy/schema.go:159-255 | a document has one snapshot, so the reading order cannot show |
| `PolicySchema.BuiltIsConsistent` | internal/policy/schema.go:221-251 | grants are in the catalogue and targets in declared environments |
| `PolicyRules.NamesMatch` | internal/policy/schema.go:27-35 | each name rule is its pattern: length, first character and alphabet by character code |
| `PolicyRules.AcceptedIffRulesAreFollowed` | internal/policy/schema.go:159-255 | a document is accepted exactly when it follows the documented rules, with the three mode texts as literals |
| `PolicyRules.DocumentAllows` | internal/decision/evaluate.go:12-78 | from document to verdict: ALLOW exactly if an entry of the agent lists the command and the target is registered as unprotected in an environment declared "allow" |
| `PolicyRules.DocumentRefuses` | internal/decision/evaluate.go:12-78 | from document to verdict: each denial reason, and REQUIRE_APPROVAL, exactly when the document says so |
| `Evaluation.EvaluateProposal` | internal/decision/evaluate.go:21-78 | the step-by-step evaluation yields the rule-by-rule decision |
| `Evaluation.VerdictIsExact` | internal/decision/evaluate.go:12-78 | ALLOW exactly for a permitted command on a registered, unprotected target in an allow environment; DENY lists exactly the applicable rules, in increasing rule order; ALLOW and REQUIRE_APPROVAL have their one reason; version, digest and environment are those of the policy; the fail-closed default is unreachable |
| `Evaluation.NoPolicyDenies` | internal/decision/evaluate.go:22-27 | without a loaded policy every proposal is denied for exactly that reason |
| `Evaluation.AllowNeedsPolicy` | internal/decision/evaluate.go:21-93 | an ALLOW at ingress or at re-validation comes from a loaded policy |
| `Evaluation.ReasonsAreExact` | internal/decision/evaluate.go:28-71 | each reason is given if and only if its own rule applies, and approval is required exactly in a require_approval environment with nothing to deny |
| `Evaluation.ReasonsComeInOrder` | internal/decision/evaluate.go:12-20 | the reasons of a denial come in the documented order |
| `Evaluation.TighteningIsMonotone` | internal/decision/evaluate.go:12-78 | tightening a policy weakens no verdict |
| `Evaluation.RevalidateRequest` | internal/decision/evaluate.go:83-93 | re-validation as code yields the model's decision |
| `Evaluation.RevalidationIsStricter` | internal/decision/evaluate.go:80-93 | re-validation is never weaker than evaluation and allows exactly what evaluation allows for the hashed proposal |
| `Evaluation.MismatchDenies` | internal/decision/evaluate.go:80-93 | for every request: a hash that is not the digest of the proposal is denied with the mismatch as last reason, after the reasons of a denial and no others; a matching hash changes nothing |
| `AgentKeys.ParseAgentKeys` | internal/auth/agentkeys.go:39-78 | accepts exactly the texts that print a non-empty valid list with distinct IDs and keys, and returns its keyring |
| `AgentKeys.PrintedMeansItself` | internal/auth/agentkeys.go:36-45 | printing a valid list gives a text that means that list |
| `AgentKeys.ReadAllIsExact` | internal/auth/agentkeys.go:40-65 | splitting and cutting a text reads a list exactly when the text prints it |
| `AgentKeys.MeansIsExact` | internal/auth/agentkeys.go:36-45 | a text means a list exactly if it is that list, printed, between white space |
| `AgentKeys.KeyRule` | internal/auth/agentkeys.go:57-65 | a key is accepted exactly with 16 to 256 bytes of UTF-8, no white space and, since commas separate entries, no comma |
| `AgentKeys.Resolve` | internal/auth/agentkeys.go:83-96 | each configured key finds its own agent and every other text finds none |

## Left out

- Timestamps and trace IDs of records, claims and audit rows: they steer nothing except that a record retried with another time would be a conflict.
- Audit record IDs as text: the model keys a row by proposal, run, phase and sequence instead of the joined string.
- Detail texts of outcomes and errors: they steer nothing.
- HTTP routing, JSON decoding, body limits and response writing: library behaviour around `intercept`.
- YAML decoding, file reads and the policy loader: the active policy is a snapshot that may change at any step.
- The in-memory audit table and the listing queries: they would only add easy members.
- Temporal's scheduler, replay determinism and clocks: represented by the step rules above.
- Cancellation as a separate signal: an activity whose wait is cancelled brings no answer, and a cancelled reconciliation wait stops the loop.
- Loss of the simulated adapter's in-memory record: results about effects assume a record that is not lost.
- Recovery of claims whose run was terminated or reset, and compensation at most once across several runs: the source promises neither.
- Constant-time comparison and the randomness of IDs and tokens: not functional properties; no result assumes that tokens are distinct.
- Keys that are not valid UTF-8: agent keys are sequences of code points.
