/** The record and wire types shared by every component of the gate.

    A Go string is a Dafny `string` whose characters stand for bytes.  Proposal fields
    carry Go's bound on the length of a string, because the request hash writes that
    length into eight bytes. */
module Contracts {

  datatype Option<+T> = None | Some(value: T)

  const GO_LENGTH_LIMIT: int := 0x8000_0000_0000_0000

  type GoString = s: string | |s| < GO_LENGTH_LIMIT

  /** The text of a request hash: the hex SHA-256 of some bytes, or any other text.
      The constructor is the usual symbolic reading of a collision-free hash. */
  datatype HashText = Sha256Hex(preimage: string) | PlainText(text: string)

  datatype AgentProposal = AgentProposal(id: GoString, command: GoString, targetId: GoString, payload: GoString)

  datatype ExecutionRequest = ExecutionRequest(
    agentId: string, proposal: AgentProposal, ingressDecisionId: string, requestHash: HashText)

  datatype Verdict = Allow | Deny | RequireApproval

  datatype ReasonCode =
    | AgentUnknown | CommandUnknown | CommandNotPermitted
    | TargetUnregistered | TargetProtected | EnvironmentDenied
    | ApprovalRequired | EnvironmentAllowed | PolicyUnavailable | RequestHashMismatch
    | IngressNotFound | IngressWrongStage | IngressNotAllow
    | IngressAgentMismatch | IngressHashMismatch | IngressIdentityMismatch
    | AlreadyClaimed

  datatype Decision = Decision(
    verdict: Verdict, reasons: seq<ReasonCode>, environment: string,
    policyVersion: string, policyDigest: string)

  datatype DecisionStage = Ingress | WorkflowRevalidation

  datatype DecisionRecord = DecisionRecord(
    decisionId: string, stage: DecisionStage, proposalId: string, agentId: string,
    requestHash: HashText, command: string, targetId: string, environment: string,
    verdict: Verdict, reasons: seq<ReasonCode>, policyVersion: string, policyDigest: string,
    workflowId: string)
  {
    /** The fields every stored record must carry. */
    predicate WellFormed() {
      decisionId != "" && proposalId != "" && requestHash != PlainText("")
    }
  }

  // ---- Execution claims -------------------------------------------------------------

  datatype ClaimState =
    | Claimed | Executing | ReconciliationRequired | Completed | Failed | Released
    | OtherState(text: string)

  datatype ClaimOwner = ClaimOwner(workflowId: string, runId: string, token: string) {
    predicate Valid() {
      workflowId != "" && runId != "" && token != ""
    }
  }

  datatype ExecutionClaim = ExecutionClaim(decisionId: string, owner: ClaimOwner, state: ClaimState)

  // ---- Dispatch outcomes ------------------------------------------------------------

  datatype OutcomeStatus = Success | Failure | Unknown | Unrecognised(text: string)

  datatype DispatchOutcome = DispatchOutcome(status: OutcomeStatus, partiallyApplied: bool, detail: string) {
    /** What the workflow may act on: an unrecognised status is read as UNKNOWN. */
    function Checked(): DispatchOutcome {
      match status
      case Success => this.(partiallyApplied := false)
      case Unknown => this.(partiallyApplied := false)
      case Failure => this
      case Unrecognised(text) =>
        UnknownOutcome("adapter reported unrecognised status " + text + ": " + detail)
    }

    /** The target said what happened. */
    predicate Confirmed() {
      status.Success? || status.Failure?
    }
  }

  function UnknownOutcome(detail: string): DispatchOutcome {
    DispatchOutcome(Unknown, false, detail)
  }

  /** Checking invents no confirmation and loses none, and checking twice is checking once. */
  lemma CheckedIsSound(o: DispatchOutcome)
    ensures o.Checked().Confirmed() <==> o.Confirmed()
    ensures o.Confirmed() ==> o.Checked().status == o.status
    ensures o.Checked().status.Success? || o.Checked().status.Failure? || o.Checked().status.Unknown?
    ensures o.Checked().partiallyApplied <==> o.status.Failure? && o.partiallyApplied
    ensures o.Checked().Checked() == o.Checked()
  {
  }

  datatype DispatchRequest = DispatchRequest(idempotencyKey: string, proposal: AgentProposal)

  datatype FencedDispatch = FencedDispatch(decisionId: string, token: string, dispatch: DispatchRequest)

  // ---- Audit rows -------------------------------------------------------------------

  datatype AuditPhase =
    | Revalidation | ExecutionFence | DispatchPhase | Reconciliation
    | Compensation | WorkflowComplete | WorkflowFailed

  datatype AuditVerdict = PassRow | FailRow | UnknownRow

  datatype AuditEntry = AuditEntry(phase: AuditPhase, verdict: AuditVerdict)

  function AuditVerdictOf(o: DispatchOutcome): AuditVerdict {
    match o.status
    case Success => PassRow
    case Failure => FailRow
    case _ => UnknownRow
  }
}
