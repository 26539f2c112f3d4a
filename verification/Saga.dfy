/** The saga workflow as Temporal runs it: a deterministic program replayed over the history of
    what its activities and timers reported.

    A history is a sequence of events; `Replay` is the state the workflow reaches on it.  A
    worker restart replays the whole history, and a reset replays a prefix of it in a new run. */
module SagaWorkflow {
  import opened Contracts

  /** What an activity can report back to the workflow.  `epoch` counts the policies that have
      been active, so that it orders a claim and the policy used after it. */
  datatype Answer =
    | IngressValid
    | IngressInvalid(reason: ReasonCode)
    | ClaimGranted(epoch: nat)
    | ClaimHeld
    | Evaluated(decision: Decision, epoch: nat)
    | Done
    | Refused
    | FenceRejected
    | FenceUnknown
    | Reported(outcome: DispatchOutcome)

  /** NoAnswer is every error that says nothing about what happened: a timeout, a cancelled
      wait, a lost worker, a failing store. */
  datatype Event =
    | Answered(answer: Answer)
    | NoAnswer
    | TokenIssued
    | TokenFailed
    | TimerFired
    | ReconciliationStopped

  /** The activities a run may schedule.  Each is awaited at most once by one run. */
  datatype Op =
    | NoOp
    | VerifyOp
    | ClaimOp
    | EvaluateOp
    | RecordOp(decision: Decision)
    | AuditOp(index: nat, entry: AuditEntry)
    | ReleaseOp
    | DispatchOp
    | MarkOp(to: ClaimState)
    | ReconcileOp(round: nat)
    | CompensateOp

  datatype Receipt = Receipt(op: Op, answer: Answer)

  datatype End =
    | Succeeded
    | IngressRejected
    | ClaimRejected
    | RevalidationDenied
    | AuditPersistFailed
    | DispatchFailed(partly: bool)
    | OutcomeUnknown

  datatype Pc =
    | Verifying
    | RejectRecording(end: End, reason: ReasonCode)
    | RejectAuditing(end: End)
    | AwaitingToken
    | Claiming
    | Evaluating
    | DecisionRecording
    | DenialAuditing
    | PassAuditing
    | Dispatching
    | FenceReleasing(rejected: bool)
    | FenceFailAuditing
    | FenceUnknownAuditing
    | DispatchAuditing
    | MarkingReconciliation
    | Reconciling(round: nat)
    | ReconcileWaiting(round: nat)
    | ReconcileAuditing
    | MarkingFailed
    | Compensating
    | CompensationAuditing
    | FailureAuditing
    | MarkingCompleted
    | CompleteAuditing
    | ExitReleasing(end: End)
    | Ended(end: End)

  /** What the run knows about the effect: nothing yet, or a confirmed outcome. */
  datatype Standing = Open | Worked | Broke(partly: bool)

  function StandingOf(o: DispatchOutcome): Standing {
    match o.status
    case Success => Worked
    case Failure => Broke(o.partiallyApplied)
    case _ => Open
  }

  function RowVerdict(standing: Standing): AuditVerdict {
    match standing
    case Open => UnknownRow
    case Worked => PassRow
    case Broke(_) => FailRow
  }

  /** Acting on the standing of an outcome is acting on the checked outcome. */
  lemma StandingIsChecked(o: DispatchOutcome)
    ensures StandingOf(o) == StandingOf(o.Checked())
    ensures RowVerdict(StandingOf(o)) == AuditVerdictOf(o.Checked())
    ensures StandingOf(o) != Open <==> o.Confirmed()
  {
  }

  datatype Reevaluation = Reevaluation(decision: Decision, epoch: nat)

  /** The workflow's local state: where it waits, the audit rows it has written so far
      (auditSeq is their number), the failed outcome row if any, everything it was told, and the
      evidence it acts on. */
  datatype Local = Local(
    pc: Pc,
    rows: seq<AuditEntry>,
    auditErr: bool,
    got: set<Receipt>,
    claim: Option<nat>,
    reval: Option<Reevaluation>,
    dispatchOver: bool,
    confirmed: Option<Receipt>,
    standing: Standing)

  const Start := Local(Verifying, [], false, {}, None, None, false, None, Open)

  /** The decision recorded for a rejected execution. */
  function Rejection(reason: ReasonCode): Decision {
    Decision(Deny, [reason], "", "", "")
  }

  function LastRow(w: Local): Op {
    if w.rows == [] then NoOp else AuditOp(|w.rows| - 1, w.rows[|w.rows| - 1])
  }

  /** The activity the workflow waits for. */
  function Awaits(w: Local): Op {
    match w.pc
    case Verifying => VerifyOp
    case RejectRecording(_, reason) => RecordOp(Rejection(reason))
    case Claiming => ClaimOp
    case Evaluating => EvaluateOp
    case DecisionRecording => if w.reval.Some? then RecordOp(w.reval.value.decision) else NoOp
    case Dispatching => DispatchOp
    case FenceReleasing(_) => ReleaseOp
    case ExitReleasing(_) => ReleaseOp
    case MarkingReconciliation => MarkOp(ReconciliationRequired)
    case MarkingFailed => MarkOp(Failed)
    case MarkingCompleted => MarkOp(Completed)
    case Reconciling(round) => ReconcileOp(round)
    case Compensating => CompensateOp
    case RejectAuditing(_) => LastRow(w)
    case DenialAuditing => LastRow(w)
    case PassAuditing => LastRow(w)
    case FenceFailAuditing => LastRow(w)
    case FenceUnknownAuditing => LastRow(w)
    case DispatchAuditing => LastRow(w)
    case ReconcileAuditing => LastRow(w)
    case CompensationAuditing => LastRow(w)
    case FailureAuditing => LastRow(w)
    case CompleteAuditing => LastRow(w)
    case AwaitingToken => NoOp
    case ReconcileWaiting(_) => NoOp
    case Ended(_) => NoOp
  }

  // ---- One event --------------------------------------------------------------------

  /** Everything an event adds to what the run knows, before it moves on. */
  function Noted(w: Local, e: Event): Local {
    Local(
      w.pc,
      w.rows,
      if w.pc.FenceUnknownAuditing? || w.pc.DispatchAuditing? || w.pc.ReconcileAuditing?
      then e != Answered(Done) else w.auditErr,
      if e.Answered? then w.got + {Receipt(Awaits(w), e.answer)} else w.got,
      if w.pc.Claiming? && e.Answered? && e.answer.ClaimGranted? then Some(e.answer.epoch) else w.claim,
      if w.pc.Evaluating? && e.Answered? && e.answer.Evaluated?
      then Some(Reevaluation(e.answer.decision, e.answer.epoch)) else w.reval,
      w.dispatchOver || w.pc.Dispatching?,
      if Confirming(w, e) then Some(Receipt(Awaits(w), e.answer)) else w.confirmed,
      if Confirming(w, e) then StandingOf(e.answer.outcome) else w.standing)
  }

  /** Dispatch or reconciliation reported a confirmed outcome; anything else leaves it unknown. */
  predicate Confirming(w: Local, e: Event) {
    (w.pc.Dispatching? || w.pc.Reconciling?) && e.Answered? && e.answer.Reported? && e.answer.outcome.Confirmed()
  }

  /** Where the workflow waits next, and the audit row it writes on the way. */
  datatype Move = Move(pc: Pc, row: Option<AuditEntry>) {
    function Rows(): seq<AuditEntry> {
      if row.Some? then [row.value] else []
    }
  }

  function Moved(w: Local, m: Move): Local {
    w.(pc := m.pc, rows := w.rows + m.Rows())
  }

  function Goto(pc: Pc): Move {
    Move(pc, None)
  }

  function Recording(phase: AuditPhase, verdict: AuditVerdict, pc: Pc): Move {
    Move(pc, Some(AuditEntry(phase, verdict)))
  }

  /** What follows an outcome: SUCCESS completes, FAILURE fails, UNKNOWN reconciles. */
  function Acting(standing: Standing): Move {
    match standing
    case Worked => Goto(MarkingCompleted)
    case Broke(_) => Goto(MarkingFailed)
    case Open => Goto(MarkingReconciliation)
  }

  /** The control flow of the saga.  `allow` says that re-validation yielded ALLOW. */
  function Next(pc: Pc, e: Event, standing: Standing, allow: bool, auditErr: bool): Move {
    var done := e == Answered(Done);
    match pc
    case Verifying =>
      if e == Answered(IngressValid) then Goto(AwaitingToken)
      else if e.Answered? && e.answer.IngressInvalid? then Goto(RejectRecording(IngressRejected, e.answer.reason))
      else Goto(Ended(IngressRejected))
    case RejectRecording(end, _) => Recording(Revalidation, FailRow, RejectAuditing(end))
    case RejectAuditing(end) => Goto(Ended(end))
    case AwaitingToken => Goto(if e.TokenIssued? then Claiming else Ended(ClaimRejected))
    case Claiming =>
      if e.Answered? && e.answer.ClaimGranted? then Goto(Evaluating)
      else if e == Answered(ClaimHeld) then Goto(RejectRecording(ClaimRejected, AlreadyClaimed))
      else Goto(ExitReleasing(ClaimRejected))
    case Evaluating =>
      Goto(if e.Answered? && e.answer.Evaluated? then DecisionRecording else ExitReleasing(RevalidationDenied))
    case DecisionRecording =>
      if !allow then Recording(Revalidation, FailRow, DenialAuditing)
      else if !done then Goto(ExitReleasing(AuditPersistFailed))
      else Recording(Revalidation, PassRow, PassAuditing)
    case DenialAuditing => Goto(ExitReleasing(RevalidationDenied))
    case PassAuditing => Goto(if done then Dispatching else ExitReleasing(AuditPersistFailed))
    case Dispatching =>
      if e == Answered(FenceRejected) then Goto(FenceReleasing(true))
      else if e == Answered(FenceUnknown) then Goto(FenceReleasing(false))
      else Recording(DispatchPhase, RowVerdict(standing), DispatchAuditing)
    case FenceReleasing(rejected) =>
      if done || rejected then Recording(ExecutionFence, FailRow, FenceFailAuditing)
      else Recording(ExecutionFence, UnknownRow, FenceUnknownAuditing)
    case FenceFailAuditing => Goto(Ended(ClaimRejected))
    case FenceUnknownAuditing => Acting(standing)
    case DispatchAuditing => Acting(standing)
    case MarkingReconciliation => Goto(Reconciling(0))
    case Reconciling(round) =>
      if standing == Open then Goto(ReconcileWaiting(round))
      else Recording(Reconciliation, RowVerdict(standing), ReconcileAuditing)
    case ReconcileWaiting(round) =>
      if e.TimerFired? then Goto(Reconciling(round + 1))
      else Recording(Reconciliation, UnknownRow, ReconcileAuditing)
    case ReconcileAuditing => if standing == Open then Goto(Ended(OutcomeUnknown)) else Acting(standing)
    case MarkingFailed =>
      if standing == Broke(true) then Goto(Compensating) else Recording(WorkflowFailed, FailRow, FailureAuditing)
    case Compensating => Recording(Compensation, if done then PassRow else FailRow, CompensationAuditing)
    case CompensationAuditing => Recording(WorkflowFailed, FailRow, FailureAuditing)
    case FailureAuditing => Goto(Ended(DispatchFailed(standing == Broke(true))))
    case MarkingCompleted =>
      if !done || auditErr then Goto(Ended(AuditPersistFailed))
      else Recording(WorkflowComplete, PassRow, CompleteAuditing)
    case CompleteAuditing => Goto(Ended(if done then Succeeded else AuditPersistFailed))
    case ExitReleasing(end) => Goto(Ended(end))
    case Ended(end) => Goto(Ended(end))
  }

  predicate AllowedBy(w: Local) {
    w.reval.Some? && w.reval.value.decision.verdict == Allow
  }

  function NextMove(w: Local, e: Event): Move {
    var v := Noted(w, e);
    Next(w.pc, e, v.standing, AllowedBy(v), v.auditErr)
  }

  function Advance(w: Local, e: Event): Local {
    Moved(Noted(w, e), NextMove(w, e))
  }

  // ---- Whole histories --------------------------------------------------------------

  function Replay(history: seq<Event>): Local {
    if history == [] then Start
    else Advance(Replay(history[..|history| - 1]), history[|history| - 1])
  }

  lemma ReplayAppend(history: seq<Event>, e: Event)
    ensures Replay(history + [e]) == Advance(Replay(history), e)
  {
    assert (history + [e])[..|history|] == history;
  }
}
