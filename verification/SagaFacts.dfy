/** What holds of the saga on every history, whatever the activities answer. */
module SagaFacts {
  import opened Contracts
  import opened SagaWorkflow

  // ---- Classes of waiting points ----------------------------------------------------

  /** How far the run has got. */
  function Stage(pc: Pc): nat {
    match pc
    case Evaluating => 1
    case DecisionRecording => 2
    case DenialAuditing => 2
    case PassAuditing => 3
    case Dispatching => 4
    case FenceReleasing(_) => 5
    case FenceFailAuditing => 5
    case FenceUnknownAuditing => 5
    case MarkingReconciliation => 5
    case Reconciling(_) => 5
    case ReconcileWaiting(_) => 5
    case DispatchAuditing => 6
    case ReconcileAuditing => 6
    case MarkingFailed => 7
    case Compensating => 7
    case CompensationAuditing => 7
    case FailureAuditing => 7
    case MarkingCompleted => 8
    case CompleteAuditing => 8
    case ExitReleasing(_) => 9
    case Ended(_) => 10
    case _ => 0
  }

  /** From re-validation on the run acts on a granted claim. */
  predicate NeedsClaim(pc: Pc) { 1 <= Stage(pc) <= 8 }

  /** From the PASS row on the run acts on a recorded ALLOW. */
  predicate NeedsAllow(pc: Pc) { 3 <= Stage(pc) <= 8 }

  predicate AfterDispatching(pc: Pc) { 5 <= Stage(pc) <= 8 }

  predicate ActingOnFailure(pc: Pc) { Stage(pc) == 7 }

  predicate ActingOnSuccess(pc: Pc) { Stage(pc) == 8 }

  /** The outcome is still open. */
  predicate Unconfirmed(pc: Pc) { Stage(pc) <= 5 || Stage(pc) == 9 }

  /** Activities that can be answered before a claim is granted. */
  predicate EarlyOp(op: Op) {
    || op.VerifyOp? || op.ClaimOp? || op.ReleaseOp? || op.NoOp?
    || (op.RecordOp? && op.decision.verdict != Allow)
    || (op.AuditOp? && op.entry == AuditEntry(Revalidation, FailRow))
  }

  /** A receipt that can precede a granted claim. */
  predicate EarlyReceipt(r: Receipt) {
    EarlyOp(r.op) && !(r.op.ClaimOp? && r.answer.ClaimGranted?)
  }

  const PassEntry := AuditEntry(Revalidation, PassRow)

  // ---- The evidence behind each waiting point ---------------------------------------

  /** A claim, an evaluation and an acknowledged write are never made up: each is a receipt. */
  predicate Evidence(w: Local) {
    && (w.claim.Some? ==>
          Receipt(ClaimOp, ClaimGranted(w.claim.value)) in w.got && Receipt(VerifyOp, IngressValid) in w.got)
    && (w.claim.None? ==> forall r :: r in w.got ==> EarlyReceipt(r))
    && (w.pc.AwaitingToken? || w.pc.Claiming? ==> w.claim.None? && Receipt(VerifyOp, IngressValid) in w.got)
    && (w.pc.Verifying? || w.pc.RejectRecording? || w.pc.RejectAuditing? ==> w.claim.None?)
    && (NeedsClaim(w.pc) ==> w.claim.Some?)
    && (w.reval.Some? ==> w.claim.Some? && Receipt(EvaluateOp, Evaluated(w.reval.value.decision, w.reval.value.epoch)) in w.got)
    && (NeedsClaim(w.pc) ==> (w.pc.Evaluating? <==> w.reval.None?))
  }

  /** Before the first audit row no row exists, and an early exit is one of four refusals. */
  predicate Beginning(w: Local) {
    && (Rowless(w.pc) ==> w.rows == [])
    && (w.pc.RejectAuditing? ==> w.rows == [AuditEntry(Revalidation, FailRow)])
    && (w.pc.RejectRecording? || w.pc.RejectAuditing? || w.pc.ExitReleasing? ==> Refusal(w.pc.end))
  }

  predicate Rowless(pc: Pc) {
    || pc.Verifying? || pc.RejectRecording? || pc.AwaitingToken? || pc.Claiming? || pc.Evaluating?
    || pc.DecisionRecording?
  }

  predicate Refusal(end: End) {
    end.IngressRejected? || end.ClaimRejected? || end.RevalidationDenied? || end.AuditPersistFailed?
  }

  predicate Allowed(w: Local) {
    && w.reval.Some? && w.reval.value.decision.verdict == Allow
    && Receipt(RecordOp(w.reval.value.decision), Done) in w.got
    && w.rows != [] && w.rows[0] == PassEntry
  }

  /** Dispatch is scheduled only on a recorded ALLOW and an acknowledged PASS row, and once. */
  predicate Permission(w: Local) {
    && (NeedsAllow(w.pc) ==> Allowed(w))
    && (w.pc.PassAuditing? ==> |w.rows| == 1)
    && (w.pc.Dispatching? || w.dispatchOver ==> Allowed(w) && Receipt(AuditOp(0, PassEntry), Done) in w.got)
    && (AfterDispatching(w.pc) ==> w.dispatchOver)
    && (w.dispatchOver ==> AfterDispatching(w.pc) || w.pc.Ended?)
    && (forall r :: r in w.got && r.op == DispatchOp ==> w.dispatchOver)
    && (w.confirmed.Some? ==> w.dispatchOver)
  }

  predicate ReportedOp(op: Op) {
    op.DispatchOp? || op.ReconcileOp?
  }

  /** SUCCESS and FAILURE are acted on only when an activity reported them. */
  predicate Outcomes(w: Local) {
    && (w.confirmed.Some? <==> w.standing != Open)
    && (w.confirmed.Some? ==>
          && w.confirmed.value in w.got
          && ReportedOp(w.confirmed.value.op)
          && w.confirmed.value.answer.Reported? && StandingOf(w.confirmed.value.answer.outcome) == w.standing)
    && (Unconfirmed(w.pc) ==> w.standing == Open)
    && (ActingOnSuccess(w.pc) || w.pc == Ended(Succeeded) ==> w.standing == Worked)
    && (ActingOnFailure(w.pc) ==> w.standing.Broke?)
    && (w.pc.Compensating? || w.pc.CompensationAuditing? ==> w.standing == Broke(true))
    && (w.pc.Ended? && w.pc.end.DispatchFailed? ==> w.standing == Broke(w.pc.end.partly))
    && (w.pc == Ended(OutcomeUnknown) ==> w.standing == Open)
  }

  // ---- One event keeps the facts ----------------------------------------------------

  /** The control flow alone: which moves lead where. */
  predicate Route(pc: Pc, e: Event, allow: bool, m: Move) {
    && (NeedsClaim(m.pc) ==> NeedsClaim(pc) || (pc.Claiming? && m.pc.Evaluating?))
    && (m.pc.Evaluating? ==> pc.Claiming? && e.Answered? && e.answer.ClaimGranted?)
    && (pc.Evaluating? && NeedsClaim(m.pc) ==> e.Answered? && e.answer.Evaluated?)
    && (m.pc.AwaitingToken? ==> e == Answered(IngressValid) && pc.Verifying?)
    && (m.pc.Claiming? ==> pc.AwaitingToken?)
    && !m.pc.Verifying?
    && (m.pc.RejectRecording? ==> pc.Verifying? || (pc.Claiming? && e == Answered(ClaimHeld)))
    && (m.pc.RejectAuditing? ==> pc.RejectRecording? && m.row == Some(AuditEntry(Revalidation, FailRow)))
  }

  predicate DispatchRoute(pc: Pc, e: Event, allow: bool, m: Move) {
    && (NeedsAllow(m.pc) && !NeedsAllow(pc) ==>
          pc.DecisionRecording? && m.pc.PassAuditing? && allow && e == Answered(Done) && m.row == Some(PassEntry))
    && (m.pc.PassAuditing? ==> pc.DecisionRecording?)
    && (m.pc.Dispatching? ==> pc.PassAuditing? && e == Answered(Done) && m.row.None?)
    && LeavesDispatch(pc, m)
  }

  predicate LeavesDispatch(pc: Pc, m: Move) {
    && (AfterDispatching(m.pc) ==> pc.Dispatching? || AfterDispatching(pc))
    && (pc.Dispatching? || AfterDispatching(pc) ==> AfterDispatching(m.pc) || m.pc.Ended?)
    && (pc.Ended? ==> m == Goto(pc))
  }

  lemma NextRoute(pc: Pc, e: Event, standing: Standing, allow: bool, auditErr: bool)
    ensures Route(pc, e, allow, Next(pc, e, standing, allow, auditErr))
  {
  }

  lemma NextLeavesDispatch(pc: Pc, e: Event, standing: Standing, allow: bool, auditErr: bool)
    ensures LeavesDispatch(pc, Next(pc, e, standing, allow, auditErr))
  {
  }

  lemma NextDispatchRoute(pc: Pc, e: Event, standing: Standing, allow: bool, auditErr: bool)
    ensures DispatchRoute(pc, e, allow, Next(pc, e, standing, allow, auditErr))
  {
    NextLeavesDispatch(pc, e, standing, allow, auditErr);
  }

  /** An early exit is a refusal, and the first row ends the row-less part. */
  predicate Opening(pc: Pc, m: Move) {
    && (Rowless(m.pc) ==> m.row.None? && Rowless(pc))
    && (m.pc.RejectAuditing? ==> Rowless(pc))
    && (m.pc.RejectRecording? || m.pc.RejectAuditing? || m.pc.ExitReleasing? ==>
          Refusal(m.pc.end) || (pc.RejectRecording? && m.pc.end == pc.end))
  }

  lemma NextOpening(pc: Pc, e: Event, standing: Standing, allow: bool, auditErr: bool)
    ensures Opening(pc, Next(pc, e, standing, allow, auditErr))
  {
  }

  /** How the confirmed outcome steers the workflow. */
  predicate Steered(pc: Pc, e: Event, standing: Standing, m: Move) {
    && SteeredOnOutcome(pc, standing, m)
    && (ActingOnFailure(m.pc) ==> standing.Broke? || ActingOnFailure(pc))
    && (m.pc.Compensating? || m.pc.CompensationAuditing? ==> standing == Broke(true) || pc.Compensating?)
    && SteeredOnFailure(pc, e, standing, m)
  }

  predicate SteeredOnOutcome(pc: Pc, standing: Standing, m: Move) {
    && (ActingOnSuccess(m.pc) ==> standing == Worked || pc.MarkingCompleted?)
    && (m.pc == Ended(Succeeded) ==> pc.CompleteAuditing? || Exit(pc) == Some(m.pc.end))
    && (m.pc == Ended(OutcomeUnknown) ==> standing == Open || Exit(pc) == Some(m.pc.end))
  }

  predicate SteeredOnFailure(pc: Pc, e: Event, standing: Standing, m: Move) {
    && (m.pc.Ended? && m.pc.end.DispatchFailed? ==>
          (pc.FailureAuditing? && m.pc.end.partly == (standing == Broke(true))) || Exit(pc) == Some(m.pc.end))
    && (Unconfirmed(m.pc) ==> standing == Open || (Unconfirmed(pc) && !pc.Reconciling?))
    && (pc.Dispatching? && Unconfirmed(m.pc) ==> e == Answered(FenceRejected) || e == Answered(FenceUnknown))
  }

  /** The end that a run on its way out has already chosen. */
  function Exit(pc: Pc): Option<End> {
    match pc
    case RejectAuditing(end) => Some(end)
    case ExitReleasing(end) => Some(end)
    case Ended(end) => Some(end)
    case _ => None
  }

  lemma NextSteeredOnFailure(pc: Pc, e: Event, standing: Standing, allow: bool, auditErr: bool)
    ensures SteeredOnFailure(pc, e, standing, Next(pc, e, standing, allow, auditErr))
  {
  }

  lemma NextSteeredOnOutcome(pc: Pc, e: Event, standing: Standing, allow: bool, auditErr: bool)
    ensures SteeredOnOutcome(pc, standing, Next(pc, e, standing, allow, auditErr))
  {
  }

  lemma NextSteered(pc: Pc, e: Event, standing: Standing, allow: bool, auditErr: bool)
    ensures Steered(pc, e, standing, Next(pc, e, standing, allow, auditErr))
  {
    NextSteeredOnOutcome(pc, e, standing, allow, auditErr);
    NextSteeredOnFailure(pc, e, standing, allow, auditErr);
  }

  lemma BeginningMoved(w: Local, e: Event, m: Move)
    requires Beginning(w) && Opening(w.pc, m)
    requires Route(w.pc, e, AllowedBy(Noted(w, e)), m)
    ensures Beginning(Moved(Noted(w, e), m))
  {
  }

  lemma EvidenceMoved(w: Local, e: Event, m: Move)
    requires Evidence(w) && Beginning(w)
    requires Route(w.pc, e, AllowedBy(Noted(w, e)), m)
    ensures Evidence(Moved(Noted(w, e), m))
  {
    var r := Awaits(w);
    assert w.claim.None? ==> EarlyOp(r);
  }

  lemma PermissionMoved(w: Local, e: Event, m: Move)
    requires Evidence(w) && Beginning(w) && Permission(w)
    requires DispatchRoute(w.pc, e, AllowedBy(Noted(w, e)), m)
    ensures Permission(Moved(Noted(w, e), m))
  {
    assert Awaits(w) == DispatchOp ==> w.pc.Dispatching?;
  }

  lemma OutcomesMoved(w: Local, e: Event, m: Move)
    requires Outcomes(w) && Beginning(w)
    requires Steered(w.pc, e, Noted(w, e).standing, m)
    ensures Outcomes(Moved(Noted(w, e), m))
  {
  }

  /** What a later state of one run keeps from an earlier one. */
  predicate Keeps(a: Local, b: Local) {
    && a.got <= b.got
    && a.rows <= b.rows
    && (a.claim.Some? ==> b.claim == a.claim)
    && (a.reval.Some? ==> b.reval == a.reval)
    && (a.confirmed.Some? ==> b.confirmed == a.confirmed && b.standing == a.standing)
    && (a.dispatchOver ==> b.dispatchOver)
  }

  lemma MovedKeeps(w: Local, e: Event, m: Move)
    requires Evidence(w) && Outcomes(w)
    ensures Keeps(w, Moved(Noted(w, e), m))
  {
  }

  // ---- Every history ----------------------------------------------------------------

  predicate Facts(w: Local) {
    Beginning(w) && Evidence(w) && Permission(w) && Outcomes(w)
  }

  lemma FactsKept(w: Local, e: Event)
    requires Facts(w)
    ensures Facts(Advance(w, e)) && Keeps(w, Advance(w, e))
  {
    var v := Noted(w, e);
    var m := NextMove(w, e);
    NextRoute(w.pc, e, v.standing, AllowedBy(v), v.auditErr);
    NextDispatchRoute(w.pc, e, v.standing, AllowedBy(v), v.auditErr);
    NextOpening(w.pc, e, v.standing, AllowedBy(v), v.auditErr);
    NextSteered(w.pc, e, v.standing, AllowedBy(v), v.auditErr);
    FactsMoved(w, e, m);
  }

  lemma FactsMoved(w: Local, e: Event, m: Move)
    requires Facts(w) && Opening(w.pc, m) && Steered(w.pc, e, Noted(w, e).standing, m)
    requires Route(w.pc, e, AllowedBy(Noted(w, e)), m) && DispatchRoute(w.pc, e, AllowedBy(Noted(w, e)), m)
    ensures Facts(Moved(Noted(w, e), m)) && Keeps(w, Moved(Noted(w, e), m))
  {
    BeginningMoved(w, e, m);
    EvidenceMoved(w, e, m);
    PermissionMoved(w, e, m);
    OutcomesMoved(w, e, m);
    MovedKeeps(w, e, m);
  }

  /** On every history, what the workflow waits for is backed by the receipts it holds. */
  lemma {:induction false} ReplayFacts(history: seq<Event>)
    ensures Facts(Replay(history))
  {
    if history != [] {
      ReplayFacts(history[..|history| - 1]);
      FactsKept(Replay(history[..|history| - 1]), history[|history| - 1]);
    }
  }

  lemma {:induction false} ReplayKeeps(history: seq<Event>, n: nat)
    requires n <= |history|
    ensures Keeps(Replay(history[..n]), Replay(history))
    decreases |history|
  {
    if n == |history| {
      assert history[..n] == history;
    } else {
      var shorter := history[..|history| - 1];
      assert history[..n] == shorter[..n];
      ReplayKeeps(shorter, n);
      ReplayFacts(shorter);
      FactsKept(Replay(shorter), history[|history| - 1]);
    }
  }
}
