/** What the workflow returns, which audit rows it writes and which activities it schedules, as a
    function of what it was told: three tables that do not follow its control flow. */
module SagaAccount {
  import opened Contracts
  import opened SagaWorkflow
  import opened SagaFacts
  import opened SagaOrder
  import opened SagaRows

  // ---- Every answer is kept, once ---------------------------------------------------

  /** Answers were given to activities that are behind, one to each; the evidence the workflow
      acts on is exactly what they say. */
  predicate Answers(w: Local) {
    && (forall r :: r in w.got && r.op != NoOp ==> Behind(r.op, w.pc, |w.rows|))
    && (forall r, q :: r in w.got && q in w.got && r.op == q.op != NoOp ==> r == q)
  }

  predicate Recalls(w: Local) {
    && (forall r :: r in w.got && r.op == ClaimOp && r.answer.ClaimGranted? ==> w.claim == Some(r.answer.epoch))
    && (forall r :: r in w.got && r.op == EvaluateOp && r.answer.Evaluated? ==>
          w.reval == Some(Reevaluation(r.answer.decision, r.answer.epoch)))
    && (forall r :: r in w.got && ReportedOp(r.op) && r.answer.Reported? && r.answer.outcome.Confirmed() ==>
          w.confirmed == Some(r))
  }

  lemma AnswersKept(w: Local, e: Event)
    requires Answers(w)
    ensures Answers(Advance(w, e))
  {
    var w' := Advance(w, e);
    forall r | r in w'.got && r.op != NoOp ensures Behind(r.op, w'.pc, |w'.rows|) {
      ReachedFallsBehind(r.op, w, e);
    }
    forall r, q | r in w'.got && q in w'.got && r.op == q.op != NoOp ensures r == q {
      if r in w.got {
        BehindIsNotAwaited(r.op, w);
      }
      if q in w.got {
        BehindIsNotAwaited(q.op, w);
      }
    }
  }

  /** Each of the three activities is awaited at its own waiting points only. */
  lemma AwaitedWhere(w: Local)
    ensures Awaits(w) == ClaimOp ==> w.pc.Claiming?
    ensures Awaits(w) == EvaluateOp ==> w.pc.Evaluating?
    ensures ReportedOp(Awaits(w)) ==> w.pc.Dispatching? || w.pc.Reconciling?
  {
  }

  lemma RecallsKept(w: Local, e: Event)
    requires Answers(w) && Recalls(w) && Facts(w)
    ensures Recalls(Advance(w, e))
  {
    AwaitedWhere(w);
    var w' := Advance(w, e);
    MovedKeeps(w, e, NextMove(w, e));
    forall r | r in w'.got && ReportedOp(r.op) && r.answer.Reported? && r.answer.outcome.Confirmed()
      ensures w'.confirmed == Some(r)
    {
      if r in w.got {
        assert w.confirmed == Some(r);
      }
    }
  }

  lemma {:induction false} ReplayAnswers(history: seq<Event>)
    ensures Answers(Replay(history)) && Recalls(Replay(history))
  {
    if history != [] {
      var shorter := history[..|history| - 1];
      ReplayAnswers(shorter);
      ReplayFacts(shorter);
      AnswersKept(Replay(shorter), history[|history| - 1]);
      RecallsKept(Replay(shorter), history[|history| - 1]);
    }
  }

  // ---- The table of ends ------------------------------------------------------------

  predicate Valid(w: Local) {
    Receipt(VerifyOp, IngressValid) in w.got
  }

  /** The re-validation ALLOW and its PASS row are stored. */
  predicate Cleared(w: Local) {
    AllowedBy(w) && Receipt(RecordOp(w.reval.value.decision), Done) in w.got && Receipt(AuditOp(0, PassEntry), Done) in w.got
  }

  /** The fence was definitely not acquired. */
  predicate FenceLost(w: Local) {
    || Receipt(DispatchOp, FenceRejected) in w.got
    || (Receipt(DispatchOp, FenceUnknown) in w.got && Receipt(ReleaseOp, Done) in w.got)
  }

  /** The outcome row is acknowledged, and so is COMPLETED. */
  predicate Completes(w: Local) {
    var n := |ActedRows(w)|;
    Receipt(AuditOp(n - 1, ActedRows(w)[n - 1]), Done) in w.got && Receipt(MarkOp(Completed), Done) in w.got
  }

  /** What a run returns, given what it was told. */
  function EndOf(w: Local): End {
    if !Valid(w) then IngressRejected
    else if w.claim.None? then ClaimRejected
    else if !AllowedBy(w) then RevalidationDenied
    else if !Cleared(w) then AuditPersistFailed
    else if FenceLost(w) then ClaimRejected
    else match w.standing
      case Open => OutcomeUnknown
      case Broke(partly) => DispatchFailed(partly)
      case Worked =>
        if Completes(w) && Receipt(AuditOp(|ActedRows(w)|, CompleteEntry), Done) in w.got then Succeeded else AuditPersistFailed
  }

  // ---- The table of audit trails ----------------------------------------------------

  const FailEntry := AuditEntry(Revalidation, FailRow)
  const CompleteEntry := AuditEntry(WorkflowComplete, PassRow)
  const FailedEntry := AuditEntry(WorkflowFailed, FailRow)

  /** The row about the first outcome: the fence's doubt, or what dispatch reported. */
  function OutcomeEntry(w: Local): AuditEntry {
    if FenceReported(w) then AuditEntry(ExecutionFence, UnknownRow)
    else AuditEntry(DispatchPhase, if DispatchConfirmed(w) then RowVerdict(w.standing) else UnknownRow)
  }

  function OutcomeRows(w: Local): seq<AuditEntry> {
    [PassEntry, OutcomeEntry(w)]
  }

  function ReconciledRows(w: Local): seq<AuditEntry> {
    [PassEntry, OutcomeEntry(w), AuditEntry(Reconciliation, RowVerdict(w.standing))]
  }

  /** The rows when the run acts on its outcome. */
  function ActedRows(w: Local): (rows: seq<AuditEntry>)
    ensures |rows| >= 2
  {
    if DispatchConfirmed(w) then OutcomeRows(w) else ReconciledRows(w)
  }

  /** The row about compensation, for a part that took effect. */
  function CompensationRows(w: Local): seq<AuditEntry> {
    if w.standing == Broke(true)
    then [AuditEntry(Compensation, if Receipt(CompensateOp, Done) in w.got then PassRow else FailRow)] else []
  }

  predicate ToldInvalid(w: Local) {
    exists reason :: Receipt(VerifyOp, IngressInvalid(reason)) in w.got
  }

  /** The audit trail of a run, given what it was told. */
  function TrailOf(w: Local): seq<AuditEntry> {
    if !Valid(w) then (if ToldInvalid(w) then [FailEntry] else [])
    else if w.claim.None? then (if ToldHeld(w) then [FailEntry] else [])
    else if w.reval.None? then []
    else if !AllowedBy(w) then [FailEntry]
    else if Receipt(RecordOp(w.reval.value.decision), Done) !in w.got then []
    else if !Cleared(w) then [PassEntry]
    else if FenceLost(w) then [PassEntry, AuditEntry(ExecutionFence, FailRow)]
    else match w.standing
      case Open => ReconciledRows(w)
      case Broke(_) => ActedRows(w) + CompensationRows(w) + [FailedEntry]
      case Worked => ActedRows(w) + (if Completes(w) then [CompleteEntry] else [])
  }

  // ---- Where the tables stand at each waiting point ---------------------------------

  predicate EarlyTrack(w: Local) {
    match w.pc
    case Verifying => !Valid(w)
    case AwaitingToken => Valid(w)
    case Claiming => Valid(w)
    case RejectRecording(end, reason) =>
      || (end == IngressRejected && !Valid(w) && Receipt(VerifyOp, IngressInvalid(reason)) in w.got)
      || (end == ClaimRejected && Valid(w) && ToldHeld(w) && reason == AlreadyClaimed)
    case RejectAuditing(end) =>
      || (end == IngressRejected && !Valid(w) && ToldInvalid(w))
      || (end == ClaimRejected && Valid(w) && ToldHeld(w))
    case Evaluating => Valid(w)
    case DecisionRecording => Valid(w)
    case DenialAuditing => Valid(w) && !AllowedBy(w) && w.rows == [FailEntry]
    case PassAuditing =>
      Valid(w) && AllowedBy(w) && Receipt(RecordOp(w.reval.value.decision), Done) in w.got && w.rows == [PassEntry]
    case Dispatching => Valid(w) && Cleared(w) && w.rows == [PassEntry]
    case _ => true
  }

  /** The fence was reported lost or in doubt, or dispatch is over and its outcome known or not. */
  predicate LateTrack(w: Local) {
    match w.pc
    case FenceReleasing(rejected) =>
      w.rows == [PassEntry] && Receipt(DispatchOp, if rejected then FenceRejected else FenceUnknown) in w.got
    case FenceFailAuditing => w.rows == [PassEntry, AuditEntry(ExecutionFence, FailRow)] && FenceLost(w)
    case FenceUnknownAuditing => w.rows == OutcomeRows(w) && FenceReported(w) && !FenceLost(w)
    case DispatchAuditing => w.rows == OutcomeRows(w) && !FenceReported(w) && (w.standing != Open ==> DispatchConfirmed(w))
    case MarkingReconciliation => w.rows == OutcomeRows(w) && !FenceLost(w)
    case Reconciling(_) => w.rows == OutcomeRows(w) && !FenceLost(w)
    case ReconcileWaiting(_) => w.rows == OutcomeRows(w) && !FenceLost(w)
    case ReconcileAuditing => w.rows == ReconciledRows(w) && !FenceLost(w) && !DispatchConfirmed(w)
    case MarkingFailed => w.rows == ActedRows(w) && !FenceLost(w)
    case Compensating => w.rows == ActedRows(w) && !FenceLost(w)
    case CompensationAuditing => w.rows == ActedRows(w) + CompensationRows(w) && !FenceLost(w)
    case FailureAuditing => w.rows == ActedRows(w) + CompensationRows(w) + [FailedEntry] && !FenceLost(w)
    case MarkingCompleted =>
      w.rows == ActedRows(w) && !FenceLost(w)
      && (w.auditErr <==> Receipt(AuditOp(|w.rows| - 1, w.rows[|w.rows| - 1]), Done) !in w.got)
    case CompleteAuditing => w.rows == ActedRows(w) + [CompleteEntry] && !FenceLost(w) && Completes(w)
    case _ => true
  }

  predicate Track(w: Local) {
    && EarlyTrack(w)
    && (AfterDispatching(w.pc) ==> Valid(w) && Cleared(w) && LateTrack(w))
    && (w.pc.ExitReleasing? || w.pc.Ended? ==> w.pc.end == EndOf(w) && w.rows == TrailOf(w))
    && (w.pc.ExitReleasing? ==> !Cleared(w))
  }

  /** What a step relies on. */
  predicate Known(w: Local) {
    Facts(w) && Answers(w) && Recalls(w) && ClaimAnswer(w) && Track(w)
  }

  /** An answer to one activity changes nothing about the others. */
  lemma OtherAnswers(w: Local, e: Event)
    ensures forall op, a :: op != Awaits(w) ==> (Receipt(op, a) in Advance(w, e).got <==> Receipt(op, a) in w.got)
  {
  }

  lemma SameOutcome(w: Local, e: Event)
    requires Awaits(w) != DispatchOp && !Confirming(w, e)
    ensures var w' := Advance(w, e);
            && FenceReported(w') == FenceReported(w) && DispatchConfirmed(w') == DispatchConfirmed(w)
            && w'.standing == w.standing && OutcomeRows(w') == OutcomeRows(w) && ActedRows(w') == ActedRows(w)
            && ReconciledRows(w') == ReconciledRows(w)
  {
    OtherAnswers(w, e);
  }

  // ---- One event, up to dispatch ----------------------------------------------------

  lemma VerifyOnTrack(w: Local, e: Event)
    requires w.pc.Verifying? && w.claim.None? && w.rows == [] && forall a :: Receipt(VerifyOp, a) !in w.got
    ensures Track(Advance(w, e))
  {
    OtherAnswers(w, e);
  }

  lemma RejectionOnTrack(w: Local, e: Event)
    requires EarlyTrack(w) && w.pc.RejectRecording? && w.claim.None? && w.rows == []
    ensures Track(Advance(w, e))
  {
    OtherAnswers(w, e);
  }

  lemma RejectedOnTrack(w: Local, e: Event)
    requires EarlyTrack(w) && w.pc.RejectAuditing? && w.claim.None? && w.rows == [FailEntry]
    ensures Track(Advance(w, e))
  {
    OtherAnswers(w, e);
  }

  lemma TokenOnTrack(w: Local, e: Event)
    requires Valid(w) && w.pc.AwaitingToken? && w.claim.None? && w.rows == [] && !ToldHeld(w)
    ensures Track(Advance(w, e))
  {
    OtherAnswers(w, e);
  }

  lemma ClaimOnTrack(w: Local, e: Event)
    requires Valid(w) && w.pc.Claiming? && w.claim.None? && w.reval.None? && w.rows == [] && !ToldHeld(w)
    ensures Track(Advance(w, e))
  {
    OtherAnswers(w, e);
  }

  lemma EvaluationOnTrack(w: Local, e: Event)
    requires Valid(w) && w.pc.Evaluating? && w.claim.Some? && w.reval.None? && w.rows == []
    ensures Track(Advance(w, e))
  {
    OtherAnswers(w, e);
  }

  lemma DecisionOnTrack(w: Local, e: Event)
    requires w.claim.Some? && w.reval.Some? && w.rows == [] && Valid(w) && w.pc.DecisionRecording?
    requires Receipt(RecordOp(w.reval.value.decision), Done) !in w.got
    ensures Track(Advance(w, e))
  {
    OtherAnswers(w, e);
  }

  lemma DenialOnTrack(w: Local, e: Event)
    requires Evidence(w) && Track(w) && w.pc.DenialAuditing?
    ensures Track(Advance(w, e))
  {
    OtherAnswers(w, e);
  }

  lemma PassOnTrack(w: Local, e: Event)
    requires Evidence(w) && Answers(w) && Track(w) && w.pc.PassAuditing?
    ensures Track(Advance(w, e))
  {
    OtherAnswers(w, e);
    assert Receipt(AuditOp(0, PassEntry), Done) !in w.got;
  }

  /** The same evidence gives the same account. */
  predicate SameEvidence(w: Local, w': Local) {
    w'.claim == w.claim && w'.reval == w.reval && w'.confirmed == w.confirmed && w'.standing == w.standing
  }

  /** The parts the two tables are made of. */
  ghost predicate SameParts(w: Local, w': Local) {
    && SameEvidence(w, w') && Valid(w') == Valid(w) && Cleared(w') == Cleared(w) && FenceLost(w') == FenceLost(w)
    && ToldInvalid(w') == ToldInvalid(w) && ToldHeld(w') == ToldHeld(w)
    && (w.reval.Some? ==> (Receipt(RecordOp(w.reval.value.decision), Done) in w'.got
                           <==> Receipt(RecordOp(w.reval.value.decision), Done) in w.got))
    && ActedRows(w') == ActedRows(w) && ReconciledRows(w') == ReconciledRows(w)
    && CompensationRows(w') == CompensationRows(w) && Completes(w') == Completes(w)
    && (Receipt(AuditOp(|ActedRows(w)|, CompleteEntry), Done) in w'.got
        <==> Receipt(AuditOp(|ActedRows(w)|, CompleteEntry), Done) in w.got)
  }

  lemma PartsStay(w: Local, w': Local)
    requires SameEvidence(w, w')
    requires forall op, a :: op != NoOp ==> (Receipt(op, a) in w'.got <==> Receipt(op, a) in w.got)
    ensures SameParts(w, w')
  {
  }

  lemma SameTables(w: Local, w': Local)
    requires SameParts(w, w')
    ensures EndOf(w') == EndOf(w) && TrailOf(w') == TrailOf(w)
  {
  }

  lemma SameAccount(w: Local, w': Local)
    requires SameEvidence(w, w')
    requires forall op, a :: op != NoOp ==> (Receipt(op, a) in w'.got <==> Receipt(op, a) in w.got)
    ensures EndOf(w') == EndOf(w) && TrailOf(w') == TrailOf(w) && Cleared(w') == Cleared(w)
  {
    PartsStay(w, w');
    SameTables(w, w');
  }

  lemma SameEarlyAccount(w: Local, w': Local)
    requires SameEvidence(w, w') && !Cleared(w)
    requires forall op, a :: op != NoOp && op != ReleaseOp ==> (Receipt(op, a) in w'.got <==> Receipt(op, a) in w.got)
    ensures EndOf(w') == EndOf(w) && TrailOf(w') == TrailOf(w) && Cleared(w') == Cleared(w)
  {
  }

  lemma ExitOnTrack(w: Local, e: Event)
    requires Track(w) && w.pc.ExitReleasing?
    ensures Track(Advance(w, e))
  {
    OtherAnswers(w, e);
    SameEarlyAccount(w, Advance(w, e));
  }

  lemma EndOnTrack(w: Local, e: Event)
    requires Track(w) && w.pc.Ended?
    ensures Track(Advance(w, e))
  {
    OtherAnswers(w, e);
    SameAccount(w, Advance(w, e));
  }

  // ---- One event, from dispatch on --------------------------------------------------

  lemma DispatchOnTrack(w: Local, e: Event)
    requires Valid(w) && w.claim.Some? && Cleared(w) && w.rows == [PassEntry] && w.pc.Dispatching?
    requires w.standing == Open && w.confirmed.None? && forall a :: Receipt(DispatchOp, a) !in w.got
    ensures Track(Advance(w, e))
  {
    OtherAnswers(w, e);
    if e == Answered(FenceRejected) || e == Answered(FenceUnknown) {
      assert Advance(w, e).pc.FenceReleasing?;
    } else {
      assert Advance(w, e).pc.DispatchAuditing? && !FenceReported(Advance(w, e));
    }
  }

  lemma FenceOnTrack(w: Local, e: Event)
    requires Outcomes(w) && Permission(w) && Answers(w) && Track(w) && w.pc.FenceReleasing?
    ensures Track(Advance(w, e))
  {
    OtherAnswers(w, e);
    assert forall a :: Receipt(ReleaseOp, a) !in w.got;
  }

  lemma FenceRefusedOnTrack(w: Local, e: Event)
    requires Outcomes(w) && Permission(w) && Evidence(w) && Track(w) && w.pc.FenceFailAuditing?
    ensures Track(Advance(w, e))
  {
    OtherAnswers(w, e);
  }

  /** The outcome is what matters now. */
  predicate Past(w: Local) {
    Valid(w) && w.claim.Some? && Cleared(w) && !FenceLost(w)
  }

  /** The later state differs only in where it waits, its rows and one answer. */
  ghost predicate Quiet(w: Local, e: Event, w': Local, m: Move) {
    && w'.pc == m.pc && w'.rows == w.rows + m.Rows()
    && FenceReported(w') == FenceReported(w) && DispatchConfirmed(w') == DispatchConfirmed(w)
    && w'.standing == w.standing && OutcomeRows(w') == OutcomeRows(w) && ActedRows(w') == ActedRows(w)
    && ReconciledRows(w') == ReconciledRows(w)
    && (forall op, a :: Receipt(op, a) in w'.got <==> Receipt(op, a) in w.got || (op == Awaits(w) && e == Answered(a)))
  }

  lemma AdvanceIsQuiet(w: Local, e: Event)
    requires Past(w) && AfterDispatching(w.pc) && !w.pc.FenceReleasing? && !Confirming(w, e)
    ensures Quiet(w, e, Advance(w, e), NextMove(w, e)) && Past(Advance(w, e))
    ensures NextMove(w, e) == Next(w.pc, e, w.standing, AllowedBy(w), Noted(w, e).auditErr)
  {
    SameOutcome(w, e);
    assert forall a :: Receipt(NoOp, a) != Receipt(ReleaseOp, Done);
  }

  lemma PastEnd(w: Local)
    requires Past(w)
    ensures w.standing == Open ==> EndOf(w) == OutcomeUnknown && TrailOf(w) == ReconciledRows(w)
    ensures w.standing.Broke? ==>
              EndOf(w) == DispatchFailed(w.standing.partly) && TrailOf(w) == ActedRows(w) + CompensationRows(w) + [FailedEntry]
    ensures w.standing == Worked && !Completes(w) ==> EndOf(w) == AuditPersistFailed && TrailOf(w) == ActedRows(w)
    ensures w.standing == Worked && Completes(w) ==>
              && TrailOf(w) == ActedRows(w) + [CompleteEntry]
              && EndOf(w) == if Receipt(AuditOp(|ActedRows(w)|, CompleteEntry), Done) in w.got then Succeeded else AuditPersistFailed
  {
    assert w.standing == Worked && !Completes(w) ==> TrailOf(w) == ActedRows(w) + [];
  }

  /** On track once the outcome is what matters. */
  predicate LateOnTrack(w: Local) {
    && Past(w)
    && (AfterDispatching(w.pc) ==> LateTrack(w))
    && (w.pc.Ended? ==> w.pc.end == EndOf(w) && w.rows == TrailOf(w))
    && (AfterDispatching(w.pc) || w.pc.Ended?)
  }

  lemma LateIsTrack(w: Local)
    requires LateOnTrack(w)
    ensures Track(w)
  {
  }

  lemma DoubtMoves(w: Local, e: Event, w': Local, m: Move)
    requires Past(w') && LateTrack(w) && w.standing == Open && Quiet(w, e, w', m)
    requires m == Next(w.pc, e, Open, true, w'.auditErr)
    requires w.pc.FenceUnknownAuditing? || w.pc.MarkingReconciliation? || w.pc.ReconcileWaiting?
    requires !DispatchConfirmed(w)
    ensures LateOnTrack(w')
  {
  }

  lemma OutcomeRowMoves(w: Local, e: Event, w': Local, m: Move)
    requires Past(w') && LateTrack(w) && Quiet(w, e, w', m) && (w.pc.DispatchAuditing? || w.pc.ReconcileAuditing?)
    requires m == Next(w.pc, e, w.standing, true, w'.auditErr) && (w'.auditErr <==> e != Answered(Done))
    requires Receipt(AuditOp(|w.rows| - 1, w.rows[|w.rows| - 1]), Done) !in w.got
    ensures LateOnTrack(w')
  {
    PastEnd(w');
  }

  lemma FailureMoves(w: Local, e: Event, w': Local, m: Move)
    requires Past(w') && LateTrack(w) && Quiet(w, e, w', m) && (w.pc.MarkingFailed? || w.pc.Compensating?)
    requires m == Next(w.pc, e, w.standing, true, w'.auditErr) && w.standing.Broke?
    requires w.pc.Compensating? ==> w.standing == Broke(true) && Receipt(CompensateOp, Done) !in w.got
    ensures LateOnTrack(w')
  {
    assert w.pc.MarkingFailed? && w.standing == Broke(false) ==> CompensationRows(w') == [];
  }

  lemma FailureRowsMove(w: Local, e: Event, w': Local, m: Move)
    requires Past(w') && LateTrack(w) && Quiet(w, e, w', m) && (w.pc.CompensationAuditing? || w.pc.FailureAuditing?)
    requires m == Next(w.pc, e, w.standing, true, w'.auditErr) && w.standing.Broke?
    ensures LateOnTrack(w')
  {
    PastEnd(w');
    assert CompensationRows(w') == CompensationRows(w);
  }

  lemma MarkMoves(w: Local, e: Event, w': Local, m: Move)
    requires Past(w') && LateTrack(w) && Quiet(w, e, w', m) && w.pc.MarkingCompleted? && w.standing == Worked
    requires m == Next(w.pc, e, w.standing, true, w.auditErr) && Receipt(MarkOp(Completed), Done) !in w.got
    ensures LateOnTrack(w')
  {
    PastEnd(w');
  }

  lemma CompleteMoves(w: Local, e: Event, w': Local, m: Move)
    requires Past(w') && LateTrack(w) && Quiet(w, e, w', m) && w.pc.CompleteAuditing? && w.standing == Worked
    requires m == Next(w.pc, e, w.standing, true, w'.auditErr)
    requires Receipt(AuditOp(|w.rows| - 1, w.rows[|w.rows| - 1]), Done) !in w.got
    ensures LateOnTrack(w')
  {
    PastEnd(w');
    assert Completes(w') == Completes(w);
  }

  lemma AskOnTrack(w: Local, e: Event)
    requires Outcomes(w) && Permission(w) && Track(w) && w.pc.Reconciling?
    ensures Track(Advance(w, e))
  {
    OtherAnswers(w, e);
  }

  /** The last row is not answered while it is awaited. */
  lemma LastRowIsOpen(w: Local)
    requires Answers(w) && Auditing(w.pc) && w.rows != []
    ensures Receipt(AuditOp(|w.rows| - 1, w.rows[|w.rows| - 1]), Done) !in w.got
  {
  }

  lemma OutcomeMoves(w: Local, e: Event, w': Local, m: Move)
    requires Outcomes(w) && Answers(w) && Past(w') && LateTrack(w) && Quiet(w, e, w', m) && 12 <= Rank(w.pc) <= 16 && !w.pc.Reconciling?
    requires m == Next(w.pc, e, w.standing, true, w'.auditErr)
    requires w.pc.DispatchAuditing? || w.pc.ReconcileAuditing? ==> (w'.auditErr <==> e != Answered(Done))
    ensures LateOnTrack(w')
  {
    if w.pc.DispatchAuditing? || w.pc.ReconcileAuditing? {
      LastRowIsOpen(w);
      OutcomeRowMoves(w, e, w', m);
    } else {
      DoubtMoves(w, e, w', m);
    }
  }

  lemma FailedMoves(w: Local, e: Event, w': Local, m: Move)
    requires Past(w') && LateTrack(w) && Quiet(w, e, w', m) && 17 <= Rank(w.pc) <= 20 && w.standing.Broke?
    requires w.pc.Compensating? ==> w.standing == Broke(true) && Receipt(CompensateOp, Done) !in w.got
    requires m == Next(w.pc, e, w.standing, true, w'.auditErr)
    ensures LateOnTrack(w')
  {
    if w.pc.MarkingFailed? || w.pc.Compensating? {
      FailureMoves(w, e, w', m);
    } else {
      FailureRowsMove(w, e, w', m);
    }
  }

  lemma WorkedMoves(w: Local, e: Event, w': Local, m: Move)
    requires Past(w') && LateTrack(w) && Quiet(w, e, w', m) && 21 <= Rank(w.pc) <= 22 && w.standing == Worked
    requires m == Next(w.pc, e, w.standing, true, w.auditErr)
    requires w.pc.MarkingCompleted? ==> Receipt(MarkOp(Completed), Done) !in w.got
    requires w.pc.CompleteAuditing? ==> Receipt(AuditOp(|w.rows| - 1, w.rows[|w.rows| - 1]), Done) !in w.got
    ensures LateOnTrack(w')
  {
    if w.pc.MarkingCompleted? {
      MarkMoves(w, e, w', m);
    } else {
      CompleteMoves(w, e, w', m);
    }
  }

  /** What is still open at a late waiting point. */
  lemma StillOpen(w: Local)
    requires Outcomes(w) && Answers(w) && 17 <= Rank(w.pc) <= 22 && w.rows != []
    ensures Rank(w.pc) <= 20 ==> w.standing.Broke?
    ensures Rank(w.pc) >= 21 ==> w.standing == Worked
    ensures w.pc.Compensating? ==> w.standing == Broke(true) && Receipt(CompensateOp, Done) !in w.got
    ensures w.pc.MarkingCompleted? ==> Receipt(MarkOp(Completed), Done) !in w.got
    ensures w.pc.CompleteAuditing? ==> Receipt(AuditOp(|w.rows| - 1, w.rows[|w.rows| - 1]), Done) !in w.got
  {
  }

  lemma LateRows(w: Local)
    requires LateTrack(w) && AfterDispatching(w.pc)
    ensures w.rows != []
  {
  }

  lemma LateStep(w: Local, e: Event)
    requires Outcomes(w) && Answers(w) && Evidence(w) && Track(w) && 12 <= Rank(w.pc) <= 22 && !w.pc.Reconciling?
    ensures Track(Advance(w, e))
  {
    var w', m := Advance(w, e), NextMove(w, e);
    AdvanceIsQuiet(w, e);
    if Rank(w.pc) <= 16 {
      OutcomeMoves(w, e, w', m);
    } else {
      LateRows(w);
      StillOpen(w);
      if Rank(w.pc) <= 20 {
        FailedMoves(w, e, w', m);
      } else {
        WorkedMoves(w, e, w', m);
      }
    }
    LateIsTrack(w');
  }

  lemma OpeningStep(w: Local, e: Event)
    requires Known(w) && Rank(w.pc) <= 4
    ensures Track(Advance(w, e))
  {
    if w.pc.Verifying? {
      VerifyOnTrack(w, e);
    } else if w.pc.AwaitingToken? {
      TokenOnTrack(w, e);
    } else if w.pc.Claiming? {
      ClaimOnTrack(w, e);
    } else if w.pc.RejectRecording? {
      RejectionOnTrack(w, e);
    } else {
      RejectedOnTrack(w, e);
    }
  }

  lemma EarlyStep(w: Local, e: Event)
    requires Known(w) && Rank(w.pc) <= 9
    ensures Track(Advance(w, e))
  {
    if Rank(w.pc) <= 4 {
      OpeningStep(w, e);
    } else if w.pc.Evaluating? {
      EvaluationOnTrack(w, e);
    } else if w.pc.DecisionRecording? {
      DecisionOnTrack(w, e);
    } else if w.pc.DenialAuditing? {
      DenialOnTrack(w, e);
    } else if w.pc.PassAuditing? {
      PassOnTrack(w, e);
    } else {
      DispatchOnTrack(w, e);
    }
  }

  lemma TrackKept(w: Local, e: Event)
    requires Known(w)
    ensures Track(Advance(w, e))
  {
    if Rank(w.pc) <= 9 {
      EarlyStep(w, e);
    } else if w.pc.FenceReleasing? {
      FenceOnTrack(w, e);
    } else if w.pc.FenceFailAuditing? {
      FenceRefusedOnTrack(w, e);
    } else if w.pc.Reconciling? {
      AskOnTrack(w, e);
    } else if w.pc.ExitReleasing? {
      ExitOnTrack(w, e);
    } else if w.pc.Ended? {
      EndOnTrack(w, e);
    } else {
      LateStep(w, e);
    }
  }

  lemma {:induction false} ReplayTrack(history: seq<Event>)
    ensures Track(Replay(history))
  {
    if history != [] {
      var shorter := history[..|history| - 1];
      ReplayTrack(shorter);
      ReplayFacts(shorter);
      ReplayAnswers(shorter);
      ReplayClaimAnswer(shorter);
      TrackKept(Replay(shorter), history[|history| - 1]);
    }
  }

  /** On every history that ends the run, what it returns and its whole audit trail are those of
      the tables. */
  lemma ReturnsAndRecordsByTable(history: seq<Event>)
    requires Replay(history).pc.Ended?
    ensures Replay(history).pc.end == EndOf(Replay(history))
    ensures Replay(history).rows == TrailOf(Replay(history))
  {
    ReplayTrack(history);
  }
}
