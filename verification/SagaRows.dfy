/** The audit trail of one run: its rows form a word of one fixed grammar, and the rows about
    the fence and the dispatch are backed by what the dispatch activity reported. */
module SagaRows {
  import opened Contracts
  import opened SagaWorkflow
  import opened SagaFacts

  // ---- The grammar ------------------------------------------------------------------

  /** How much of a trail has been read:

        trail    ::=  ""  |  REVALIDATION-FAIL  |  REVALIDATION-PASS dispatch
        dispatch ::=  ""  |  FENCE-FAIL  |  DISPATCH-PASS success  |  DISPATCH-FAIL failure
                   |  (FENCE-UNKNOWN | DISPATCH-UNKNOWN) reconciliation
        reconciliation ::= ""  |  RECONCILIATION-UNKNOWN
                   |  RECONCILIATION-PASS success  |  RECONCILIATION-FAIL failure
        success  ::=  ""  |  COMPLETE-PASS
        failure  ::=  ""  |  FAILED-FAIL  |  (COMPENSATION-PASS | COMPENSATION-FAIL) ["" | FAILED-FAIL] */
  datatype Reading =
    | Empty | Denied | Passed | FenceRefused | OutcomeOpen
    | Confirmed | Complete | Failing | Compensated | Over | OverCompensated | OpenForever | NotATrail

  function Read(g: Reading, row: AuditEntry): Reading {
    match (g, row)
    case (Empty, AuditEntry(Revalidation, FailRow)) => Denied
    case (Empty, AuditEntry(Revalidation, PassRow)) => Passed
    case (Passed, AuditEntry(ExecutionFence, FailRow)) => FenceRefused
    case (Passed, AuditEntry(ExecutionFence, UnknownRow)) => OutcomeOpen
    case (Passed, AuditEntry(DispatchPhase, PassRow)) => Confirmed
    case (Passed, AuditEntry(DispatchPhase, FailRow)) => Failing
    case (Passed, AuditEntry(DispatchPhase, UnknownRow)) => OutcomeOpen
    case (OutcomeOpen, AuditEntry(Reconciliation, PassRow)) => Confirmed
    case (OutcomeOpen, AuditEntry(Reconciliation, FailRow)) => Failing
    case (OutcomeOpen, AuditEntry(Reconciliation, UnknownRow)) => OpenForever
    case (Confirmed, AuditEntry(WorkflowComplete, PassRow)) => Complete
    case (Failing, AuditEntry(WorkflowFailed, FailRow)) => Over
    case (Failing, AuditEntry(Compensation, PassRow)) => Compensated
    case (Failing, AuditEntry(Compensation, FailRow)) => Compensated
    case (Compensated, AuditEntry(WorkflowFailed, FailRow)) => OverCompensated
    case _ => NotATrail
  }

  function Parse(rows: seq<AuditEntry>): Reading {
    if rows == [] then Empty else Read(Parse(rows[..|rows| - 1]), rows[|rows| - 1])
  }

  lemma ParseAppend(rows: seq<AuditEntry>, row: AuditEntry)
    ensures Parse(rows + [row]) == Read(Parse(rows), row)
  {
    assert (rows + [row])[..|rows|] == rows;
  }

  function ReadMove(g: Reading, m: Move): Reading {
    if m.row.Some? then Read(g, m.row.value) else g
  }

  /** How much of a trail a run with this end has written. */
  predicate EndsWith(end: End, g: Reading) {
    match end
    case Succeeded => g == Complete
    case DispatchFailed(partly) => g == (if partly then OverCompensated else Over)
    case OutcomeUnknown => g == OpenForever
    case IngressRejected => g == Empty || g == Denied
    case ClaimRejected => g == Empty || g == Denied || g == FenceRefused
    case RevalidationDenied => g == Empty || g == Denied
    case AuditPersistFailed => g == Empty || g == Passed || g == Confirmed || g == Complete
  }

  /** What the run has read when it waits at a point. */
  predicate Fits(pc: Pc, standing: Standing, g: Reading) {
    match pc
    case RejectRecording(end, _) => g == Empty && (end == IngressRejected || end == ClaimRejected)
    case RejectAuditing(end) => g == Denied && (end == IngressRejected || end == ClaimRejected)
    case DenialAuditing => g == Denied
    case PassAuditing => g == Passed
    case Dispatching => g == Passed
    case FenceReleasing(_) => g == Passed
    case FenceFailAuditing => g == FenceRefused
    case FenceUnknownAuditing => g == OutcomeOpen
    case DispatchAuditing => g == (match standing case Open => OutcomeOpen case Worked => Confirmed case Broke(_) => Failing)
    case MarkingReconciliation => g == OutcomeOpen
    case Reconciling(_) => g == OutcomeOpen
    case ReconcileWaiting(_) => g == OutcomeOpen
    case ReconcileAuditing => g == (match standing case Open => OpenForever case Worked => Confirmed case Broke(_) => Failing)
    case MarkingFailed => g == Failing
    case Compensating => g == Failing && standing == Broke(true)
    case CompensationAuditing => g == Compensated && standing == Broke(true)
    case FailureAuditing => g == (if standing == Broke(true) then OverCompensated else Over)
    case MarkingCompleted => g == Confirmed
    case CompleteAuditing => g == Complete
    case ExitReleasing(end) => EndsWith(end, g)
    case Ended(end) => EndsWith(end, g)
    case _ => g == Empty
  }

  lemma NextFitsEarly(pc: Pc, e: Event, standing: Standing, allow: bool, auditErr: bool, g: Reading)
    requires Fits(pc, Open, g) && Stage(pc) <= 4
    ensures Fits(Next(pc, e, standing, allow, auditErr).pc, standing, ReadMove(g, Next(pc, e, standing, allow, auditErr)))
  {
  }

  lemma NextFitsOpen(pc: Pc, e: Event, standing: Standing, allow: bool, auditErr: bool, g: Reading)
    requires Fits(pc, Open, g) && Stage(pc) == 5
    requires standing == Open || pc.Reconciling?
    ensures Fits(Next(pc, e, standing, allow, auditErr).pc, standing, ReadMove(g, Next(pc, e, standing, allow, auditErr)))
  {
  }

  lemma NextFitsOutcome(pc: Pc, e: Event, standing: Standing, allow: bool, auditErr: bool, g: Reading)
    requires Fits(pc, standing, g) && Stage(pc) == 6
    ensures Fits(Next(pc, e, standing, allow, auditErr).pc, standing, ReadMove(g, Next(pc, e, standing, allow, auditErr)))
  {
  }

  lemma NextFitsFinal(pc: Pc, e: Event, standing: Standing, allow: bool, auditErr: bool, g: Reading)
    requires Fits(pc, standing, g) && Stage(pc) >= 7
    ensures Fits(Next(pc, e, standing, allow, auditErr).pc, standing, ReadMove(g, Next(pc, e, standing, allow, auditErr)))
  {
  }

  lemma FitsIsATrail(pc: Pc, standing: Standing, g: Reading)
    requires Fits(pc, standing, g)
    ensures g != NotATrail
  {
  }

  // ---- Rows and receipts ------------------------------------------------------------

  /** The dispatch activity reported that it did not call the adapter. */
  predicate FenceReported(w: Local) {
    Receipt(DispatchOp, FenceRejected) in w.got || Receipt(DispatchOp, FenceUnknown) in w.got
  }

  predicate HasPhase(rows: seq<AuditEntry>, phase: AuditPhase) {
    exists i :: 0 <= i < |rows| && rows[i].phase == phase
  }

  /** The dispatch activity itself confirmed an outcome. */
  predicate DispatchConfirmed(w: Local) {
    w.confirmed.Some? && w.confirmed.value.op == DispatchOp
  }

  predicate HasDispatchVerdict(rows: seq<AuditEntry>) {
    exists i :: 0 <= i < |rows| && rows[i].phase == DispatchPhase && rows[i].verdict != UnknownRow
  }

  /** A fence row or a rejected claim after dispatch means a fence error, and a confirmed
      dispatch row means a confirmed dispatch answer. */
  predicate RowsBacked(w: Local) {
    && (w.pc.FenceReleasing? || HasPhase(w.rows, ExecutionFence) ==> FenceReported(w))
    && (w.pc == Ended(ClaimRejected) && w.dispatchOver ==> FenceReported(w))
    && (HasDispatchVerdict(w.rows) ==> DispatchConfirmed(w))
    && (Receipt(AuditOp(0, PassEntry), Done) in w.got ==> w.pc.Dispatching? || w.dispatchOver)
  }

  predicate BackedRoute(pc: Pc, e: Event, standing: Standing, m: Move) {
    && (m.pc.FenceReleasing? ==> pc.Dispatching? && (e == Answered(FenceRejected) || e == Answered(FenceUnknown)))
    && (m.row.Some? && m.row.value.phase == ExecutionFence ==> pc.FenceReleasing?)
    && (m.row.Some? && m.row.value.phase == DispatchPhase ==>
          pc.Dispatching? && (m.row.value.verdict == UnknownRow <==> standing == Open))
    && (m.pc == Ended(ClaimRejected) ==> pc.AwaitingToken? || pc.FenceFailAuditing? || Exit(pc) == Some(ClaimRejected))
    && (pc.PassAuditing? && e == Answered(Done) ==> m.pc.Dispatching?)
  }

  lemma NextBackedRoute(pc: Pc, e: Event, standing: Standing, allow: bool, auditErr: bool)
    ensures BackedRoute(pc, e, standing, Next(pc, e, standing, allow, auditErr))
  {
  }

  lemma PhaseOfMove(rows: seq<AuditEntry>, m: Move)
    ensures forall p :: HasPhase(rows + m.Rows(), p) ==> HasPhase(rows, p) || (m.row.Some? && m.row.value.phase == p)
    ensures HasDispatchVerdict(rows + m.Rows()) ==>
              HasDispatchVerdict(rows)
              || (m.row.Some? && m.row.value.phase == DispatchPhase && m.row.value.verdict != UnknownRow)
  {
  }

  /** Only the first row is a PASS of re-validation. */
  lemma OnlyPassAuditing(w: Local)
    requires Facts(w) && Fits(w.pc, w.standing, Parse(w.rows)) && Awaits(w) == AuditOp(0, PassEntry)
    ensures w.pc.PassAuditing?
  {
    assert w.rows == [PassEntry];
    assert w.rows[..0] == [];
    assert Parse(w.rows) == Read(Parse([]), PassEntry) == Passed;
  }

  lemma BackedMoved(w: Local, e: Event, m: Move)
    requires Facts(w) && RowsBacked(w) && Fits(w.pc, w.standing, Parse(w.rows))
    requires BackedRoute(w.pc, e, Noted(w, e).standing, m) && DispatchRoute(w.pc, e, AllowedBy(Noted(w, e)), m)
    requires w.pc.FenceFailAuditing? ==> HasPhase(w.rows, ExecutionFence)
    ensures RowsBacked(Moved(Noted(w, e), m))
  {
    PhaseOfMove(w.rows, m);
    if Awaits(w) == AuditOp(0, PassEntry) {
      OnlyPassAuditing(w);
    }
  }

  // ---- Success ----------------------------------------------------------------------

  predicate OutcomePass(row: AuditEntry) {
    row == AuditEntry(DispatchPhase, PassRow) || row == AuditEntry(Reconciliation, PassRow)
  }

  /** The row before the last one, if it is an acknowledged PASS of the outcome. */
  predicate OutcomeStored(w: Local) {
    var n := |w.rows|;
    n >= 2 && OutcomePass(w.rows[n - 2]) && Receipt(AuditOp(n - 2, w.rows[n - 2]), Done) in w.got
  }

  /** A run succeeds only after COMPLETED, the outcome row and the final row are acknowledged. */
  predicate SuccessBacked(w: Local) {
    && (w.pc.MarkingCompleted? ==>
          w.rows != [] && OutcomePass(w.rows[|w.rows| - 1]) && (w.auditErr || Receipt(LastRow(w), Done) in w.got))
    && (w.pc.CompleteAuditing? || w.pc == Ended(Succeeded) ==>
          && OutcomeStored(w) && w.rows[|w.rows| - 1] == AuditEntry(WorkflowComplete, PassRow)
          && Receipt(MarkOp(Completed), Done) in w.got)
    && (w.pc == Ended(Succeeded) ==> Receipt(LastRow(w), Done) in w.got)
  }

  predicate SuccessRoute(pc: Pc, e: Event, auditErr: bool, m: Move) {
    && (m.pc.MarkingCompleted? ==>
          m.row.None? && (pc.FenceUnknownAuditing? || pc.DispatchAuditing? || pc.ReconcileAuditing?))
    && (m.pc.CompleteAuditing? ==>
          && pc.MarkingCompleted? && e == Answered(Done) && !auditErr
          && m.row == Some(AuditEntry(WorkflowComplete, PassRow)))
    && (m.pc == Ended(Succeeded) ==>
          m.row.None? && ((pc.CompleteAuditing? && e == Answered(Done)) || Exit(pc) == Some(Succeeded)))
    && (pc.Ended? ==> m == Goto(pc))
  }

  lemma NextSuccessRoute(pc: Pc, e: Event, standing: Standing, allow: bool, auditErr: bool)
    ensures SuccessRoute(pc, e, auditErr, Next(pc, e, standing, allow, auditErr))
  {
  }

  lemma OutcomeRowAcknowledged(w: Local, e: Event)
    requires w.pc.FenceUnknownAuditing? || w.pc.DispatchAuditing? || w.pc.ReconcileAuditing?
    ensures Noted(w, e).auditErr || Receipt(LastRow(w), Done) in Noted(w, e).got
  {
  }

  lemma CompletingMoved(w: Local, e: Event, m: Move, w': Local)
    requires SuccessBacked(w) && w' == Moved(Noted(w, e), m) && SuccessRoute(w.pc, e, Noted(w, e).auditErr, m)
    requires m.pc.CompleteAuditing?
    ensures OutcomeStored(w') && w'.rows[|w'.rows| - 1] == AuditEntry(WorkflowComplete, PassRow)
    ensures Receipt(MarkOp(Completed), Done) in w'.got
  {
    assert w'.rows[..|w.rows|] == w.rows;
  }

  lemma SuccessMoved(w: Local, e: Event, m: Move, w': Local)
    requires SuccessBacked(w) && Beginning(w) && w' == Moved(Noted(w, e), m)
    requires SuccessRoute(w.pc, e, Noted(w, e).auditErr, m)
    requires m.pc.MarkingCompleted? ==> w.rows != [] && OutcomePass(w.rows[|w.rows| - 1])
    ensures SuccessBacked(w')
  {
    if m.pc.MarkingCompleted? {
      OutcomeRowAcknowledged(w, e);
      assert w'.rows == w.rows;
    } else if m.pc.CompleteAuditing? {
      CompletingMoved(w, e, m, w');
    } else if m.pc == Ended(Succeeded) {
      assert w'.rows == w.rows;
    }
  }

  /** The last row that leads to a reading. */
  lemma LastRead(rows: seq<AuditEntry>)
    ensures Parse(rows) == Confirmed ==> rows != [] && OutcomePass(rows[|rows| - 1])
    ensures Parse(rows) == FenceRefused ==> HasPhase(rows, ExecutionFence)
  {
    if Parse(rows) == FenceRefused {
      assert rows[|rows| - 1].phase == ExecutionFence;
    }
  }

  // ---- Every history ----------------------------------------------------------------

  predicate Trail(w: Local) {
    Fits(w.pc, w.standing, Parse(w.rows)) && RowsBacked(w) && SuccessBacked(w)
  }

  lemma ReadMoved(rows: seq<AuditEntry>, m: Move)
    ensures Parse(rows + m.Rows()) == ReadMove(Parse(rows), m)
  {
    if m.row.Some? {
      ParseAppend(rows, m.row.value);
    } else {
      assert rows + m.Rows() == rows;
    }
  }

  lemma ReachesMarking(w: Local, standing: Standing)
    requires Outcomes(w) && Fits(w.pc, w.standing, Parse(w.rows)) && standing == w.standing == Worked
    requires w.pc.FenceUnknownAuditing? || w.pc.DispatchAuditing? || w.pc.ReconcileAuditing?
    ensures w.rows != [] && OutcomePass(w.rows[|w.rows| - 1])
  {
    LastRead(w.rows);
  }

  lemma FitsKept(w: Local, e: Event)
    requires Facts(w) && Trail(w)
    ensures Fits(Advance(w, e).pc, Advance(w, e).standing, Parse(Advance(w, e).rows))
  {
    var v, m := Noted(w, e), NextMove(w, e);
    if Stage(w.pc) <= 4 {
      NextFitsEarly(w.pc, e, v.standing, AllowedBy(v), v.auditErr, Parse(w.rows));
    } else if Stage(w.pc) == 5 {
      NextFitsOpen(w.pc, e, v.standing, AllowedBy(v), v.auditErr, Parse(w.rows));
    } else if Stage(w.pc) == 6 {
      NextFitsOutcome(w.pc, e, v.standing, AllowedBy(v), v.auditErr, Parse(w.rows));
    } else {
      NextFitsFinal(w.pc, e, v.standing, AllowedBy(v), v.auditErr, Parse(w.rows));
    }
    ReadMoved(w.rows, m);
  }

  lemma BackedKept(w: Local, e: Event)
    requires Facts(w) && Trail(w)
    ensures RowsBacked(Advance(w, e))
  {
    var v, m := Noted(w, e), NextMove(w, e);
    NextBackedRoute(w.pc, e, v.standing, AllowedBy(v), v.auditErr);
    NextDispatchRoute(w.pc, e, v.standing, AllowedBy(v), v.auditErr);
    LastRead(w.rows);
    BackedMoved(w, e, m);
  }

  lemma SuccessKept(w: Local, e: Event)
    requires Facts(w) && Trail(w)
    ensures SuccessBacked(Advance(w, e))
  {
    var v, m := Noted(w, e), NextMove(w, e);
    NextSuccessRoute(w.pc, e, v.standing, AllowedBy(v), v.auditErr);
    NextSteered(w.pc, e, v.standing, AllowedBy(v), v.auditErr);
    if m.pc.MarkingCompleted? {
      ReachesMarking(w, v.standing);
    }
    SuccessMoved(w, e, m, Advance(w, e));
  }

  lemma TrailKept(w: Local, e: Event)
    requires Facts(w) && Trail(w)
    ensures Trail(Advance(w, e))
  {
    FitsKept(w, e);
    BackedKept(w, e);
    SuccessKept(w, e);
  }

  lemma {:induction false} ReplayTrail(history: seq<Event>)
    ensures Trail(Replay(history))
  {
    if history == [] {
      assert Parse([]) == Empty;
    } else {
      ReplayFacts(history[..|history| - 1]);
      ReplayTrail(history[..|history| - 1]);
      TrailKept(Replay(history[..|history| - 1]), history[|history| - 1]);
    }
  }

  /** On every history the audit rows, in sequence, are a word of the grammar, and how a run
      ended says where in the grammar its trail stops. */
  lemma {:induction false} AuditTrailIsAWord(history: seq<Event>)
    ensures Parse(Replay(history).rows) != NotATrail
    ensures Replay(history).pc.Ended? ==> EndsWith(Replay(history).pc.end, Parse(Replay(history).rows))
  {
    ReplayTrail(history);
    var w := Replay(history);
    FitsIsATrail(w.pc, w.standing, Parse(w.rows));
  }
}
