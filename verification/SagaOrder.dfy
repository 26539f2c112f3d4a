/** The workflow never comes back: its waiting points rise in one order, so each activity is
    awaited at most once on every history. */
module SagaOrder {
  import opened Contracts
  import opened SagaWorkflow

  // ---- The order of waiting points --------------------------------------------------

  function Rank(pc: Pc): nat {
    match pc
    case Verifying => 0
    case AwaitingToken => 1
    case Claiming => 2
    case RejectRecording(_, _) => 3
    case RejectAuditing(_) => 4
    case Evaluating => 5
    case DecisionRecording => 6
    case DenialAuditing => 7
    case PassAuditing => 8
    case Dispatching => 9
    case FenceReleasing(_) => 10
    case FenceFailAuditing => 11
    case FenceUnknownAuditing => 12
    case DispatchAuditing => 13
    case MarkingReconciliation => 14
    case Reconciling(_) => 15
    case ReconcileWaiting(_) => 15
    case ReconcileAuditing => 16
    case MarkingFailed => 17
    case Compensating => 18
    case CompensationAuditing => 19
    case FailureAuditing => 20
    case MarkingCompleted => 21
    case CompleteAuditing => 22
    case ExitReleasing(_) => 23
    case Ended(_) => 24
  }

  /** Reconciliation asks and waits in rounds. */
  function Turn(pc: Pc): nat {
    match pc
    case Reconciling(round) => 2 * round
    case ReconcileWaiting(round) => 2 * round + 1
    case _ => 0
  }

  predicate Rises(a: Pc, b: Pc) {
    Rank(a) < Rank(b) || (Rank(a) == Rank(b) && Turn(a) < Turn(b))
  }

  lemma NextRisesEarly(pc: Pc, e: Event, standing: Standing, allow: bool, auditErr: bool)
    requires Rank(pc) <= 9
    ensures Rises(pc, Next(pc, e, standing, allow, auditErr).pc)
  {
  }

  lemma NextRisesInDoubt(pc: Pc, e: Event, standing: Standing, allow: bool, auditErr: bool)
    requires 10 <= Rank(pc) <= 16
    ensures Rises(pc, Next(pc, e, standing, allow, auditErr).pc)
  {
  }

  lemma NextRisesLate(pc: Pc, e: Event, standing: Standing, allow: bool, auditErr: bool)
    requires 17 <= Rank(pc) < 24
    ensures Rises(pc, Next(pc, e, standing, allow, auditErr).pc)
  {
  }

  /** Every event takes the workflow to a later waiting point. */
  lemma NextRises(pc: Pc, e: Event, standing: Standing, allow: bool, auditErr: bool)
    requires !pc.Ended?
    ensures Rises(pc, Next(pc, e, standing, allow, auditErr).pc)
  {
    if Rank(pc) <= 9 {
      NextRisesEarly(pc, e, standing, allow, auditErr);
    } else if Rank(pc) <= 16 {
      NextRisesInDoubt(pc, e, standing, allow, auditErr);
    } else {
      NextRisesLate(pc, e, standing, allow, auditErr);
    }
  }

  // ---- What is behind a waiting point -----------------------------------------------

  /** The run waits for its last audit row. */
  predicate Auditing(pc: Pc) {
    || pc.RejectAuditing? || pc.DenialAuditing? || pc.PassAuditing? || pc.FenceFailAuditing?
    || pc.FenceUnknownAuditing? || pc.DispatchAuditing? || pc.ReconcileAuditing?
    || pc.CompensationAuditing? || pc.FailureAuditing? || pc.CompleteAuditing?
  }

  /** The activity is not awaited at `pc`, with `n` rows written, nor at any later point. */
  predicate Behind(op: Op, pc: Pc, n: nat) {
    match op
    case NoOp => false
    case VerifyOp => Rank(pc) > 0
    case ClaimOp => Rank(pc) > 2
    case RecordOp(_) => pc.RejectAuditing? || Rank(pc) > 6
    case EvaluateOp => Rank(pc) > 5
    case DispatchOp => Rank(pc) > 9
    case ReleaseOp => pc.Ended? || 10 < Rank(pc) < 23
    case ReconcileOp(round) => Rank(pc) > 15 || (Rank(pc) == 15 && Turn(pc) > 2 * round)
    case CompensateOp => Rank(pc) > 18
    case AuditOp(i, _) => i + 1 < n || (i + 1 == n && !Auditing(pc))
    case MarkOp(to) =>
      if to == ReconciliationRequired then Rank(pc) > 14
      else if to == Failed then Rank(pc) > 17
      else if to == Completed then Rank(pc) > 21
      else true
  }

  /** The moves that keep what is behind behind. */
  predicate Onward(pc: Pc, m: Move) {
    && (pc.Ended? || Rises(pc, m.pc))
    && (pc.Ended? ==> m == Goto(pc))
    && OneWay(pc, m)
  }

  predicate OneWay(pc: Pc, m: Move) {
    && (Auditing(m.pc) ==> m.row.Some?)
    && (pc.RejectAuditing? ==> m.pc.Ended?)
    && (pc.RejectRecording? ==> m.pc.RejectAuditing?)
    && (10 <= Rank(pc) < 23 ==> !m.pc.ExitReleasing?)
  }

  lemma NextIsOneWay(pc: Pc, e: Event, standing: Standing, allow: bool, auditErr: bool)
    ensures OneWay(pc, Next(pc, e, standing, allow, auditErr))
  {
  }

  lemma NextIsOnward(pc: Pc, e: Event, standing: Standing, allow: bool, auditErr: bool)
    ensures Onward(pc, Next(pc, e, standing, allow, auditErr))
  {
    NextIsOneWay(pc, e, standing, allow, auditErr);
    if !pc.Ended? {
      NextRises(pc, e, standing, allow, auditErr);
    }
  }

  lemma BehindStays(op: Op, pc: Pc, n: nat, m: Move)
    requires Behind(op, pc, n) && Onward(pc, m)
    ensures Behind(op, m.pc, n + |m.Rows()|)
  {
  }

  lemma AwaitedFallsBehind(w: Local, m: Move)
    requires Awaits(w) != NoOp && Onward(w.pc, m)
    ensures Behind(Awaits(w), m.pc, |w.rows| + |m.Rows()|)
  {
  }

  lemma BehindIsNotAwaited(op: Op, w: Local)
    requires Behind(op, w.pc, |w.rows|)
    ensures Awaits(w) != op
  {
  }

  /** The activity is awaited now, or it never will be again. */
  predicate Reached(op: Op, w: Local) {
    Awaits(w) == op || Behind(op, w.pc, |w.rows|)
  }

  lemma ReachedFallsBehind(op: Op, w: Local, e: Event)
    requires op != NoOp && Reached(op, w)
    ensures Behind(op, Advance(w, e).pc, |Advance(w, e).rows|)
    ensures Awaits(Advance(w, e)) != op
  {
    var v, m := Noted(w, e), NextMove(w, e);
    NextIsOnward(w.pc, e, v.standing, AllowedBy(v), v.auditErr);
    if Awaits(w) == op {
      AwaitedFallsBehind(w, m);
    } else {
      BehindStays(op, w.pc, |w.rows|, m);
    }
    BehindIsNotAwaited(op, Advance(w, e));
  }

  lemma {:induction false} AwaitedStaysBehind(op: Op, history: seq<Event>, i: nat)
    requires i < |history| && op == Awaits(Replay(history[..i])) && op != NoOp
    ensures Behind(op, Replay(history).pc, |Replay(history).rows|)
    decreases |history|
  {
    var shorter, e := history[..|history| - 1], history[|history| - 1];
    assert shorter[..i] == history[..i];
    if i < |shorter| {
      AwaitedStaysBehind(op, shorter, i);
    } else {
      assert shorter[..i] == shorter;
    }
    ReachedFallsBehind(op, Replay(shorter), e);
  }

  /** On every history, no activity is awaited twice. */
  lemma EachActivityIsAwaitedOnce(history: seq<Event>, i: nat, j: nat)
    requires i < j <= |history| && Awaits(Replay(history[..i])) != NoOp
    ensures Awaits(Replay(history[..j])) != Awaits(Replay(history[..i]))
  {
    var op, prefix := Awaits(Replay(history[..i])), history[..j];
    assert prefix[..i] == history[..i];
    AwaitedStaysBehind(op, prefix, i);
    BehindIsNotAwaited(op, Replay(prefix));
  }

  lemma AdvanceRises(w: Local, e: Event)
    ensures if w.pc.Ended? then Advance(w, e).pc == w.pc else Rises(w.pc, Advance(w, e).pc)
  {
    var v := Noted(w, e);
    NextIsOnward(w.pc, e, v.standing, AllowedBy(v), v.auditErr);
  }

  lemma {:induction false} PointsRise(pc: Pc, history: seq<Event>, i: nat)
    requires i < |history| && pc == Replay(history[..i]).pc && !pc.Ended?
    ensures Rises(pc, Replay(history).pc)
    decreases |history|
  {
    var shorter, e := history[..|history| - 1], history[|history| - 1];
    assert shorter[..i] == history[..i];
    if i < |shorter| {
      PointsRise(pc, shorter, i);
    } else {
      assert shorter[..i] == shorter;
    }
    AdvanceRises(Replay(shorter), e);
  }

  /** On every history the waiting points rise until the run ends, so none is visited twice. */
  lemma WaitingPointsRise(history: seq<Event>, i: nat, j: nat)
    requires i < j <= |history| && !Replay(history[..i]).pc.Ended?
    ensures Rises(Replay(history[..i]).pc, Replay(history[..j]).pc)
  {
    var prefix := history[..j];
    assert prefix[..i] == history[..i];
    PointsRise(Replay(history[..i]).pc, prefix, i);
  }

  // ---- The answer to the claim ------------------------------------------------------

  /** The run was told that someone else holds the claim. */
  predicate ToldHeld(w: Local) {
    Receipt(ClaimOp, ClaimHeld) in w.got
  }

  /** Where a run is that was told so: it records the rejection and ends. */
  predicate TurnedAway(pc: Pc) {
    pc == RejectRecording(ClaimRejected, AlreadyClaimed) || pc == RejectAuditing(ClaimRejected) || pc == Ended(ClaimRejected)
  }

  predicate ClaimAnswer(w: Local) {
    && (Rank(w.pc) <= 2 ==> forall r :: r in w.got ==> r.op != ClaimOp)
    && (ToldHeld(w) ==> TurnedAway(w.pc))
  }

  lemma ClaimAnswerKept(w: Local, e: Event)
    requires ClaimAnswer(w)
    ensures ClaimAnswer(Advance(w, e))
  {
    var v, m := Noted(w, e), NextMove(w, e);
    NextIsOnward(w.pc, e, v.standing, AllowedBy(v), v.auditErr);
    assert Awaits(w) == ClaimOp ==> w.pc.Claiming?;
  }

  lemma {:induction false} ReplayClaimAnswer(history: seq<Event>)
    ensures ClaimAnswer(Replay(history))
  {
    if history != [] {
      ReplayClaimAnswer(history[..|history| - 1]);
      ClaimAnswerKept(Replay(history[..|history| - 1]), history[|history| - 1]);
    }
  }
}
