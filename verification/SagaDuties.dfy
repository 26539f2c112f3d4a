/** Which activities the workflow schedules, given what it was told. */
module SagaDuties {
  import opened Contracts
  import opened SagaWorkflow
  import opened SagaFacts
  import opened SagaOrder
  import opened SagaRows
  import opened SagaAccount

  // ---- What a history has asked for -------------------------------------------------

  /** The activities awaited so far, the present one included. */
  function Asked(history: seq<Event>): set<Op> {
    if history == [] then {VerifyOp} else Asked(history[..|history| - 1]) + {Awaits(Replay(history))}
  }

  predicate AwaitedAt(history: seq<Event>, op: Op, i: nat)
    requires i <= |history|
  {
    Awaits(Replay(history[..i])) == op
  }

  lemma AwaitedEarlier(history: seq<Event>, op: Op, i: nat)
    requires i < |history|
    ensures AwaitedAt(history, op, i) <==> AwaitedAt(history[..|history| - 1], op, i)
  {
    assert history[..|history| - 1][..i] == history[..i];
  }

  lemma AwaitedNow(history: seq<Event>, op: Op)
    ensures AwaitedAt(history, op, |history|) <==> Awaits(Replay(history)) == op
  {
    assert history[..|history|] == history;
  }

  /** An activity was asked for exactly when it was awaited after some prefix of the history. */
  lemma {:induction false} AskedMeans(history: seq<Event>, op: Op)
    ensures op in Asked(history) <==> exists i: nat :: i <= |history| && AwaitedAt(history, op, i)
    decreases |history|
  {
    AwaitedNow(history, op);
    if history != [] {
      var shorter := history[..|history| - 1];
      AskedMeans(shorter, op);
      if op in Asked(shorter) {
        var i: nat :| i <= |shorter| && AwaitedAt(shorter, op, i);
        AwaitedEarlier(history, op, i);
      }
      forall i: nat | i <= |history| && AwaitedAt(history, op, i) ensures op in Asked(history) {
        if i < |history| {
          AwaitedEarlier(history, op, i);
        }
      }
    }
  }

  /** The execution token was issued. */
  predicate Token(history: seq<Event>) {
    history != [] && (Token(history[..|history| - 1])
                      || (Replay(history[..|history| - 1]).pc.AwaitingToken? && history[|history| - 1] == TokenIssued))
  }

  /** How many waits of the reconciliation ended with their timer. */
  function Fired(history: seq<Event>): nat {
    if history == [] then 0
    else Fired(history[..|history| - 1])
         + if Replay(history[..|history| - 1]).pc.ReconcileWaiting? && history[|history| - 1] == TimerFired then 1 else 0
  }

  // ---- The table of activities ------------------------------------------------------

  /** The dispatch is over, and neither it nor the fence settled the outcome. */
  predicate InDoubt(w: Local) {
    w.dispatchOver && !DispatchConfirmed(w) && !FenceLost(w)
  }

  /** The reason the execution was refused for. */
  predicate RefusedFor(w: Local, reason: ReasonCode) {
    Receipt(VerifyOp, IngressInvalid(reason)) in w.got || (ToldHeld(w) && reason == AlreadyClaimed)
  }

  predicate RefusalRecord(w: Local, d: Decision) {
    exists reason :: RefusedFor(w, reason) && d == Decision(Deny, [reason], "", "", "")
  }

  predicate EvaluateDuty(w: Local, asked: set<Op>) {
    EvaluateOp in asked <==> w.claim.Some?
  }

  ghost predicate AuditDuty(w: Local, asked: set<Op>) {
    forall i: nat, entry :: AuditOp(i, entry) in asked <==> i < |w.rows| && w.rows[i] == entry
  }

  ghost predicate RecordDuty(w: Local, asked: set<Op>) {
    && (w.reval.Some? ==> RecordOp(w.reval.value.decision) in asked)
    && (forall reason :: RefusedFor(w, reason) ==> RecordOp(Decision(Deny, [reason], "", "", "")) in asked)
    && (forall d :: RecordOp(d) in asked ==> (w.reval.Some? && d == w.reval.value.decision) || RefusalRecord(w, d))
  }

  predicate DispatchDuty(w: Local, asked: set<Op>) {
    DispatchOp in asked <==> w.pc.Dispatching? || w.dispatchOver
  }

  predicate ClaimDuty(w: Local, asked: set<Op>, token: bool) {
    && (ClaimOp in asked <==> token)
    && (token ==> Rank(w.pc) >= 2 && (w.pc.RejectRecording? || w.pc.RejectAuditing? ==> ToldHeld(w)))
    && (w.pc.Claiming? || 5 <= Rank(w.pc) <= 23 ==> token)
  }

  /** The release is asked for after a fence error, and on an exit before dispatch by a run that
      asked for the claim and was not told that someone else holds it. */
  predicate ReleaseDuty(w: Local, asked: set<Op>, token: bool) {
    ReleaseOp in asked <==>
      FenceReported(w) || (token && !w.dispatchOver && !ToldHeld(w) && (w.pc.ExitReleasing? || w.pc.Ended?))
  }

  ghost predicate DoubtDuty(w: Local, asked: set<Op>, fired: nat) {
    && (MarkOp(ReconciliationRequired) in asked <==> InDoubt(w) && Rank(w.pc) >= 14)
    && (forall k: nat :: ReconcileOp(k) in asked <==> InDoubt(w) && Rank(w.pc) >= 15 && k <= fired)
    && (w.pc.Reconciling? || w.pc.ReconcileWaiting? ==> w.pc.round == fired)
    && (Rank(w.pc) < 15 ==> fired == 0)
  }

  /** The outcome that was confirmed is marked, and a part that took effect is compensated. */
  predicate OutcomeDuty(w: Local, asked: set<Op>) {
    && (MarkOp(Failed) in asked <==> w.standing.Broke? && Rank(w.pc) >= 17)
    && (CompensateOp in asked <==> w.standing == Broke(true) && Rank(w.pc) >= 18)
    && (MarkOp(Completed) in asked <==> w.standing == Worked && Rank(w.pc) >= 21)
  }

  // ---- The control flow behind the table --------------------------------------------

  /** Refusals and evaluations lead to their records, and rows are awaited. */
  predicate RecordRoute(pc: Pc, e: Event, m: Move) {
    && (pc.Verifying? && e.Answered? && e.answer.IngressInvalid? ==> m.pc == RejectRecording(IngressRejected, e.answer.reason))
    && (pc.Claiming? && e == Answered(ClaimHeld) ==> m.pc == RejectRecording(ClaimRejected, AlreadyClaimed))
    && (m.pc.RejectRecording? ==>
          || (pc.Verifying? && e == Answered(IngressInvalid(m.pc.reason)))
          || (pc.Claiming? && e == Answered(ClaimHeld) && m.pc.reason == AlreadyClaimed))
    && (pc.Evaluating? && e.Answered? && e.answer.Evaluated? ==> m.pc.DecisionRecording?)
    && (m.pc.DecisionRecording? ==> pc.Evaluating? && e.Answered? && e.answer.Evaluated?)
    && (m.row.Some? ==> Auditing(m.pc))
  }

  lemma NextRecordRoute(pc: Pc, e: Event, standing: Standing, allow: bool, auditErr: bool)
    ensures RecordRoute(pc, e, Next(pc, e, standing, allow, auditErr))
  {
  }

  /** Fence errors and early exits lead to the release. */
  predicate ReleaseRoute(pc: Pc, e: Event, m: Move) {
    && (pc.Dispatching? ==> (m.pc.FenceReleasing? <==> e == Answered(FenceRejected) || e == Answered(FenceUnknown)))
    && (m.pc.FenceReleasing? ==> pc.Dispatching?)
    && (m.pc.ExitReleasing? ==> pc.Claiming? || 5 <= Rank(pc) <= 8)
    && (m.pc.Ended? && Rank(pc) < 9 ==> Rank(pc) <= 1 || pc.RejectAuditing?)
    && (pc.Claiming? && e == Answered(ClaimHeld) ==> m.pc.RejectRecording?)
  }

  lemma NextReleaseRoute(pc: Pc, e: Event, standing: Standing, allow: bool, auditErr: bool)
    ensures ReleaseRoute(pc, e, Next(pc, e, standing, allow, auditErr))
  {
  }

  /** An open outcome leads to reconciliation, round after round. */
  predicate DoubtRoute(pc: Pc, e: Event, standing: Standing, m: Move) {
    && ((pc.FenceUnknownAuditing? || pc.DispatchAuditing?) && standing == Open ==> m.pc.MarkingReconciliation?)
    && (m.pc.MarkingReconciliation? ==> pc.FenceUnknownAuditing? || pc.DispatchAuditing?)
    && (pc.MarkingReconciliation? ==> m.pc == Reconciling(0))
    && (m.pc.Reconciling? ==> pc.MarkingReconciliation? || (pc.ReconcileWaiting? && e == TimerFired && m.pc.round == pc.round + 1))
    && (pc.ReconcileWaiting? && e == TimerFired ==> m.pc.Reconciling?)
    && (m.pc.ReconcileWaiting? ==> pc.Reconciling? && m.pc.round == pc.round)
  }

  lemma NextDoubtRoute(pc: Pc, e: Event, standing: Standing, allow: bool, auditErr: bool)
    requires standing == Open || pc.DispatchAuditing? || pc.ReconcileAuditing? || Rank(pc) < 12 || Rank(pc) > 14
    ensures DoubtRoute(pc, e, standing, Next(pc, e, standing, allow, auditErr))
  {
  }

  /** A confirmed outcome leads to its mark, and a partial failure on to compensation. */
  predicate OutcomeRoute(pc: Pc, standing: Standing, m: Move) {
    && (pc.DispatchAuditing? || pc.ReconcileAuditing? ==>
          && (standing == Worked ==> m.pc.MarkingCompleted?)
          && (standing.Broke? ==> m.pc.MarkingFailed?))
    && (pc.Dispatching? || pc.Reconciling? ==> Rank(m.pc) < 17)
    && (m.pc.MarkingFailed? ==> standing.Broke? && Rank(pc) < 17)
    && (m.pc.MarkingCompleted? ==> standing == Worked && Rank(pc) < 17)
    && (pc.MarkingFailed? ==> (m.pc.Compensating? <==> standing == Broke(true)))
    && (m.pc.Compensating? ==> pc.MarkingFailed?)
  }

  lemma NextOutcomeRoute(pc: Pc, e: Event, standing: Standing, allow: bool, auditErr: bool)
    ensures OutcomeRoute(pc, standing, Next(pc, e, standing, allow, auditErr))
  {
  }

  // ---- One event --------------------------------------------------------------------

  lemma EvaluateKept(w: Local, e: Event, asked: set<Op>)
    requires EvaluateDuty(w, asked) && Evidence(w)
    ensures EvaluateDuty(Advance(w, e), asked + {Awaits(Advance(w, e))})
  {
  }

  lemma AuditKept(w: Local, m: Move, w': Local, asked: set<Op>)
    requires AuditDuty(w, asked) && w'.rows == w.rows + m.Rows() && w'.pc == m.pc
    requires (m.row.Some? <==> Auditing(m.pc))
    ensures AuditDuty(w', asked + {Awaits(w')})
  {
  }

  lemma RefusedForKept(w: Local, e: Event, reason: ReasonCode)
    ensures RefusedFor(Advance(w, e), reason) <==>
              || RefusedFor(w, reason)
              || (w.pc.Verifying? && e == Answered(IngressInvalid(reason)))
              || (w.pc.Claiming? && e == Answered(ClaimHeld) && reason == AlreadyClaimed)
  {
    OtherAnswers(w, e);
    AwaitedWhere(w);
    assert Awaits(w) == VerifyOp ==> w.pc.Verifying?;
  }

  lemma RecordKept(w: Local, e: Event, m: Move, w': Local, asked: set<Op>)
    requires RecordDuty(w, asked) && RecordRoute(w.pc, e, m) && w' == Moved(Noted(w, e), m)
    requires w.pc.Evaluating? ==> w.reval.None?
    requires forall reason :: RefusedFor(w', reason) <==>
               || RefusedFor(w, reason)
               || (w.pc.Verifying? && e == Answered(IngressInvalid(reason)))
               || (w.pc.Claiming? && e == Answered(ClaimHeld) && reason == AlreadyClaimed)
    ensures RecordDuty(w', asked + {Awaits(w')})
  {
    var asked' := asked + {Awaits(w')};
    if w'.pc.RejectRecording? {
      assert Awaits(w') == RecordOp(Decision(Deny, [w'.pc.reason], "", "", "")) && RefusedFor(w', w'.pc.reason);
    }
    forall d | RecordOp(d) in asked'
      ensures (w'.reval.Some? && d == w'.reval.value.decision) || RefusalRecord(w', d)
    {
      if RecordOp(d) in asked && !(w.reval.Some? && d == w.reval.value.decision) {
        var reason :| RefusedFor(w, reason) && d == Decision(Deny, [reason], "", "", "");
        assert RefusedFor(w', reason);
      } else if Awaits(w') == RecordOp(d) && w'.pc.RejectRecording? {
        assert RefusedFor(w', w'.pc.reason) && d == Decision(Deny, [w'.pc.reason], "", "", "");
      }
    }
  }

  lemma DispatchKept(w: Local, e: Event, asked: set<Op>)
    requires DispatchDuty(w, asked)
    ensures DispatchDuty(Advance(w, e), asked + {Awaits(Advance(w, e))})
  {
  }

  lemma ClaimKept(w: Local, e: Event, asked: set<Op>, token: bool)
    requires ClaimDuty(w, asked, token) && ClaimAnswer(w)
    ensures ClaimDuty(Advance(w, e), asked + {Awaits(Advance(w, e))}, token || (w.pc.AwaitingToken? && e == TokenIssued))
  {
    var v := Noted(w, e);
    NextIsOnward(w.pc, e, v.standing, AllowedBy(v), v.auditErr);
    OtherAnswers(w, e);
  }

  lemma ReleaseKept(w: Local, e: Event, m: Move, w': Local, asked: set<Op>, token: bool, token': bool)
    requires ReleaseDuty(w, asked, token) && ClaimDuty(w, asked, token) && ClaimAnswer(w)
    requires (w.dispatchOver ==> AfterDispatching(w.pc) || w.pc.Ended?) && (AfterDispatching(w.pc) ==> w.dispatchOver)
    requires ReleaseRoute(w.pc, e, m) && w' == Moved(Noted(w, e), m)
    requires Onward(w.pc, m) && token' == (token || (w.pc.AwaitingToken? && e == TokenIssued))
    requires w.pc.AwaitingToken? ==> m.pc == (if e == TokenIssued then Claiming else Ended(ClaimRejected))
    ensures ReleaseDuty(w', asked + {Awaits(w')}, token')
  {
    assert Awaits(w) == DispatchOp ==> w.pc.Dispatching?;
    assert Awaits(w) == ClaimOp ==> w.pc.Claiming?;
    assert Awaits(w') == ReleaseOp <==> w'.pc.FenceReleasing? || w'.pc.ExitReleasing?;
  }

  lemma OutcomeKept(w: Local, e: Event, m: Move, w': Local, asked: set<Op>)
    requires OutcomeDuty(w, asked) && Outcomes(w) && w' == Moved(Noted(w, e), m)
    requires OutcomeRoute(w.pc, w'.standing, m) && Onward(w.pc, m)
    ensures OutcomeDuty(w', asked + {Awaits(w')})
  {
    assert Awaits(w') == MarkOp(Failed) <==> w'.pc.MarkingFailed?;
    assert Awaits(w') == MarkOp(Completed) <==> w'.pc.MarkingCompleted?;
    assert Awaits(w') == CompensateOp <==> w'.pc.Compensating?;
  }

  lemma DoubtKept(w: Local, e: Event, m: Move, w': Local, asked: set<Op>, fired: nat, fired': nat)
    requires DoubtDuty(w, asked, fired) && w' == Moved(Noted(w, e), m) && DoubtRoute(w.pc, e, w'.standing, m) && Onward(w.pc, m)
    requires fired' == fired + if w.pc.ReconcileWaiting? && e == TimerFired then 1 else 0
    requires Rank(w.pc) >= 12 ==> InDoubt(w') == InDoubt(w)
    requires Rank(w.pc) < 12 && Rank(w'.pc) >= 14 ==> !InDoubt(w')
    requires (w.pc.FenceUnknownAuditing? || w.pc.DispatchAuditing?) && w'.standing != Open ==> !InDoubt(w)
    requires w'.pc.MarkingReconciliation? || w'.pc.Reconciling? ==> InDoubt(w')
    ensures DoubtDuty(w', asked + {Awaits(w')}, fired')
  {
    assert Awaits(w') == MarkOp(ReconciliationRequired) <==> w'.pc.MarkingReconciliation?;
    assert forall k: nat :: Awaits(w') == ReconcileOp(k) <==> w'.pc == Reconciling(k);
  }

  lemma DoubtWhere(w: Local)
    requires Outcomes(w) && Permission(w) && Track(w)
    ensures w.pc.MarkingReconciliation? || w.pc.Reconciling? ==> InDoubt(w)
    ensures (w.pc.FenceUnknownAuditing? || w.pc.DispatchAuditing?) && w.standing != Open ==> !InDoubt(w)
    ensures Rank(w.pc) < 9 || w.pc.ExitReleasing? ==> !w.dispatchOver
    ensures w.pc == Ended(ClaimRejected) && w.dispatchOver ==> FenceLost(w)
  {
  }

  lemma DoubtStays(w: Local, e: Event)
    requires Outcomes(w) && Permission(w) && Track(w) && Rank(w.pc) >= 12
    ensures InDoubt(Advance(w, e)) == InDoubt(w)
  {
    OtherAnswers(w, e);
    DoubtWhere(w);
  }

  lemma DoubtBegins(w: Local, e: Event)
    requires Outcomes(w) && Permission(w) && Track(w) && Track(Advance(w, e)) && Outcomes(Advance(w, e)) && Permission(Advance(w, e))
    requires Rank(w.pc) < 12 && Rank(Advance(w, e).pc) >= 14
    ensures !InDoubt(Advance(w, e))
  {
    var v := Noted(w, e);
    EarlyGoesFar(w.pc, e, v.standing, AllowedBy(v), v.auditErr);
    DoubtWhere(w);
    DoubtWhere(Advance(w, e));
  }

  lemma EarlyGoesFar(pc: Pc, e: Event, standing: Standing, allow: bool, auditErr: bool)
    requires Rank(pc) < 12 && Rank(Next(pc, e, standing, allow, auditErr).pc) >= 14
    ensures Rank(pc) < 9 || (pc.FenceFailAuditing? && Next(pc, e, standing, allow, auditErr).pc == Ended(ClaimRejected))
  {
  }

  // ---- Every history ----------------------------------------------------------------

  ghost predicate Duties(w: Local, asked: set<Op>, token: bool, fired: nat) {
    && VerifyOp in asked
    && EvaluateDuty(w, asked) && AuditDuty(w, asked) && RecordDuty(w, asked) && DispatchDuty(w, asked)
    && ClaimDuty(w, asked, token) && ReleaseDuty(w, asked, token) && DoubtDuty(w, asked, fired) && OutcomeDuty(w, asked)
  }

  lemma RecordsAskedFor(w: Local, e: Event, asked: set<Op>)
    requires Evidence(w) && EvaluateDuty(w, asked) && AuditDuty(w, asked) && RecordDuty(w, asked) && DispatchDuty(w, asked)
    ensures var w', more := Advance(w, e), asked + {Awaits(Advance(w, e))};
            EvaluateDuty(w', more) && AuditDuty(w', more) && RecordDuty(w', more) && DispatchDuty(w', more)
  {
    var v, m := Noted(w, e), NextMove(w, e);
    NextRecordRoute(w.pc, e, v.standing, AllowedBy(v), v.auditErr);
    NextIsOneWay(w.pc, e, v.standing, AllowedBy(v), v.auditErr);
    EvaluateKept(w, e, asked);
    AuditKept(w, m, Advance(w, e), asked);
    forall reason
      ensures RefusedFor(Advance(w, e), reason) <==>
                || RefusedFor(w, reason)
                || (w.pc.Verifying? && e == Answered(IngressInvalid(reason)))
                || (w.pc.Claiming? && e == Answered(ClaimHeld) && reason == AlreadyClaimed)
    {
      RefusedForKept(w, e, reason);
    }
    RecordKept(w, e, m, Advance(w, e), asked);
    DispatchKept(w, e, asked);
  }

  lemma ClaimsAskedFor(w: Local, e: Event, asked: set<Op>, token: bool)
    requires ClaimAnswer(w) && Permission(w) && ClaimDuty(w, asked, token) && ReleaseDuty(w, asked, token)
    ensures var token' := token || (w.pc.AwaitingToken? && e == TokenIssued);
            && ClaimDuty(Advance(w, e), asked + {Awaits(Advance(w, e))}, token')
            && ReleaseDuty(Advance(w, e), asked + {Awaits(Advance(w, e))}, token')
  {
    var v, m := Noted(w, e), NextMove(w, e);
    NextReleaseRoute(w.pc, e, v.standing, AllowedBy(v), v.auditErr);
    NextIsOnward(w.pc, e, v.standing, AllowedBy(v), v.auditErr);
    ClaimKept(w, e, asked, token);
    ReleaseKept(w, e, m, Advance(w, e), asked, token, token || (w.pc.AwaitingToken? && e == TokenIssued));
  }

  lemma OutcomesAskedFor(w: Local, e: Event, asked: set<Op>, fired: nat)
    requires Known(w) && DoubtDuty(w, asked, fired) && OutcomeDuty(w, asked)
    ensures DoubtDuty(Advance(w, e), asked + {Awaits(Advance(w, e))},
                      fired + if w.pc.ReconcileWaiting? && e == TimerFired then 1 else 0)
    ensures OutcomeDuty(Advance(w, e), asked + {Awaits(Advance(w, e))})
  {
    var v, m, w' := Noted(w, e), NextMove(w, e), Advance(w, e);
    FactsKept(w, e);
    TrackKept(w, e);
    NextIsOnward(w.pc, e, v.standing, AllowedBy(v), v.auditErr);
    NextOutcomeRoute(w.pc, e, v.standing, AllowedBy(v), v.auditErr);
    OutcomeKept(w, e, m, w', asked);
    if Rank(w.pc) >= 12 {
      DoubtStays(w, e);
    } else if Rank(w'.pc) >= 14 {
      DoubtBegins(w, e);
    }
    DoubtWhere(w);
    DoubtWhere(w');
    NextDoubtRoute(w.pc, e, v.standing, AllowedBy(v), v.auditErr);
    DoubtKept(w, e, m, w', asked, fired, fired + if w.pc.ReconcileWaiting? && e == TimerFired then 1 else 0);
  }

  lemma {:induction false} ReplayDuties(history: seq<Event>)
    ensures Duties(Replay(history), Asked(history), Token(history), Fired(history))
  {
    if history != [] {
      var shorter, e := history[..|history| - 1], history[|history| - 1];
      var w := Replay(shorter);
      ReplayDuties(shorter);
      ReplayKnown(shorter);
      RecordsAskedFor(w, e, Asked(shorter));
      ClaimsAskedFor(w, e, Asked(shorter), Token(shorter));
      OutcomesAskedFor(w, e, Asked(shorter), Fired(shorter));
    }
  }

  lemma ReplayKnown(history: seq<Event>)
    ensures Known(Replay(history))
  {
    ReplayFacts(history);
    ReplayAnswers(history);
    ReplayClaimAnswer(history);
    ReplayTrack(history);
  }

  lemma DispatchedIffCleared(w: Local)
    requires Permission(w) && RowsBacked(w) && w.pc.Ended?
    ensures w.dispatchOver <==> Cleared(w)
  {
  }

  /** The activities of a run that has ended, given what it was told. */
  ghost predicate ByTable(w: Local, asked: set<Op>, token: bool, fired: nat) {
    && VerifyOp in asked
    && (ClaimOp in asked <==> token)
    && (EvaluateOp in asked <==> w.claim.Some?)
    && (forall d :: RecordOp(d) in asked <==> (w.reval.Some? && d == w.reval.value.decision) || RefusalRecord(w, d))
    && (forall i: nat, row :: AuditOp(i, row) in asked <==> i < |TrailOf(w)| && TrailOf(w)[i] == row)
    && (DispatchOp in asked <==> Cleared(w))
    && (ReleaseOp in asked <==> FenceReported(w) || (token && !Cleared(w) && !ToldHeld(w)))
    && (MarkOp(ReconciliationRequired) in asked <==> Cleared(w) && !DispatchConfirmed(w) && !FenceLost(w))
    && (forall k: nat :: ReconcileOp(k) in asked <==> Cleared(w) && !DispatchConfirmed(w) && !FenceLost(w) && k <= fired)
    && (MarkOp(Failed) in asked <==> w.standing.Broke?)
    && (CompensateOp in asked <==> w.standing == Broke(true))
    && (MarkOp(Completed) in asked <==> w.standing == Worked)
  }

  lemma DutiesAreTheTable(w: Local, asked: set<Op>, token: bool, fired: nat)
    requires Duties(w, asked, token, fired) && w.pc.Ended? && (w.dispatchOver <==> Cleared(w)) && w.rows == TrailOf(w)
    ensures ByTable(w, asked, token, fired)
  {
    forall d ensures RecordOp(d) in asked <==> (w.reval.Some? && d == w.reval.value.decision) || RefusalRecord(w, d) {
      if RefusalRecord(w, d) {
        var reason :| RefusedFor(w, reason) && d == Decision(Deny, [reason], "", "", "");
        assert RecordOp(Decision(Deny, [reason], "", "", "")) in asked;
      }
    }
  }

  lemma EndedIffCleared(history: seq<Event>)
    requires Replay(history).pc.Ended?
    ensures Replay(history).dispatchOver <==> Cleared(Replay(history))
  {
    ReplayFacts(history);
    ReplayTrail(history);
    DispatchedIffCleared(Replay(history));
  }

  /** On every history that ends the run, it has scheduled exactly the activities of the table. */
  lemma SchedulesByTable(history: seq<Event>)
    requires Replay(history).pc.Ended?
    ensures ByTable(Replay(history), Asked(history), Token(history), Fired(history))
  {
    ReplayDuties(history);
    ReturnsAndRecordsByTable(history);
    EndedIffCleared(history);
    DutiesAreTheTable(Replay(history), Asked(history), Token(history), Fired(history));
  }

  /** A run that failed after a part took effect has awaited its compensation, and recorded whether
      it worked just before the final row. */
  lemma PartialFailureIsCompensated(history: seq<Event>)
    requires Replay(history).pc == Ended(DispatchFailed(true))
    ensures exists i: nat :: i <= |history| && AwaitedAt(history, CompensateOp, i)
    ensures var w := Replay(history); var n := |w.rows|;
            && n >= 2 && w.rows[n - 1] == AuditEntry(WorkflowFailed, FailRow)
            && w.rows[n - 2] == AuditEntry(Compensation, if Receipt(CompensateOp, Done) in w.got then PassRow else FailRow)
  {
    ReplayFacts(history);
    ReplayDuties(history);
    AskedMeans(history, CompensateOp);
    PartialTrail(history);
  }

  lemma BrokenTrail(w: Local)
    requires Outcomes(w) && Track(w) && w.pc == Ended(DispatchFailed(true))
    ensures w.rows == ActedRows(w) + CompensationRows(w) + [FailedEntry] && w.standing == Broke(true)
  {
  }

  lemma PartialTrail(history: seq<Event>)
    requires Replay(history).pc == Ended(DispatchFailed(true))
    ensures var w := Replay(history); w.rows == ActedRows(w) + CompensationRows(w) + [FailedEntry] && w.standing == Broke(true)
  {
    ReplayFacts(history);
    ReplayTrack(history);
    BrokenTrail(Replay(history));
  }
}
