/** The saga workflow as a program: straight-line code with early returns, a deferred release and
    a reconciliation loop, which waits for one event of its history after another.  It computes
    what `SagaWorkflow.Replay` says on every history. */
module SagaProgram {
  import opened Contracts
  import opened SagaWorkflow
  import opened SagaFacts
  import opened SagaAccount
  import opened SagaDuties

  /** Where a part of the program leaves the workflow. */
  datatype Progress =
    | Blocked               // the history is used up
    | Finished(end: End)
    | Continue

  /** The part of the workflow's state that its control flow depends on. */
  datatype View = View(pc: Pc, rows: seq<AuditEntry>, standing: Standing, reval: Option<Reevaluation>, auditErr: bool) {
    predicate Allows() {
      reval.Some? && reval.value.decision.verdict == Allow
    }

    /** The activity the workflow waits for; NoOp is a side effect or a timer. */
    function Awaited(): Op {
      Awaits(Start.(pc := pc, rows := rows, reval := reval))
    }
  }

  function ViewOf(w: Local): View {
    View(w.pc, w.rows, w.standing, w.reval, w.auditErr)
  }

  lemma ViewAwaits(w: Local)
    ensures ViewOf(w).Awaited() == Awaits(w)
  {
  }

  const StartView := View(Verifying, [], Open, None, false)

  function NextView(v: View, e: Event): View {
    var standing :=
      if (v.pc.Dispatching? || v.pc.Reconciling?) && e.Answered? && e.answer.Reported? && e.answer.outcome.Confirmed()
      then StandingOf(e.answer.outcome) else v.standing;
    var reval :=
      if v.pc.Evaluating? && e.Answered? && e.answer.Evaluated? then Some(Reevaluation(e.answer.decision, e.answer.epoch))
      else v.reval;
    var auditErr :=
      if v.pc.FenceUnknownAuditing? || v.pc.DispatchAuditing? || v.pc.ReconcileAuditing? then e != Answered(Done) else v.auditErr;
    var m := Next(v.pc, e, standing, reval.Some? && reval.value.decision.verdict == Allow, auditErr);
    View(m.pc, v.rows + m.Rows(), standing, reval, auditErr)
  }

  lemma ViewAdvances(w: Local, e: Event)
    ensures ViewOf(Advance(w, e)) == NextView(ViewOf(w), e)
  {
  }

  ghost predicate Linked(history: seq<Event>, trace: seq<View>, i: nat)
    requires i < |history| && i + 1 < |trace|
  {
    trace[i + 1] == NextView(trace[i], history[i])
  }

  /** Each view follows from the one before by the next event of the history. */
  ghost predicate Chain(history: seq<Event>, trace: seq<View>) {
    && 0 < |trace| <= |history| + 1 && trace[0] == StartView
    && forall i: nat :: i + 1 < |trace| ==> Linked(history, trace, i)
  }

  lemma ChainExtends(history: seq<Event>, trace: seq<View>)
    requires Chain(history, trace) && |trace| <= |history|
    ensures Chain(history, trace + [NextView(trace[|trace| - 1], history[|trace| - 1])])
  {
    var longer := trace + [NextView(trace[|trace| - 1], history[|trace| - 1])];
    forall i: nat | i + 1 < |longer| ensures Linked(history, longer, i) {
      if i + 1 < |trace| {
        assert Linked(history, trace, i);
      }
    }
  }

  lemma PrefixView(history: seq<Event>, i: nat)
    requires i < |history|
    ensures ViewOf(Replay(history[..i + 1])) == NextView(ViewOf(Replay(history[..i])), history[i])
  {
    var prefix, e := history[..i], history[i];
    assert history[..i + 1] == prefix + [e];
    ReplayAppend(prefix, e);
    ViewAdvances(Replay(prefix), e);
  }

  /** The views of a chain are those of the replays of the history's prefixes. */
  lemma {:induction false} ChainIsReplay(history: seq<Event>, trace: seq<View>, i: nat)
    requires Chain(history, trace) && i < |trace|
    ensures trace[i] == ViewOf(Replay(history[..i]))
  {
    if i > 0 {
      ChainIsReplay(history, trace, i - 1);
      assert Linked(history, trace, i - 1);
      PrefixView(history, i - 1);
    }
  }

  /** Every wait was for the activity that the view before it awaits. */
  ghost predicate Waited(ops: seq<Op>, trace: seq<View>) {
    |ops| <= |trace| && forall i :: 0 <= i < |ops| ==> ops[i] == trace[i].Awaited()
  }

  lemma WaitedExtends(ops: seq<Op>, trace: seq<View>)
    requires Waited(ops, trace) && |ops| < |trace|
    ensures Waited(ops + [trace[|ops|].Awaited()], trace)
  {
  }

  lemma WaitedStays(ops: seq<Op>, trace: seq<View>, v: View)
    requires Waited(ops, trace)
    ensures Waited(ops, trace + [v])
  {
  }

  /** What an event says about the effect: a confirmed standing, or nothing. */
  function StandingIn(e: Event): Standing {
    if e.Answered? && e.answer.Reported? then StandingOf(e.answer.outcome) else Open
  }

  /** The checked outcome an activity reported; an error counts as UNKNOWN. */
  method ReadOutcome(e: Event) returns (o: DispatchOutcome)
    ensures StandingOf(o) == StandingIn(e)
    ensures AuditVerdictOf(o) == RowVerdict(StandingIn(e))
    ensures o.status.Unknown? <==> StandingIn(e) == Open
    ensures o.status.Failure? ==> StandingIn(e) == Broke(o.partiallyApplied)
    ensures o.status.Success? <==> StandingIn(e) == Worked
  {
    o := if e.Answered? && e.answer.Reported? then e.answer.outcome
         else UnknownOutcome("activity returned no outcome");
    StandingIsChecked(o);
    o := o.Checked();
  }

  /** The fence may have committed and the adapter was not called. */
  method NoOutcome() returns (o: DispatchOutcome)
    ensures StandingOf(o) == Open && AuditVerdictOf(o) == UnknownRow && o.status.Unknown?
  {
    o := UnknownOutcome("execution fence may have committed; adapter not called");
  }

  lemma OpenAtDispatch(history: seq<Event>)
    requires ViewOf(Replay(history)).pc == Dispatching
    ensures ViewOf(Replay(history)).standing == Open
  {
    ReplayFacts(history);
    OpenWhileDispatching(Replay(history));
  }

  lemma OpenWhileDispatching(w: Local)
    requires Outcomes(w) && w.pc.Dispatching?
    ensures w.standing == Open
  {
  }

  class Execution {
    const history: seq<Event>
    var next: nat
    var scheduled: seq<Op>          // what the program has waited for
    var rows: seq<AuditEntry>       // auditSeq is their number
    var mayHoldClaim: bool
    var dispatching: bool
    var outcome: DispatchOutcome
    var auditErr: bool
    ghost var w: View
    ghost var trace: seq<View>

    /** `trace` holds the views of the workflow went through; `w` is the last one. */
    ghost predicate Valid()
      reads this
    {
      && next <= |history| && |trace| == next + 1 && trace[next] == w && Chain(history, trace)
      && next <= |scheduled| <= next + 1 && Waited(scheduled, trace)
    }

    /** The program waits at `pc` and has written the rows it should have. */
    ghost predicate At(pc: Pc)
      reads this
    {
      Valid() && |scheduled| == next && w.pc == pc && w.rows == rows
    }

    /** The program is about to write `row` and then waits at `pc`. */
    ghost predicate AboutTo(phase: AuditPhase, verdict: AuditVerdict, pc: Pc)
      reads this
    {
      Valid() && |scheduled| == next && w.pc == pc && w.rows == rows + [AuditEntry(phase, verdict)]
    }

    /** The program has stopped where the workflow has. */
    ghost predicate Stopped(r: Progress)
      reads this
    {
      && Valid() && w.rows == rows
      && (r.Blocked? ==> next == |history| && !w.pc.Ended? && |scheduled| == next + 1)
      && (!r.Blocked? ==> |scheduled| == next)
      && (r.Finished? ==> w.pc == Ended(r.end))
    }

    constructor (history: seq<Event>)
      ensures this.history == history && At(Verifying) && w == StartView
      ensures !mayHoldClaim && !dispatching && !auditErr
    {
      this.history, next, scheduled, rows := history, 0, [], [];
      mayHoldClaim, dispatching, auditErr := false, false, false;
      outcome := UnknownOutcome("");
      w, trace := StartView, [StartView];
    }

    method Schedule(op: Op)
      requires Valid() && |scheduled| == next && op == w.Awaited()
      modifies this`scheduled
      ensures Valid() && |scheduled| == next + 1
    {
      WaitedExtends(scheduled, trace);
      scheduled := scheduled + [op];
    }

    /** Takes in the next event of the history, if there is one. */
    method Receive() returns (e: Option<Event>)
      requires Valid() && |scheduled| == next + 1
      modifies this`next, this`w, this`trace
      ensures Valid()
      ensures e.None? ==> next == old(next) == |history| && w == old(w)
      ensures e.Some? ==> w == NextView(old(w), e.value) && next == old(next) + 1
    {
      if next == |history| {
        return None;
      }
      e := Some(history[next]);
      ChainExtends(history, trace);
      WaitedStays(scheduled, trace, NextView(w, history[next]));
      w := NextView(w, history[next]);
      trace := trace + [w];
      next := next + 1;
    }

    /** Schedules an activity, which must be the one the replay awaits, and waits for it. */
    method Await(op: Op) returns (e: Option<Event>)
      requires Valid() && |scheduled| == next && op == w.Awaited()
      modifies this`next, this`scheduled, this`w, this`trace
      ensures Valid()
      ensures e.None? ==> next == old(next) == |history| && w == old(w) && |scheduled| == next + 1
      ensures e.Some? ==> w == NextView(old(w), e.value) && next == old(next) + 1 && |scheduled| == next
    {
      Schedule(op);
      e := Receive();
    }

    /** Writes one audit row and waits for it. */
    method Record(phase: AuditPhase, verdict: AuditVerdict) returns (e: Option<Event>)
      requires Valid() && |scheduled| == next && w.rows == rows + [AuditEntry(phase, verdict)]
      requires w.Awaited() == AuditOp(|rows|, AuditEntry(phase, verdict))
      modifies this`next, this`scheduled, this`w, this`trace, this`rows
      ensures Valid() && rows == old(w.rows)
      ensures e.None? ==> next == |history| && w == old(w) && |scheduled| == next + 1
      ensures e.Some? ==> w == NextView(old(w), e.value) && next == old(next) + 1 && |scheduled| == next
    {
      rows := rows + [AuditEntry(phase, verdict)];
      e := Await(AuditOp(|rows| - 1, AuditEntry(phase, verdict)));
    }

    /** The deferred release, run on every exit before dispatch is scheduled. */
    method Leave(end: End) returns (r: Progress)
      requires mayHoldClaim && !dispatching ==> At(ExitReleasing(end))
      requires !mayHoldClaim || dispatching ==> At(Ended(end))
      modifies this`next, this`scheduled, this`w, this`trace
      ensures !r.Continue? && Stopped(r)
    {
      if !mayHoldClaim || dispatching {
        return Finished(end);
      }
      var e := Await(ReleaseOp);
      if e.None? {
        return Blocked;
      }
      r := Finished(end);
    }

    /** Records a DENY for this execution and its audit row. */
    method Reject(end: End, reason: ReasonCode) returns (r: Progress)
      requires At(RejectRecording(end, reason)) && !mayHoldClaim
      modifies this`next, this`scheduled, this`w, this`trace, this`rows
      ensures !r.Continue? && Stopped(r)
    {
      var e := Await(RecordOp(Rejection(reason)));
      if e.None? {
        return Blocked;
      }
      r := RecordRejection(end);
    }

    method RecordRejection(end: End) returns (r: Progress)
      requires AboutTo(Revalidation, FailRow, RejectAuditing(end)) && !mayHoldClaim
      modifies this`next, this`scheduled, this`w, this`trace, this`rows
      ensures !r.Continue? && Stopped(r)
    {
      var e := Record(Revalidation, FailRow);
      if e.None? {
        return Blocked;
      }
      r := Leave(end);
    }

    /** Ingress binding and the execution token. */
    method Verify() returns (r: Progress)
      requires At(Verifying) && !mayHoldClaim && !dispatching
      modifies this`next, this`scheduled, this`w, this`trace, this`rows
      ensures Stopped(r) && (r.Continue? ==> At(Claiming))
    {
      var ingress := Await(VerifyOp);
      if ingress.None? {
        return Blocked;
      }
      if ingress.value.Answered? && ingress.value.answer.IngressInvalid? {
        r := Reject(IngressRejected, ingress.value.answer.reason);
        return;
      }
      if ingress.value != Answered(IngressValid) {
        return Finished(IngressRejected);
      }
      var token := Await(NoOp);
      if token.None? {
        return Blocked;
      }
      if token.value != TokenIssued {
        r := Leave(ClaimRejected);
        return;
      }
      r := Continue;
    }

    /** Someone else holds the claim: record the rejection, and do not release. */
    method TurnAway() returns (r: Progress)
      requires At(RejectRecording(ClaimRejected, AlreadyClaimed))
      modifies this`next, this`scheduled, this`w, this`trace, this`rows, this`mayHoldClaim
      ensures !r.Continue? && Stopped(r)
    {
      mayHoldClaim := false;
      r := Reject(ClaimRejected, AlreadyClaimed);
    }

    /** The execution claim. */
    method Claim() returns (r: Progress)
      requires At(Claiming) && !mayHoldClaim && !dispatching
      modifies this`next, this`scheduled, this`w, this`trace, this`rows, this`mayHoldClaim
      ensures Stopped(r) && (r.Continue? ==> At(Evaluating) && mayHoldClaim)
    {
      mayHoldClaim := true;
      var claim := Await(ClaimOp);
      if claim.None? {
        return Blocked;
      }
      if claim.value == Answered(ClaimHeld) {
        r := TurnAway();
        return;
      }
      if !(claim.value.Answered? && claim.value.answer.ClaimGranted?) {
        r := Leave(ClaimRejected);
        return;
      }
      r := Continue;
    }

    /** Re-validation against the current policy, and its decision record. */
    method Revalidate() returns (r: Progress)
      requires At(Evaluating) && mayHoldClaim && !dispatching
      modifies this`next, this`scheduled, this`w, this`trace, this`rows
      ensures Stopped(r) && (r.Continue? ==> At(Dispatching))
    {
      var evaluated := Await(EvaluateOp);
      if evaluated.None? {
        return Blocked;
      }
      if !(evaluated.value.Answered? && evaluated.value.answer.Evaluated?) {
        r := Leave(RevalidationDenied);
        return;
      }
      r := RecordDecision(evaluated.value.answer.decision);
    }

    method RecordDecision(decision: Decision) returns (r: Progress)
      requires At(DecisionRecording) && w.reval.Some? && w.reval.value.decision == decision && mayHoldClaim && !dispatching
      modifies this`next, this`scheduled, this`w, this`trace, this`rows
      ensures Stopped(r) && (r.Continue? ==> At(Dispatching))
    {
      var recorded := Await(RecordOp(decision));
      if recorded.None? {
        return Blocked;
      }
      if decision.verdict != Allow {
        r := RecordDenial();
        return;
      }
      if recorded.value != Answered(Done) {
        r := Leave(AuditPersistFailed);
        return;
      }
      r := RecordPass();
    }

    method RecordDenial() returns (r: Progress)
      requires AboutTo(Revalidation, FailRow, DenialAuditing) && mayHoldClaim && !dispatching
      modifies this`next, this`scheduled, this`w, this`trace, this`rows
      ensures !r.Continue? && Stopped(r)
    {
      var denied := Record(Revalidation, FailRow);
      if denied.None? {
        return Blocked;
      }
      r := Leave(RevalidationDenied);
    }

    method RecordPass() returns (r: Progress)
      requires AboutTo(Revalidation, PassRow, PassAuditing) && mayHoldClaim && !dispatching
      modifies this`next, this`scheduled, this`w, this`trace, this`rows
      ensures Stopped(r) && (r.Continue? ==> At(Dispatching))
    {
      var passed := Record(Revalidation, PassRow);
      if passed.None? {
        return Blocked;
      }
      if passed.value != Answered(Done) {
        r := Leave(AuditPersistFailed);
        return;
      }
      r := Continue;
    }

    /** The state that follows an outcome. */
    ghost predicate Acts()
      reads this
    {
      && At(Acting(StandingOf(outcome)).pc) && w.standing == StandingOf(outcome) && w.auditErr == auditErr
    }

    /** The row that carries the outcome; a failed write is remembered. */
    method RecordOutcome(phase: AuditPhase) returns (r: Progress)
      requires w.pc == DispatchAuditing || w.pc == FenceUnknownAuditing
      requires AboutTo(phase, AuditVerdictOf(outcome), w.pc) && w.standing == StandingOf(outcome)
      modifies this`next, this`scheduled, this`w, this`trace, this`rows, this`auditErr
      ensures Stopped(r) && (r.Continue? ==> Acts())
    {
      var audited := Record(phase, AuditVerdictOf(outcome));
      if audited.None? {
        return Blocked;
      }
      auditErr := audited.value != Answered(Done);
      r := Continue;
    }

    /** Dispatch, scheduled once: the fence errors, or the reported outcome. */
    method Dispatch() returns (r: Progress)
      requires At(Dispatching) && w.standing == Open
      modifies this`next, this`scheduled, this`w, this`trace, this`rows, this`dispatching, this`outcome, this`auditErr
      ensures Stopped(r) && (r.Continue? ==> Acts())
    {
      dispatching := true;
      var reply := Await(DispatchOp);
      if reply.None? {
        return Blocked;
      }
      if reply.value == Answered(FenceRejected) || reply.value == Answered(FenceUnknown) {
        r := HandleFenceError(reply.value == Answered(FenceRejected));
        return;
      }
      outcome := ReadOutcome(reply.value);
      r := RecordOutcome(DispatchPhase);
    }

    method RefuseFence() returns (r: Progress)
      requires AboutTo(ExecutionFence, FailRow, FenceFailAuditing)
      modifies this`next, this`scheduled, this`w, this`trace, this`rows
      ensures !r.Continue? && Stopped(r)
    {
      var refused := Record(ExecutionFence, FailRow);
      r := if refused.None? then Blocked else Finished(ClaimRejected);
    }

    /** The adapter was not called: release, and reconcile only if the fence may have committed. */
    method HandleFenceError(rejected: bool) returns (r: Progress)
      requires At(FenceReleasing(rejected)) && w.standing == Open
      modifies this`next, this`scheduled, this`w, this`trace, this`rows, this`outcome, this`auditErr
      ensures Stopped(r) && (r.Continue? ==> Acts())
    {
      var released := Await(ReleaseOp);
      if released.None? {
        return Blocked;
      }
      if released.value == Answered(Done) || rejected {
        r := RefuseFence();
        return;
      }
      r := DoubtFence();
    }

    method DoubtFence() returns (r: Progress)
      requires AboutTo(ExecutionFence, UnknownRow, FenceUnknownAuditing) && w.standing == Open
      modifies this`next, this`scheduled, this`w, this`trace, this`rows, this`outcome, this`auditErr
      ensures Stopped(r) && (r.Continue? ==> Acts())
    {
      outcome := NoOutcome();
      r := RecordOutcome(ExecutionFence);
    }

    method AskOnce(round: nat) returns (r: Progress)
      requires At(Reconciling(round)) && w.standing == Open
      modifies this`next, this`scheduled, this`w, this`trace, this`outcome
      ensures r.Blocked? ==> Stopped(r)
      ensures !r.Blocked? ==> r.Continue? && w.standing == StandingOf(outcome) && next > old(next)
      ensures !r.Blocked? && outcome.status.Unknown? ==> At(ReconcileWaiting(round)) && w.standing == Open && AuditVerdictOf(outcome) == UnknownRow
      ensures !r.Blocked? && !outcome.status.Unknown? ==> AboutTo(Reconciliation, AuditVerdictOf(outcome), ReconcileAuditing)
    {
      var reply := Await(ReconcileOp(round));
      if reply.None? {
        return Blocked;
      }
      outcome := ReadOutcome(reply.value);
      r := Continue;
    }

    /** Waits before the next round, unless the window is over or the run is cancelled. */
    method Sleep(round: nat) returns (r: Progress, fired: bool)
      requires At(ReconcileWaiting(round)) && w.standing == Open
      modifies this`next, this`scheduled, this`w, this`trace
      ensures r.Blocked? ==> Stopped(r)
      ensures !r.Blocked? ==> r.Continue? && w.standing == Open && next > old(next)
      ensures !r.Blocked? && fired ==> At(Reconciling(round + 1))
      ensures !r.Blocked? && !fired ==> AboutTo(Reconciliation, UnknownRow, ReconcileAuditing)
    {
      var slept := Await(NoOp);
      if slept.None? {
        return Blocked, false;
      }
      r, fired := Continue, slept.value == TimerFired;
    }

    /** Asks the adapter until it confirms an outcome or the waiting stops. */
    method Ask() returns (r: Progress)
      requires At(Reconciling(0)) && w.standing == Open
      modifies this`next, this`scheduled, this`w, this`trace, this`outcome
      ensures r.Blocked? ==> Stopped(r)
      ensures !r.Blocked? ==>
                && r.Continue? && w.standing == StandingOf(outcome)
                && AboutTo(Reconciliation, AuditVerdictOf(outcome), ReconcileAuditing)
    {
      var round := 0;
      while true
        invariant At(Reconciling(round)) && w.standing == Open
        decreases |history| - next
      {
        r := AskOnce(round);
        if r.Blocked? || !outcome.status.Unknown? {
          return;
        }
        var fired;
        r, fired := Sleep(round);
        if r.Blocked? || !fired {
          return;
        }
        round := round + 1;
      }
    }

    /** An unknown outcome: reconcile, never dispatch again or release. */
    method Reconcile() returns (r: Progress)
      requires At(MarkingReconciliation) && w.standing == Open
      modifies this`next, this`scheduled, this`w, this`trace, this`rows, this`outcome, this`auditErr
      ensures Stopped(r) && (r.Continue? ==> Acts() && w.standing != Open)
    {
      var marked := Await(MarkOp(ReconciliationRequired));
      if marked.None? {
        return Blocked;
      }
      r := Ask();
      if r.Blocked? {
        return;
      }
      r := RecordReconciliation();
    }

    method RecordReconciliation() returns (r: Progress)
      requires AboutTo(Reconciliation, AuditVerdictOf(outcome), ReconcileAuditing) && w.standing == StandingOf(outcome)
      modifies this`next, this`scheduled, this`w, this`trace, this`rows, this`auditErr
      ensures Stopped(r) && (r.Continue? ==> Acts() && w.standing != Open)
    {
      var audited := Record(Reconciliation, AuditVerdictOf(outcome));
      if audited.None? {
        return Blocked;
      }
      auditErr := audited.value != Answered(Done);
      if outcome.status.Unknown? || outcome.status.Unrecognised? {
        return Finished(OutcomeUnknown);
      }
      r := Continue;
    }

    /** A confirmed failure: FAILED, and compensation only for a part that took effect. */
    method Fail() returns (r: Progress)
      requires At(MarkingFailed) && w.standing == Broke(outcome.partiallyApplied)
      modifies this`next, this`scheduled, this`w, this`trace, this`rows
      ensures !r.Continue? && Stopped(r)
    {
      var marked := Await(MarkOp(Failed));
      if marked.None? {
        return Blocked;
      }
      if outcome.partiallyApplied {
        r := Compensate();
        if !r.Continue? {
          return;
        }
      }
      r := RecordFailure();
    }

    method Compensate() returns (r: Progress)
      requires At(Compensating)
      modifies this`next, this`scheduled, this`w, this`trace, this`rows
      ensures r.Blocked? ==> Stopped(r)
      ensures !r.Blocked? ==> r.Continue? && AboutTo(WorkflowFailed, FailRow, FailureAuditing) && w.standing == old(w.standing)
    {
      var reverted := Await(CompensateOp);
      if reverted.None? {
        return Blocked;
      }
      var logged := Record(Compensation, if reverted.value == Answered(Done) then PassRow else FailRow);
      if logged.None? {
        return Blocked;
      }
      r := Continue;
    }

    method RecordFailure() returns (r: Progress)
      requires AboutTo(WorkflowFailed, FailRow, FailureAuditing) && w.standing == Broke(outcome.partiallyApplied)
      modifies this`next, this`scheduled, this`w, this`trace, this`rows
      ensures !r.Continue? && Stopped(r)
    {
      var failed := Record(WorkflowFailed, FailRow);
      if failed.None? {
        return Blocked;
      }
      r := Finished(DispatchFailed(outcome.partiallyApplied));
    }

    /** A confirmed success: COMPLETED, the outcome row and the final row must all be written. */
    method Succeed() returns (r: Progress)
      requires At(MarkingCompleted) && w.auditErr == auditErr
      modifies this`next, this`scheduled, this`w, this`trace, this`rows
      ensures !r.Continue? && Stopped(r)
    {
      var marked := Await(MarkOp(Completed));
      if marked.None? {
        return Blocked;
      }
      if marked.value != Answered(Done) || auditErr {
        return Finished(AuditPersistFailed);
      }
      var complete := Record(WorkflowComplete, PassRow);
      if complete.None? {
        return Blocked;
      }
      r := Finished(if complete.value == Answered(Done) then Succeeded else AuditPersistFailed);
    }

    /** Everything before dispatch. */
    method Prepare() returns (r: Progress)
      requires At(Verifying) && !mayHoldClaim && !dispatching
      modifies this`next, this`scheduled, this`w, this`trace, this`rows, this`mayHoldClaim
      ensures Stopped(r) && (r.Continue? ==> At(Dispatching))
    {
      r := Verify();
      if !r.Continue? {
        return;
      }
      r := Claim();
      if !r.Continue? {
        return;
      }
      r := Revalidate();
    }

    /** Acts on the outcome. */
    method Conclude() returns (r: Progress)
      requires Acts()
      modifies this`next, this`scheduled, this`w, this`trace, this`rows, this`outcome, this`auditErr
      ensures !r.Continue? && Stopped(r)
    {
      if !outcome.status.Success? && !outcome.status.Failure? {
        r := Reconcile();
        if !r.Continue? {
          return;
        }
      }
      if outcome.status.Failure? {
        r := Fail();
        return;
      }
      r := Succeed();
    }

    /** What the workflow returns, if the history takes it that far. */
    method Run() returns (r: Progress)
      requires At(Verifying) && !mayHoldClaim && !dispatching
      modifies this
      ensures !r.Continue? && Stopped(r)
    {
      r := Prepare();
      if !r.Continue? {
        return;
      }
      OpenBeforeDispatch();
      r := Dispatch();
      if !r.Continue? {
        return;
      }
      r := Conclude();
    }

    lemma OpenBeforeDispatch()
      requires At(Dispatching)
      ensures w.standing == Open
    {
      ChainIsReplay(history, trace, next);
      OpenAtDispatch(history[..next]);
    }
  }

  lemma EndedStays(v: View, e: Event)
    requires v.pc.Ended?
    ensures NextView(v, e).pc == v.pc && NextView(v, e).rows == v.rows
  {
  }

  lemma EndedOneMore(history: seq<Event>)
    requires history != [] && Replay(history[..|history| - 1]).pc.Ended?
    ensures var before := Replay(history[..|history| - 1]);
            Replay(history).pc == before.pc && Replay(history).rows == before.rows
  {
    var n := |history| - 1;
    assert history[..n + 1] == history;
    PrefixView(history, n);
    EndedStays(ViewOf(Replay(history[..n])), history[n]);
  }

  /** A workflow that has ended takes in nothing more that could change its end or its trail. */
  lemma {:induction false} EndIsFinal(history: seq<Event>, n: nat)
    requires n <= |history| && Replay(history[..n]).pc.Ended?
    ensures Replay(history).pc == Replay(history[..n]).pc && Replay(history).rows == Replay(history[..n]).rows
    decreases |history|
  {
    if n == |history| {
      assert history[..n] == history;
    } else {
      var shorter := history[..|history| - 1];
      assert history[..n] == shorter[..n] && history[..|history|] == history;
      EndIsFinal(shorter, n);
      EndedOneMore(history);
    }
  }

  lemma WaitedIsAwaited(history: seq<Event>, ops: seq<Op>, trace: seq<View>)
    requires Chain(history, trace) && Waited(ops, trace)
    ensures forall i :: 0 <= i < |ops| ==> i <= |history| && ops[i] == Awaits(Replay(history[..i]))
  {
    forall i | 0 <= i < |ops| ensures i <= |history| && ops[i] == Awaits(Replay(history[..i])) {
      ChainIsReplay(history, trace, i);
      ViewAwaits(Replay(history[..i]));
    }
  }

  /** What was asked for up to the end is all that was asked for. */
  lemma AllAsked(history: seq<Event>, ops: seq<Op>)
    requires forall i :: 0 <= i < |ops| ==> i <= |history| && ops[i] == Awaits(Replay(history[..i]))
    requires |ops| == |history| + 1 || (|ops| <= |history| && Replay(history[..|ops|]).pc.Ended?)
    ensures forall op :: op != NoOp ==> (op in ops <==> op in Asked(history))
  {
    forall op | op != NoOp ensures op in ops <==> op in Asked(history) {
      AskedMeans(history, op);
      if op in ops {
        var i :| 0 <= i < |ops| && ops[i] == op;
        assert AwaitedAt(history, op, i);
      }
      if op in Asked(history) {
        var i: nat :| i <= |history| && AwaitedAt(history, op, i);
        if i >= |ops| {
          NothingAfterEnd(history, |ops|, i);
        }
      }
    }
  }

  lemma NothingAfterEnd(history: seq<Event>, n: nat, i: nat)
    requires n <= i <= |history| && Replay(history[..n]).pc.Ended?
    ensures Awaits(Replay(history[..i])) == NoOp
  {
    var prefix := history[..i];
    assert prefix[..n] == history[..n];
    EndedPrefix(prefix, n);
  }

  lemma EndedPrefix(history: seq<Event>, n: nat)
    requires n <= |history| && Replay(history[..n]).pc.Ended?
    ensures Awaits(Replay(history)) == NoOp
  {
    EndIsFinal(history, n);
    EndedAwaitsNothing(Replay(history));
  }

  lemma EndedAwaitsNothing(w: Local)
    requires w.pc.Ended?
    ensures Awaits(w) == NoOp
  {
  }

  /** On every history the program ends exactly when and as the replay says, writes exactly its
      audit rows, and waits for exactly its activities, in order. */
  method RunSaga(history: seq<Event>) returns (end: Option<End>, rows: seq<AuditEntry>, scheduled: seq<Op>)
    ensures end.Some? <==> Replay(history).pc.Ended?
    ensures end.Some? ==> Replay(history).pc == Ended(end.value)
    ensures rows == Replay(history).rows
    ensures forall i :: 0 <= i < |scheduled| ==> i <= |history| && scheduled[i] == Awaits(Replay(history[..i]))
    ensures end.None? ==> |scheduled| == |history| + 1
    ensures end.Some? ==> |scheduled| <= |history| && Replay(history[..|scheduled|]).pc.Ended?
    // It returns, records and schedules what the tables say.
    ensures end.Some? ==> end.value == EndOf(Replay(history)) && rows == TrailOf(Replay(history))
    ensures forall op :: op != NoOp ==> (op in scheduled <==> op in Asked(history))
    ensures end.Some? ==> ByTable(Replay(history), Asked(history), Token(history), Fired(history))
  {
    var run := new Execution(history);
    var r := run.Run();
    scheduled := run.scheduled;
    assert history[..|history|] == history;
    ChainIsReplay(history, run.trace, run.next);
    WaitedIsAwaited(history, run.scheduled, run.trace);
    AllAsked(history, scheduled);
    if r.Blocked? {
      return None, run.rows, scheduled;
    }
    EndIsFinal(history, run.next);
    ReturnsAndRecordsByTable(history);
    SchedulesByTable(history);
    end, rows := Some(r.end), run.rows;
  }
}
