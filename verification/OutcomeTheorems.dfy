/** What recorded outcomes, compensations and fence errors mean, now and in every later state. */
module OutcomeTheorems {
  import opened Contracts
  import opened ClaimTable
  import opened AdapterContract
  import opened SagaWorkflow
  import opened SagaFacts
  import opened SagaRows
  import opened GateSystem
  import opened GateInvariant
  import opened TableProof
  import opened InvariantProof

  // ---- Recorded outcomes are true forever -------------------------------------------

  lemma CountOfEffect(s: State, key: string)
    requires s.ledger.Sound() && key in s.ledger.effects
    ensures s.ledger.Count(key) == if s.ledger.effects[key] == Barred then 0 else 1
  {
    assert s.ledger.Count(key) == if key in s.ledger.effects && s.ledger.effects[key] != Barred then 1 else 0;
  }

  /** A COMPLETED claim means that its key was applied exactly once, and a FAILED one that the
      key was barred or applied in part, in this state and in every later one. */
  lemma RecordedOutcomesAreTrueForever(limit: nat, steps: seq<Step>, more: seq<Step>, s: State, later: State, d: string)
    requires Reaches(limit, steps, s) && Reaches(limit, steps + more, later)
    requires d in s.claims && Final(s.claims[d].state)
    ensures d in later.claims && later.claims[d] == s.claims[d]
    ensures var key := ExecutionKey(d);
            && key in later.ledger.effects
            && (s.claims[d].state == Completed ==> later.ledger.effects[key] == Applied && later.ledger.Count(key) == 1)
            && (s.claims[d].state == Failed ==>
                  || (later.ledger.effects[key] == Barred && later.ledger.Count(key) == 0)
                  || (later.ledger.effects[key] == PartlyApplied && later.ledger.Count(key) == 1))
  {
    ReachableRow(limit, steps, s, d);
    ReachableLedger(limit, steps + more, later);
    LaterKeeps(limit, steps, more, s, later);
    CountOfEffect(later, ExecutionKey(d));
  }

  /** What a run was told about the effect is what happened to its key. */
  lemma ToldIsTrue(limit: nat, steps: seq<Step>, s: State, rid: string)
    requires Reaches(limit, steps, s) && rid in s.runs && s.runs[rid].w.standing != Open
    ensures KeyOf(s.runs[rid]) in s.ledger.effects
    ensures s.ledger.effects[KeyOf(s.runs[rid])] == EffectNamed(s.runs[rid].w.standing)
    ensures s.ledger.Count(KeyOf(s.runs[rid])) == if s.runs[rid].w.standing == Broke(false) then 0 else 1
  {
    var run := s.runs[rid];
    ReachableRun(limit, steps, s, rid);
    ReachableLedger(limit, steps, s);
    StandingIsTrue(s, rid, run);
    CountOfEffect(s, KeyOf(run));
  }

  /** How a run ended says what happened to the target, forever: a failure that is not partial
      means that the key never takes effect, even if a dispatch is still in flight. */
  lemma EndedRunsAreTrueForever(limit: nat, steps: seq<Step>, more: seq<Step>, s: State, later: State, rid: string)
    requires Reaches(limit, steps, s) && Reaches(limit, steps + more, later)
    requires rid in s.runs && s.runs[rid].w.pc.Ended?
    ensures var end, key := s.runs[rid].w.pc.end, KeyOf(s.runs[rid]);
            && (end == DispatchFailed(false) ==>
                  key in later.ledger.effects && later.ledger.effects[key] == Barred && later.ledger.Count(key) == 0)
            && (end == DispatchFailed(true) ==>
                  key in later.ledger.effects && later.ledger.effects[key] == PartlyApplied && later.ledger.Count(key) == 1)
            && (end == Succeeded ==>
                  key in later.ledger.effects && later.ledger.effects[key] == Applied && later.ledger.Count(key) == 1)
  {
    LaterKeeps(limit, steps, more, s, later);
    assert RunGrows(s.runs[rid], later.runs[rid]);
    ReachableRun(limit, steps + more, later, rid);
    if later.runs[rid].w.standing != Open {
      ToldIsTrue(limit, steps + more, later, rid);
    }
  }

  // ---- UNKNOWN is never failure -----------------------------------------------------

  /** The run has received only UNKNOWN, unrecognised or lost answers about the effect. */
  ghost predicate OnlyUnknown(w: Local) {
    forall r :: r in w.got && r.answer.Reported? ==> !r.answer.outcome.Confirmed()
  }

  /** Such a run never asks for COMPLETED or FAILED, owns no such claim, never compensates and
      ends in neither success nor a confirmed failure. */
  lemma UnknownIsNeverFailure(limit: nat, steps: seq<Step>, s: State, rid: string)
    requires Reaches(limit, steps, s) && rid in s.runs && OnlyUnknown(s.runs[rid].w)
    ensures MarkOp(Completed) !in s.runs[rid].scheduled && MarkOp(Failed) !in s.runs[rid].scheduled
    ensures CompensateOp !in s.runs[rid].scheduled && rid !in s.compensations
    ensures forall d :: d in s.claims && s.claims[d].owner.runId == rid ==> !Final(s.claims[d].state)
    ensures s.runs[rid].w.pc.Ended? ==> !s.runs[rid].w.pc.end.Succeeded? && !s.runs[rid].w.pc.end.DispatchFailed?
  {
    ReachableRun(limit, steps, s, rid);
    ReachableRecords(limit, steps, s);
    UnknownSchedulesNothing(s.runs[rid]);
    forall d | d in s.claims && s.claims[d].owner.runId == rid ensures !Final(s.claims[d].state) {
      ReachableRow(limit, steps, s, d);
    }
  }

  lemma UnknownSchedulesNothing(run: Run)
    requires RunShape(run) && Outcomes(run.w) && OnlyUnknown(run.w)
    ensures run.w.confirmed.None? && run.w.standing == Open
    ensures MarkOp(Completed) !in run.scheduled && MarkOp(Failed) !in run.scheduled
    ensures CompensateOp !in run.scheduled && run.reverts == 0
    ensures run.w.pc.Ended? ==> !run.w.pc.end.Succeeded? && !run.w.pc.end.DispatchFailed?
  {
    assert MarkOp(Completed) in run.scheduled ==> Justified(MarkOp(Completed), run.base, run.w);
    assert MarkOp(Failed) in run.scheduled ==> Justified(MarkOp(Failed), run.base, run.w);
    assert CompensateOp in run.scheduled ==> Justified(CompensateOp, run.base, run.w);
  }

  /** Every run compensates at most once, because it schedules compensation at most once, and only after it was told FAILURE with
      PartiallyApplied for a key that did take effect in part. */
  lemma CompensationIsOnceAndDeserved(limit: nat, steps: seq<Step>, s: State, i: nat)
    requires Reaches(limit, steps, s) && i < |s.compensations|
    ensures forall j :: 0 <= j < |s.compensations| && j != i ==> s.compensations[j] != s.compensations[i]
    ensures s.compensations[i] in s.runs
    ensures var run := s.runs[s.compensations[i]];
            && (exists r :: r in run.w.got && r.answer.Reported?
                            && r.answer.outcome.status.Failure? && r.answer.outcome.partiallyApplied)
            && KeyOf(run) in s.ledger.effects && s.ledger.effects[KeyOf(run)] == PartlyApplied
            && s.ledger.Count(KeyOf(run)) == 1
  {
    ReachableRecords(limit, steps, s);
    var rid := s.compensations[i];
    var run := s.runs[rid];
    ReachableRun(limit, steps, s, rid);
    assert Justified(CompensateOp, run.base, run.w);
    assert run.w.confirmed.value in run.w.got;
    ToldIsTrue(limit, steps, s, rid);
  }

  // ---- Receipts of the run's own ----------------------------------------------------

  /** What a run was told about a dispatch it scheduled came from its own attempts. */
  lemma DispatchReceiptIsOwn(run: Run, r: Receipt)
    requires RunShape(run) && r in run.w.got && r.op == DispatchOp && !run.base.dispatchOver
    ensures r in run.answers
  {
    assert Permission(run.base);
  }

  /** What a run was told after a claim it did not inherit came from its own attempts. */
  lemma LateReceiptsAreOwn(run: Run)
    requires RunShape(run) && run.base.claim.None?
    ensures forall r :: r in run.w.got && !EarlyReceipt(r) ==> r in run.answers
  {
    assert Evidence(run.base);
  }

  lemma DispatchWasScheduled(run: Run)
    requires RunShape(run) && run.attempts != []
    ensures !run.base.dispatchOver
  {
    assert Justified(DispatchOp, run.base, run.w);
  }

  // ---- Fence errors -----------------------------------------------------------------

  /** A rejection that consulted the store means that this run has never acquired the fence. */
  lemma FenceRejectionIsSound(limit: nat, steps: seq<Step>, s: State, step: Step)
    requires Reaches(limit, steps, s) && Enabled(s, step) && step.FenceReadBack?
    requires NewAnswer(s, step) == Some(Receipt(DispatchOp, FenceRejected))
    ensures var d := DecisionOf(s.runs[step.rid]); d in s.fences ==> s.fences[d].run != step.rid
    ensures forall i :: 0 <= i < |s.calls| ==> s.calls[i].run != step.rid
  {
    var rid, d := step.rid, DecisionOf(s.runs[step.rid]);
    if d in s.fences {
      ReachableFence(limit, steps, s, d);
    }
    forall i | 0 <= i < |s.calls| ensures s.calls[i].run != rid {
      ReachableCall(limit, steps, s, i);
    }
  }

  /** The dispatch activity's answer, when it has one attempt, is that attempt's. */
  lemma OnlyAttempt(s: State, rid: string, run: Run, a: Answer)
    requires RunTruth(s, rid, run) && RunFence(s, rid, run) && s.limit == 1 && Receipt(DispatchOp, a) in run.answers
    ensures |run.attempts| == 1 && AttemptSays(run.attempts[0], a)
  {
    assert OwnTrue(s, rid, run, Receipt(DispatchOp, a));
  }

  /** A fence error that a run was told about after an attempt came from its own attempts. */
  lemma FenceReceipt(run: Run) returns (a: Answer)
    requires RunShape(run) && FenceReported(run.w) && run.attempts != []
    ensures (a == FenceRejected || a == FenceUnknown) && Receipt(DispatchOp, a) in run.answers
  {
    a := if Receipt(DispatchOp, FenceRejected) in run.w.got then FenceRejected else FenceUnknown;
    DispatchWasScheduled(run);
    DispatchReceiptIsOwn(run, Receipt(DispatchOp, a));
  }

  /** A run that was told of a fence error by its own attempt has no attempt that called. */
  lemma FenceErrorMeansNoCall(s: State, rid: string, run: Run, a: Answer, k: nat)
    requires RunTruth(s, rid, run) && RunFence(s, rid, run) && s.limit == 1 && k < |run.attempts|
    requires (a == FenceRejected || a == FenceUnknown) && Receipt(DispatchOp, a) in run.answers
    ensures !run.attempts[k].Called?
  {
    OnlyAttempt(s, rid, run, a);
  }

  /** A run that ended with EXECUTION_CLAIM_REJECTED after an attempt was told of a fence error. */
  lemma RejectedAfterAttempt(run: Run)
    requires RunShape(run) && Permission(run.w) && RowsBacked(run.w)
    requires run.w.pc == Ended(ClaimRejected) && run.attempts != []
    ensures FenceReported(run.w)
  {
    assert Justified(DispatchOp, run.base, run.w);
  }

  /** With one dispatch attempt per run, a run that ended with EXECUTION_CLAIM_REJECTED never
      calls the adapter, now or later, whether it failed to claim, was refused the fence, or
      released its claim after an ambiguous fence write. */
  lemma ClaimRejectedNeverDispatches(steps: seq<Step>, more: seq<Step>, s: State, later: State, rid: string)
    requires Reaches(1, steps, s) && Reaches(1, steps + more, later)
    requires rid in s.runs && s.runs[rid].w.pc == Ended(ClaimRejected)
    ensures forall i :: 0 <= i < |later.calls| ==> later.calls[i].run != rid
  {
    LaterKeeps(1, steps, more, s, later);
    assert RunGrows(s.runs[rid], later.runs[rid]);
    ReachableRun(1, steps + more, later, rid);
    forall i | 0 <= i < |later.calls| ensures later.calls[i].run != rid {
      ReachableCall(1, steps + more, later, i);
      if later.calls[i].run == rid {
        RejectedAfterAttempt(later.runs[rid]);
        var a := FenceReceipt(later.runs[rid]);
        FenceErrorMeansNoCall(later, rid, later.runs[rid], a, later.calls[i].attempt);
      }
    }
  }

  // ---- Audit rows and dispatches ----------------------------------------------------

  /** An EXECUTION_FENCE row means that the run has called the adapter zero times. */
  lemma FenceRowMeansNoDispatch(steps: seq<Step>, s: State, rid: string)
    requires Reaches(1, steps, s) && rid in s.runs && HasPhase(s.runs[rid].w.rows, ExecutionFence)
    ensures forall i :: 0 <= i < |s.calls| ==> s.calls[i].run != rid
  {
    ReachableRun(1, steps, s, rid);
    forall i | 0 <= i < |s.calls| ensures s.calls[i].run != rid {
      ReachableCall(1, steps, s, i);
      if s.calls[i].run == rid {
        var a := FenceReceipt(s.runs[rid]);
        FenceErrorMeansNoCall(s, rid, s.runs[rid], a, s.calls[i].attempt);
      }
    }
  }

  lemma ConfirmedDispatch(run: Run) returns (a: Answer)
    requires RunShape(run) && Outcomes(run.w) && RowsBacked(run.w)
    requires HasDispatchVerdict(run.w.rows) && !run.base.dispatchOver
    ensures a.Reported? && Receipt(DispatchOp, a) in run.answers
  {
    a := run.w.confirmed.value.answer;
    DispatchReceiptIsOwn(run, run.w.confirmed.value);
  }

  lemma ConfirmedAttempt(s: State, rid: string, run: Run, a: Answer) returns (k: nat)
    requires RunTruth(s, rid, run) && a.Reported? && Receipt(DispatchOp, a) in run.answers
    ensures k < |run.attempts| && run.attempts[k].Called?
  {
    assert OwnTrue(s, rid, run, Receipt(DispatchOp, a));
    k :| 0 <= k < |run.attempts| && AttemptSays(run.attempts[k], a);
  }

  /** The run has called the adapter exactly once. */
  ghost predicate CalledOnce(s: State, rid: string) {
    exists i :: 0 <= i < |s.calls| && s.calls[i].run == rid
                && forall j :: 0 <= j < |s.calls| && s.calls[j].run == rid ==> j == i
  }

  lemma OwnDispatchIsOneCall(limit: nat, steps: seq<Step>, s: State, rid: string)
    requires Reaches(limit, steps, s) && rid in s.runs
    requires HasDispatchVerdict(s.runs[rid].w.rows) && !s.runs[rid].base.dispatchOver
    ensures CalledOnce(s, rid)
  {
    var run := s.runs[rid];
    ReachableRun(limit, steps, s, rid);
    var a := ConfirmedDispatch(run);
    var k := ConfirmedAttempt(s, rid, run, a);
    ReachableCalled(limit, steps, s, rid, k);
    var i :| 0 <= i < |s.calls| && s.calls[i].run == rid && s.calls[i].attempt == k;
    forall j | 0 <= j < |s.calls| && s.calls[j].run == rid ensures j == i {
      if j < i {
        ReachableCallsDiffer(limit, steps, s, j, i);
      } else if i < j {
        ReachableCallsDiffer(limit, steps, s, i, j);
      }
    }
  }

  /** A run that inherited the answer of a dispatch never calls the adapter. */
  lemma InheritedDispatchIsNoCall(limit: nat, steps: seq<Step>, s: State, rid: string)
    requires Reaches(limit, steps, s) && rid in s.runs && s.runs[rid].base.dispatchOver
    ensures forall i :: 0 <= i < |s.calls| ==> s.calls[i].run != rid
  {
    ReachableRun(limit, steps, s, rid);
    forall i | 0 <= i < |s.calls| ensures s.calls[i].run != rid {
      ReachableCall(limit, steps, s, i);
      if s.calls[i].run == rid {
        DispatchWasScheduled(s.runs[rid]);
      }
    }
  }

  /** A run with a DISPATCH_CONFIG row of PASS or FAIL has called the adapter exactly once if and
      only if it did not inherit the answer of the dispatch; otherwise it has not called it. */
  lemma DispatchRowMeansOneDispatch(limit: nat, steps: seq<Step>, s: State, rid: string)
    requires Reaches(limit, steps, s) && rid in s.runs && HasDispatchVerdict(s.runs[rid].w.rows)
    ensures CalledOnce(s, rid) <==> !s.runs[rid].base.dispatchOver
    ensures s.runs[rid].base.dispatchOver ==> forall i :: 0 <= i < |s.calls| ==> s.calls[i].run != rid
  {
    if s.runs[rid].base.dispatchOver {
      InheritedDispatchIsNoCall(limit, steps, s, rid);
    } else {
      OwnDispatchIsOneCall(limit, steps, s, rid);
    }
  }

  // ---- Success ----------------------------------------------------------------------

  /** The claim is COMPLETED under this run, the adapter confirmed SUCCESS to it, and its
      decision, its PASS row, the last outcome row and the final row are stored. */
  ghost predicate SuccessRecorded(s: State, rid: string, run: Run) {
    SuccessClaimed(s, rid, run) && SuccessLogged(s, rid, run)
  }

  ghost predicate SuccessClaimed(s: State, rid: string, run: Run) {
    var d := DecisionOf(run);
    && d in s.claims && s.claims[d].owner == Owner(rid, run) && s.claims[d].state == Completed
    && (exists r :: r in run.answers && r.answer.Reported? && r.answer.outcome.status.Success?)
    && run.w.reval.Some? && run.w.reval.value.decision.verdict == Allow
    && RunStored(s.records, rid, run, run.w.reval.value.decision)
  }

  ghost predicate SuccessLogged(s: State, rid: string, run: Run) {
    var n := |run.w.rows|;
    && n >= 2 && RowStored(s, rid, run, 0, PassEntry)
    && OutcomePass(run.w.rows[n - 2]) && RowStored(s, rid, run, n - 2, run.w.rows[n - 2])
    && RowStored(s, rid, run, n - 1, AuditEntry(WorkflowComplete, PassRow))
  }

  /** A run that inherited a granted claim owns no claim. */
  lemma InheritedClaimIsNotOwned(limit: nat, steps: seq<Step>, s: State, rid: string, d: string)
    requires Reaches(limit, steps, s) && rid in s.runs && s.runs[rid].base.claim.Some? && d in s.claims
    ensures s.claims[d].owner.runId != rid
  {
    ReachableRun(limit, steps, s, rid);
    ReachableRow(limit, steps, s, d);
    assert ClaimOp in s.runs[rid].scheduled ==> Justified(ClaimOp, s.runs[rid].base, s.runs[rid].w);
  }

  /** A run that inherited a granted claim never owns a claim and never calls the adapter. */
  lemma InheritedClaimIsUseless(limit: nat, steps: seq<Step>, more: seq<Step>, s: State, later: State, rid: string)
    requires Reaches(limit, steps, s) && Reaches(limit, steps + more, later)
    requires rid in s.runs && s.runs[rid].base.claim.Some?
    ensures forall d :: d in later.claims ==> later.claims[d].owner.runId != rid
    ensures forall i :: 0 <= i < |later.calls| ==> later.calls[i].run != rid
  {
    LaterKeeps(limit, steps, more, s, later);
    assert RunGrows(s.runs[rid], later.runs[rid]);
    forall d | d in later.claims ensures later.claims[d].owner.runId != rid {
      InheritedClaimIsNotOwned(limit, steps + more, later, rid, d);
    }
    forall i | 0 <= i < |later.calls| ensures later.calls[i].run != rid {
      ReachableCall(limit, steps + more, later, i);
    }
  }

  /** A run that returned success has all of that recorded if and only if it inherited no
      granted claim. */
  lemma SuccessIsComplete(limit: nat, steps: seq<Step>, s: State, rid: string)
    requires Reaches(limit, steps, s) && rid in s.runs && s.runs[rid].w.pc == Ended(Succeeded)
    ensures SuccessRecorded(s, rid, s.runs[rid]) <==> s.runs[rid].base.claim.None?
  {
    if s.runs[rid].base.claim.None? {
      ReachableRun(limit, steps, s, rid);
      SuccessReceipts(s.runs[rid]);
      ClaimedIsTrue(s, rid, s.runs[rid]);
      AcknowledgedRows(s, rid, s.runs[rid]);
    } else if DecisionOf(s.runs[rid]) in s.claims {
      InheritedClaimIsNotOwned(limit, steps, s, rid, DecisionOf(s.runs[rid]));
    }
  }

  /** What a run was told before it returned success. */
  ghost predicate ToldSuccess(w: Local) {
    && OutcomeStored(w) && w.rows[|w.rows| - 1] == AuditEntry(WorkflowComplete, PassRow)
    && w.confirmed.Some? && w.confirmed.value in w.got && ReportedOp(w.confirmed.value.op)
    && w.confirmed.value.answer.Reported? && w.confirmed.value.answer.outcome.status.Success?
    && w.reval.Some? && w.reval.value.decision.verdict == Allow
    && Receipt(MarkOp(Completed), Done) in w.got
    && Receipt(RecordOp(w.reval.value.decision), Done) in w.got
    && Receipt(AuditOp(0, PassEntry), Done) in w.got
    && Receipt(LastRow(w), Done) in w.got
  }

  lemma SucceededWasTold(w: Local)
    requires Outcomes(w) && Permission(w) && SuccessBacked(w) && w.pc == Ended(Succeeded)
    ensures ToldSuccess(w)
  {
  }

  /** The run's own attempts confirmed SUCCESS and acknowledged COMPLETED and the decision. */
  predicate OwnClaim(run: Run) {
    && run.w.confirmed.Some? && run.w.confirmed.value in run.answers
    && run.w.confirmed.value.answer.Reported? && run.w.confirmed.value.answer.outcome.status.Success?
    && run.w.reval.Some? && run.w.reval.value.decision.verdict == Allow
    && Receipt(MarkOp(Completed), Done) in run.answers && Receipt(RecordOp(run.w.reval.value.decision), Done) in run.answers
  }

  /** The run's own attempts acknowledged the PASS row, the outcome row and the final row. */
  predicate OwnRows(run: Run) {
    var n := |run.w.rows|;
    && n >= 2 && OutcomePass(run.w.rows[n - 2]) && run.w.rows[n - 1] == AuditEntry(WorkflowComplete, PassRow)
    && Receipt(AuditOp(0, PassEntry), Done) in run.answers
    && Receipt(AuditOp(n - 2, run.w.rows[n - 2]), Done) in run.answers
    && Receipt(AuditOp(n - 1, run.w.rows[n - 1]), Done) in run.answers
  }

  lemma ToldIsOwn(run: Run)
    requires ToldSuccess(run.w)
    requires forall r :: r in run.w.got && !EarlyReceipt(r) ==> r in run.answers
    ensures OwnClaim(run) && OwnRows(run)
  {
  }

  lemma SuccessReceipts(run: Run)
    requires RunShape(run) && Outcomes(run.w) && Permission(run.w) && SuccessBacked(run.w)
    requires run.w.pc == Ended(Succeeded) && run.base.claim.None?
    ensures OwnClaim(run) && OwnRows(run)
  {
    SucceededWasTold(run.w);
    LateReceiptsAreOwn(run);
    ToldIsOwn(run);
  }

  lemma ClaimedIsTrue(s: State, rid: string, run: Run)
    requires RunTruth(s, rid, run) && OwnClaim(run)
    ensures SuccessClaimed(s, rid, run)
  {
    assert OwnTrue(s, rid, run, Receipt(MarkOp(Completed), Done));
    assert OwnTrue(s, rid, run, Receipt(RecordOp(run.w.reval.value.decision), Done));
  }

  lemma AcknowledgedRow(s: State, rid: string, run: Run, i: nat, entry: AuditEntry)
    requires RunTruth(s, rid, run) && Receipt(AuditOp(i, entry), Done) in run.answers
    ensures RowStored(s, rid, run, i, entry)
  {
    assert OwnTrue(s, rid, run, Receipt(AuditOp(i, entry), Done));
  }

  lemma AcknowledgedRows(s: State, rid: string, run: Run)
    requires RunTruth(s, rid, run) && OwnRows(run)
    ensures SuccessLogged(s, rid, run)
  {
    var n := |run.w.rows|;
    AcknowledgedRow(s, rid, run, 0, PassEntry);
    AcknowledgedRow(s, rid, run, n - 2, run.w.rows[n - 2]);
    AcknowledgedRow(s, rid, run, n - 1, run.w.rows[n - 1]);
  }

  /** At most one such run per decision returns success. */
  lemma OneSuccessPerDecision(limit: nat, steps: seq<Step>, s: State, a: string, b: string)
    requires Reaches(limit, steps, s) && a in s.runs && b in s.runs
    requires s.runs[a].w.pc == Ended(Succeeded) && s.runs[a].base.claim.None?
    requires s.runs[b].w.pc == Ended(Succeeded) && s.runs[b].base.claim.None?
    requires DecisionOf(s.runs[a]) == DecisionOf(s.runs[b])
    ensures a == b
  {
    SuccessIsComplete(limit, steps, s, a);
    SuccessIsComplete(limit, steps, s, b);
  }

  // ---- What UNKNOWN leaves behind ---------------------------------------------------

  /** In this state and every later one the claim is fenced under this owner. */
  ghost predicate FencedForever(limit: nat, steps: seq<Step>, d: string, owner: ClaimOwner) {
    forall more: seq<Step>, later: State :: Reaches(limit, steps + more, later) ==> FencedUnder(later, d, owner)
  }

  predicate FencedUnder(s: State, d: string, owner: ClaimOwner) {
    d in s.claims && s.claims[d].owner == owner && Fenced(s.claims[d].state)
  }

  lemma FencedNow(limit: nat, steps: seq<Step>, s: State, rid: string)
    requires Reaches(limit, steps, s) && rid in s.runs
    ensures FencedUnder(s, DecisionOf(s.runs[rid]), Owner(rid, s.runs[rid])) <==> FencedBy(s, DecisionOf(s.runs[rid]), rid)
  {
    var d := DecisionOf(s.runs[rid]);
    if d in s.claims {
      ReachableRow(limit, steps, s, d);
    }
    if d in s.fences {
      ReachableFence(limit, steps, s, d);
    }
  }

  lemma FencedLater(limit: nat, steps: seq<Step>, s: State, more: seq<Step>, later: State, d: string, owner: ClaimOwner)
    requires Reaches(limit, steps, s) && Reaches(limit, steps + more, later) && FencedUnder(s, d, owner)
    ensures FencedUnder(later, d, owner)
  {
    LaterKeeps(limit, steps, more, s, later);
  }

  /** Whatever a run was told, its claim is and stays fenced under it if and only if one of its
      attempts acquired the fence.  Otherwise an UNKNOWN outcome can go with a claim that is still
      CLAIMED, was RELEASED, or belongs to someone else. */
  lemma ClaimStaysFencedIffFenceWasAcquired(limit: nat, steps: seq<Step>, s: State, rid: string)
    requires Reaches(limit, steps, s) && rid in s.runs
    ensures FencedForever(limit, steps, DecisionOf(s.runs[rid]), Owner(rid, s.runs[rid]))
            <==> FencedBy(s, DecisionOf(s.runs[rid]), rid)
  {
    var d, owner := DecisionOf(s.runs[rid]), Owner(rid, s.runs[rid]);
    FencedNow(limit, steps, s, rid);
    if FencedUnder(s, d, owner) {
      forall more: seq<Step>, later: State | Reaches(limit, steps + more, later) ensures FencedUnder(later, d, owner) {
        FencedLater(limit, steps, s, more, later, d, owner);
      }
    } else {
      assert steps + [] == steps;
    }
  }

  lemma AcknowledgedMark(s: State, rid: string, run: Run, to: ClaimState)
    requires RunShape(run) && RunTruth(s, rid, run) && run.base.claim.None? && Resolving(to)
    requires Receipt(MarkOp(to), Done) in run.w.got
    ensures var d := DecisionOf(run);
            && d in s.claims && s.claims[d].owner == Owner(rid, run) && Resolving(s.claims[d].state)
            && (Final(to) ==> s.claims[d].state == to)
  {
    var r := Receipt(MarkOp(to), Done);
    LateReceiptsAreOwn(run);
    assert OwnTrue(s, rid, run, r);
  }

  /** A run that was told that its FAILED mark was written leaves its claim FAILED forever. */
  lemma FailureStaysMarked(limit: nat, steps: seq<Step>, more: seq<Step>, s: State, later: State, rid: string)
    requires Reaches(limit, steps, s) && Reaches(limit, steps + more, later) && rid in s.runs
    requires s.runs[rid].base.claim.None? && Receipt(MarkOp(Failed), Done) in s.runs[rid].w.got
    ensures var d := DecisionOf(s.runs[rid]);
            d in later.claims && later.claims[d].owner == Owner(rid, s.runs[rid]) && later.claims[d].state == Failed
  {
    LaterKeeps(limit, steps, more, s, later);
    assert RunGrows(s.runs[rid], later.runs[rid]);
    ReachableRun(limit, steps + more, later, rid);
    AcknowledgedMark(later, rid, later.runs[rid], Failed);
  }

  /** A run that ended without knowing the outcome, after an acknowledged mark, leaves its claim in
      RECONCILIATION_REQUIRED forever. */
  lemma UnknownStaysMarked(limit: nat, steps: seq<Step>, more: seq<Step>, s: State, later: State, rid: string)
    requires Reaches(limit, steps, s) && Reaches(limit, steps + more, later) && rid in s.runs
    requires s.runs[rid].w.pc == Ended(OutcomeUnknown) && s.runs[rid].base.claim.None?
    requires Receipt(MarkOp(ReconciliationRequired), Done) in s.runs[rid].w.got
    ensures var d := DecisionOf(s.runs[rid]);
            && d in later.claims && later.claims[d].owner == Owner(rid, s.runs[rid])
            && later.claims[d].state == ReconciliationRequired
  {
    LaterKeeps(limit, steps, more, s, later);
    assert RunGrows(s.runs[rid], later.runs[rid]);
    ReachableRun(limit, steps + more, later, rid);
    AcknowledgedMark(later, rid, later.runs[rid], ReconciliationRequired);
    ReachableRow(limit, steps + more, later, DecisionOf(s.runs[rid]));
  }
}
