/** What runs are told is true when they are told it, and stays true. */
module TruthProof {
  import opened Contracts
  import opened ClaimTable
  import opened AdapterContract
  import opened SagaWorkflow
  import opened SagaFacts
  import opened GateSystem
  import opened GateInvariant
  import opened RunProof
  import opened GrowthProof

  lemma AnswerStaysTrue(s: State, s': State, req: ExecutionRequest, wid: string, a: Answer)
    requires Grows(s, s') && AnswerTrue(s, req, wid, a)
    ensures AnswerTrue(s', req, wid, a)
  {
    if a.Reported? {
      TruthLasts(s.ledger, s'.ledger, ExecutionKey(req.ingressDecisionId), a.outcome);
    }
  }

  lemma OwnStaysTrue(s: State, s': State, rid: string, run: Run, run': Run, r: Receipt)
    requires Grows(s, s') && RunGrows(run, run') && OwnTrue(s, rid, run, r)
    ensures OwnTrue(s', rid, run', r)
  {
    if r.op.DispatchOp? {
      var i :| 0 <= i < |run.attempts| && AttemptSays(run.attempts[i], r.answer);
      assert AttemptSays(run'.attempts[i], r.answer);
    }
  }

  lemma CheckedIsTruthful(l: Ledger, key: string, o: DispatchOutcome)
    requires Truthful(l, key, o)
    ensures Truthful(l, key, o.Checked())
  {
  }

  // ---- A new answer -----------------------------------------------------------------

  lemma StoreAnswerIsTrue(s: State, step: Step, r: Receipt)
    requires s.policies != [] && Enabled(s, step) && Subject(step).Some? && NewAnswer(s, step) == Some(r)
    requires !step.AdapterDispatch? && !step.AdapterReconcile?
    ensures AnswerTrue(s, s.runs[step.rid].req, s.runs[step.rid].wid, r.answer)
  {
  }

  lemma AdapterAnswerIsTrue(s: State, step: Step, r: Receipt, s': State)
    requires Enabled(s, step) && (step.AdapterDispatch? || step.AdapterReconcile?)
    requires NewAnswer(s, step) == Some(r) && s'.ledger == LedgerAfter(s, step)
    ensures AnswerTrue(s', s.runs[step.rid].req, s.runs[step.rid].wid, r.answer)
  {
    CheckedIsTruthful(LedgerAfter(s, step), KeyOf(s.runs[step.rid]), step.answer);
  }

  lemma NewAnswerIsTrue(s: State, step: Step, r: Receipt, s': State)
    requires s.policies != [] && Enabled(s, step) && Subject(step).Some? && NewAnswer(s, step) == Some(r)
    requires Grows(s, s') && s'.ledger == LedgerAfter(s, step)
    ensures AnswerTrue(s', s.runs[step.rid].req, s.runs[step.rid].wid, r.answer)
  {
    if step.AdapterDispatch? || step.AdapterReconcile? {
      AdapterAnswerIsTrue(s, step, r, s');
    } else {
      StoreAnswerIsTrue(s, step, r);
      AnswerStaysTrue(s, s', s.runs[step.rid].req, s.runs[step.rid].wid, r.answer);
    }
  }

  /** An evaluation comes after the claim that the run was granted. */
  lemma EvaluatedAfterClaim(s: State, rid: string)
    requires rid in s.runs && RunShape(s.runs[rid]) && RunTruth(s, rid, s.runs[rid])
    requires EvaluateOp in s.runs[rid].scheduled
    ensures s.runs[rid].w.claim.Some? && s.runs[rid].w.claim.value <= Epoch(s)
  {
    var run := s.runs[rid];
    ReplayFacts(run.history);
    assert Justified(EvaluateOp, run.base, run.w);
    var granted := Receipt(ClaimOp, ClaimGranted(run.w.claim.value));
    assert granted in run.w.got;
    assert AnswerTrue(s, run.req, run.wid, granted.answer);
  }

  lemma DispatchAnswerIsOwn(s: State, step: Step, r: Receipt)
    requires Enabled(s, step) && (step.FenceWrite? || step.FenceReadBack? || step.AdapterDispatch?)
    requires NewAnswer(s, step) == Some(r)
    ensures r.op == DispatchOp
    ensures exists i :: 0 <= i < |AttemptsAfter(s, step)| && AttemptSays(AttemptsAfter(s, step)[i], r.answer)
  {
    var attempts := AttemptsAfter(s, step);
    var i := if step.FenceWrite? then |attempts| - 1 else step.attempt;
    assert AttemptSays(attempts[i], r.answer);
  }

  lemma WriteIsOwn(s: State, step: Step, r: Receipt, s': State, run': Run)
    requires Enabled(s, step) && (step.RecordAttempt? || step.AuditAttempt? || step.AdvanceAttempt?)
    requires NewAnswer(s, step) == Some(r)
    requires s'.records == RecordsAfter(s, step) && s'.audits == AuditsAfter(s, step) && s'.claims == ClaimsAfter(s, step)
    requires run'.wid == s.runs[step.rid].wid && run'.token == s.runs[step.rid].token && run'.req == s.runs[step.rid].req
    ensures OwnTrue(s', step.rid, run', r)
  {
    assert step.AdvanceAttempt? ==> r.op == step.op && Destination(r.op).Some?;
  }

  lemma NewAnswerIsOwn(s: State, step: Step, r: Receipt, s': State, run': Run)
    requires Enabled(s, step) && Subject(step).Some? && !step.Deliver? && NewAnswer(s, step) == Some(r)
    requires RunShape(s.runs[step.rid]) && RunTruth(s, step.rid, s.runs[step.rid])
    requires s'.records == RecordsAfter(s, step) && s'.audits == AuditsAfter(s, step) && s'.claims == ClaimsAfter(s, step)
    requires run' == Attempted(s, step)
    ensures OwnTrue(s', step.rid, run', r)
  {
    if step.FenceWrite? || step.FenceReadBack? || step.AdapterDispatch? {
      DispatchAnswerIsOwn(s, step, r);
    } else if step.RecordAttempt? || step.AuditAttempt? || step.AdvanceAttempt? {
      WriteIsOwn(s, step, r, s', run');
    } else if step.EvaluateAttempt? {
      EvaluatedAfterClaim(s, step.rid);
    }
  }

  // ---- Every run --------------------------------------------------------------------

  lemma TruthKept(s: State, s': State, rid: string, run: Run, run': Run)
    requires Grows(s, s') && RunGrows(run, run') && RunTruth(s, rid, run)
    ensures forall r :: r in run.w.got ==> AnswerTrue(s', run.req, run.wid, r.answer)
    ensures forall r :: r in run.answers ==> AnswerTrue(s', run.req, run.wid, r.answer) && OwnTrue(s', rid, run', r)
  {
    forall r | r in run.w.got ensures AnswerTrue(s', run.req, run.wid, r.answer) {
      AnswerStaysTrue(s, s', run.req, run.wid, r.answer);
    }
    forall r | r in run.answers
      ensures AnswerTrue(s', run.req, run.wid, r.answer) && OwnTrue(s', rid, run', r)
    {
      AnswerStaysTrue(s, s', run.req, run.wid, r.answer);
      OwnStaysTrue(s, s', rid, run, run', r);
    }
  }

  lemma TruthWithNew(s: State, s': State, rid: string, run: Run, run': Run, new': Option<Receipt>)
    requires Grows(s, s') && RunGrows(run, run') && RunTruth(s, rid, run) && run'.w == run.w
    requires forall r :: r in run'.answers ==> r in run.answers || new' == Some(r)
    requires new'.Some? ==> AnswerTrue(s', run.req, run.wid, new'.value.answer) && OwnTrue(s', rid, run', new'.value)
    ensures RunTruth(s', rid, run')
  {
    TruthKept(s, s', rid, run, run');
  }

  lemma AttemptedAnswers(s: State, step: Step)
    requires Enabled(s, step) && Subject(step).Some?
    ensures Attempted(s, step).w == s.runs[step.rid].w
    ensures forall r :: r in Attempted(s, step).answers ==> r in s.runs[step.rid].answers || NewAnswer(s, step) == Some(r)
  {
  }

  lemma NewAnswerHolds(s: State, step: Step, r: Receipt, s': State, run': Run)
    requires Enabled(s, step) && Subject(step).Some? && !step.Deliver? && run' == Attempted(s, step) && s.policies != []
    requires RunShape(s.runs[step.rid]) && RunTruth(s, step.rid, s.runs[step.rid]) && NewAnswer(s, step) == Some(r)
    requires Grows(s, s') && s'.ledger == LedgerAfter(s, step)
    requires s'.records == RecordsAfter(s, step) && s'.audits == AuditsAfter(s, step) && s'.claims == ClaimsAfter(s, step)
    ensures AnswerTrue(s', s.runs[step.rid].req, s.runs[step.rid].wid, r.answer) && OwnTrue(s', step.rid, run', r)
  {
    NewAnswerIsTrue(s, step, r, s');
    NewAnswerIsOwn(s, step, r, s', run');
  }

  lemma AttemptedTruth(s: State, step: Step, s': State, run': Run)
    requires Enabled(s, step) && Subject(step).Some? && !step.Deliver? && run' == Attempted(s, step) && s.policies != []
    requires RunShape(s.runs[step.rid]) && RunTruth(s, step.rid, s.runs[step.rid])
    requires Grows(s, s') && s'.ledger == LedgerAfter(s, step) && RunGrows(s.runs[step.rid], run')
    requires s'.records == RecordsAfter(s, step) && s'.audits == AuditsAfter(s, step) && s'.claims == ClaimsAfter(s, step)
    ensures RunTruth(s', step.rid, run')
  {
    var answer := NewAnswer(s, step);
    AttemptedAnswers(s, step);
    if answer.Some? {
      NewAnswerHolds(s, step, answer.value, s', run');
    }
    TruthWithNew(s, s', step.rid, s.runs[step.rid], run', answer);
  }

  lemma DeliveredTruth(s: State, s': State, rid: string, run: Run, e: Event)
    requires RunShape(run) && RunTruth(s, rid, run) && Deliverable(run, e) && Grows(s, s')
    ensures RunTruth(s', rid, Delivering(run, e))
  {
    var run' := Delivering(run, e);
    DeliveringShape(run, e);
    TruthKept(s, s', rid, run, run');
    assert forall r :: r in run'.w.got ==> r in run.w.got || r in run.answers;
  }

  /** A reset run was told what the run it comes from was told. */
  lemma ResetTruth(s: State, s': State, rid: string, from: Run, fromId: string, token: string, n: nat)
    requires Grows(s, s') && RunShape(from) && RunTruth(s, fromId, from) && n <= |from.history|
    ensures RunTruth(s', rid, Created(from.wid, token, from.req, from.history[..n]))
  {
    ReplayKeeps(from.history, n);
    TruthKept(s, s', fromId, from, from);
  }

  lemma CreatedTruth(s: State, step: Step, s': State)
    requires RunsInv(s) && Enabled(s, step) && (step.StartRun? || step.ResetRun?) && Grows(s, s')
    ensures RunTruth(s', step.rid, RunsAfter(s, step)[step.rid])
  {
    if step.ResetRun? {
      ResetTruth(s, s', step.rid, s.runs[step.from], step.from, step.token, step.length);
    }
  }

  lemma StepTruth(s: State, step: Step, s': State, rid: string)
    requires RunsInv(s) && s.policies != [] && Enabled(s, step) && s' == After(s, step) && Grows(s, s')
    requires rid in s'.runs
    ensures RunTruth(s', rid, s'.runs[rid])
  {
    if rid !in s.runs {
      NewRunIsCreated(s, step, rid);
      CreatedTruth(s, step, s');
    } else if Subject(step) != Some(rid) {
      OtherRunsUntouched(s, step, rid);
      TruthKept(s, s', rid, s.runs[rid], s.runs[rid]);
    } else if step.Deliver? {
      DeliveredTruth(s, s', rid, s.runs[rid], step.event);
    } else {
      AttemptedTruth(s, step, s', Attempted(s, step));
    }
  }
}
