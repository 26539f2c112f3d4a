/** Every step keeps what the tables and the logs say. */
module TableProof {
  import opened Contracts
  import opened Evaluation
  import opened ClaimTable
  import opened AdapterContract
  import opened SagaWorkflow
  import opened SagaFacts
  import opened GateSystem
  import opened GateInvariant
  import opened RunProof
  import opened GrowthProof

  // ---- Claims -----------------------------------------------------------------------

  lemma RowStays(s: State, s': State, d: string, row: ExecutionClaim)
    requires Grows(s, s') && RowInv(s, d, row)
    ensures RowInv(s', d, row)
  {
    assert RunGrows(s.runs[row.owner.runId], s'.runs[row.owner.runId]);
  }

  /** The effect that a confirmed outcome names. */
  function EffectNamed(standing: Standing): Effect
    requires standing != Open
  {
    if standing == Worked then Applied else if standing == Broke(true) then PartlyApplied else Barred
  }

  /** What a run was told about the effect is what happened to its key. */
  lemma StandingIsTrue(s: State, rid: string, run: Run)
    requires RunTruth(s, rid, run) && Outcomes(run.w) && run.w.standing != Open
    ensures KeyOf(run) in s.ledger.effects && s.ledger.effects[KeyOf(run)] == EffectNamed(run.w.standing)
  {
    var r := run.w.confirmed.value;
    assert r in run.w.got;
    assert AnswerTrue(s, run.req, run.wid, r.answer);
  }

  lemma MarkIsJustified(run: Run, to: ClaimState)
    requires RunShape(run) && MarkOp(to) in run.scheduled
    ensures Outcomes(run.w)
    ensures to == ReconciliationRequired || (to == Completed && run.w.standing == Worked) || (to == Failed && run.w.standing.Broke?)
  {
    assert Justified(MarkOp(to), run.base, run.w);
    ReplayFacts(run.history);
  }

  /** A run asks for COMPLETED only on a confirmed SUCCESS and for FAILED only on a confirmed
      FAILURE, and the ledger says the same. */
  lemma MarkIsTruthful(s: State, rid: string, run: Run, to: ClaimState)
    requires RunShape(run) && RunTruth(s, rid, run) && MarkOp(to) in run.scheduled
    ensures to == ReconciliationRequired || to == Completed || to == Failed
    ensures to == Completed ==> Worth(s, DecisionOf(run), run.w, true)
    ensures to == Failed ==> Worth(s, DecisionOf(run), run.w, false)
  {
    MarkIsJustified(run, to);
    if to != ReconciliationRequired {
      StandingIsTrue(s, rid, run);
    }
  }

  lemma WorthLasts(s: State, s': State, d: string, w: Local, w': Local, success: bool)
    requires LedgerGrows(s.ledger, s'.ledger) && Keeps(w, w') && Worth(s, d, w, success)
    ensures Worth(s', d, w', success)
  {
  }

  lemma RowAdvances(s: State, d: string, row: ExecutionClaim, to: ClaimState)
    requires RowInv(s, d, row) && Permits(to, row.state) && to != Executing
    requires to == Completed ==> Worth(s, d, s.runs[row.owner.runId].w, true)
    requires to == Failed ==> Worth(s, d, s.runs[row.owner.runId].w, false)
    ensures RowInv(s, d, row.(state := to))
  {
    SourcesMatchDiagram(row.state, to);
  }

  lemma MarkStaysTruthful(s: State, s': State, rid: string, op: Op, to: ClaimState)
    requires Grows(s, s') && rid in s.runs && op in s.runs[rid].scheduled && Destination(op) == Some(to)
    requires RunShape(s.runs[rid]) && RunTruth(s, rid, s.runs[rid])
    ensures to != Executing && to != Claimed
    ensures to == Completed ==> Worth(s', DecisionOf(s.runs[rid]), s'.runs[rid].w, true)
    ensures to == Failed ==> Worth(s', DecisionOf(s.runs[rid]), s'.runs[rid].w, false)
  {
    if op.MarkOp? {
      var run, run' := s.runs[rid], s'.runs[rid];
      MarkIsTruthful(s, rid, run, to);
      assert RunGrows(run, run');
      if to != ReconciliationRequired {
        WorthLasts(s, s', DecisionOf(run), run.w, run'.w, to == Completed);
      }
    }
  }

  lemma AdvancedRow(s: State, s': State, rid: string, op: Op, d: string, to: ClaimState)
    requires Grows(s, s') && d in s.claims && RowInv(s, d, s.claims[d])
    requires rid in s.runs && op in s.runs[rid].scheduled && Destination(op) == Some(to)
    requires RunShape(s.runs[rid]) && RunTruth(s, rid, s.runs[rid])
    requires d == DecisionOf(s.runs[rid]) && s.claims[d].owner.runId == rid && Permits(to, s.claims[d].state)
    ensures RowInv(s', d, s.claims[d].(state := to))
  {
    RowStays(s, s', d, s.claims[d]);
    MarkStaysTruthful(s, s', rid, op, to);
    RowAdvances(s', d, s.claims[d], to);
  }

  lemma FencedRow(s: State, step: Step, s': State, d: string)
    requires Enabled(s, step) && step.FenceWrite? && Commits(s, step.rid, step.fate) && Grows(s, s')
    requires d == DecisionOf(s.runs[step.rid]) && RowInv(s, d, s.claims[d])
    requires d in s'.fences && s'.fences[d].run == step.rid
    ensures d in ClaimsAfter(s, step) && RowInv(s', d, ClaimsAfter(s, step)[d])
  {
    RowStays(s, s', d, s.claims[d]);
    assert ClaimsAfter(s, step)[d] == s.claims[d].(state := Executing);
  }

  lemma ClaimedRow(s: State, step: Step, s': State)
    requires Enabled(s, step) && step.ClaimStatement? && Grows(s, s')
    requires UpsertChanges(s.records.Keys, s.claims, DecisionOf(s.runs[step.rid]), Owner(step.rid, s.runs[step.rid]))
    requires s'.claims == ClaimsAfter(s, step)
    ensures RowInv(s', DecisionOf(s.runs[step.rid]), s'.claims[DecisionOf(s.runs[step.rid])])
  {
    assert RunGrows(s.runs[step.rid], s'.runs[step.rid]);
  }

  /** The decision whose row a step changes. */
  ghost predicate RowChanges(s: State, step: Step, d: string)
    requires Enabled(s, step)
  {
    && Subject(step).Some? && d == DecisionOf(s.runs[step.rid])
    && match step
       case ClaimStatement(rid, _) => UpsertChanges(s.records.Keys, s.claims, d, Owner(rid, s.runs[rid]))
       case AdvanceAttempt(rid, op, _) => MayAdvance(s.claims, d, Owner(rid, s.runs[rid]), Destination(op).value)
       case FenceWrite(rid, fate) => Commits(s, rid, fate)
       case _ => false
  }

  lemma OtherRowsStay(s: State, step: Step, d: string)
    requires Enabled(s, step) && d in ClaimsAfter(s, step) && !RowChanges(s, step, d)
    ensures d in s.claims && ClaimsAfter(s, step)[d] == s.claims[d]
  {
  }

  lemma ChangedRow(s: State, step: Step, s': State, d: string)
    requires RunsInv(s) && ClaimsInv(s) && Enabled(s, step) && s' == After(s, step) && Grows(s, s')
    requires RowChanges(s, step, d)
    ensures d in s'.claims && RowInv(s', d, s'.claims[d])
  {
    if step.ClaimStatement? {
      ClaimedRow(s, step, s');
    } else if step.AdvanceAttempt? {
      AdvancedRow(s, s', step.rid, step.op, d, Destination(step.op).value);
    } else {
      FencedRow(s, step, s', d);
    }
  }

  lemma ClaimsStep(s: State, step: Step, s': State)
    requires RunsInv(s) && ClaimsInv(s) && Enabled(s, step) && s' == After(s, step) && Grows(s, s')
    ensures ClaimsInv(s')
  {
    forall d | d in s'.claims ensures RowInv(s', d, s'.claims[d]) {
      if RowChanges(s, step, d) {
        ChangedRow(s, step, s', d);
      } else {
        OtherRowsStay(s, step, d);
        RowStays(s, s', d, s.claims[d]);
      }
    }
  }

  // ---- Claims and what the runs did -------------------------------------------------

  /** A row that another run changes is not CLAIMED by this run, before or after. */
  lemma ChangedByOther(s: State, step: Step, d: string, owner: ClaimOwner)
    requires Enabled(s, step) && RowChanges(s, step, d) && owner.runId != step.rid
    ensures !HeldInClaimedBy(s.claims, d, owner) && !HeldInClaimedBy(ClaimsAfter(s, step), d, owner)
    ensures d in s.claims && Fenced(s.claims[d].state) ==> s.claims[d].owner.runId == step.rid
  {
  }

  lemma UnchangedByOther(s: State, step: Step, d: string, owner: ClaimOwner)
    requires Enabled(s, step) && !RowChanges(s, step, d)
    ensures HeldInClaimedBy(s.claims, d, owner) <==> HeldInClaimedBy(ClaimsAfter(s, step), d, owner)
  {
    if d in s.claims {
      ClaimsGrow(s, step);
    }
    if d in ClaimsAfter(s, step) {
      OtherRowsStay(s, step, d);
    }
  }

  lemma FencesOfOthers(s: State, step: Step, rid: string, d: string)
    requires FencesInv(s) && Enabled(s, step) && Subject(step) != Some(rid)
    ensures FencedBy(After(s, step), d, rid) ==> FencedBy(s, d, rid)
    ensures FencedBy(s, d, rid) && !RowChanges(s, step, d) ==> FencedBy(After(s, step), d, rid)
  {
  }

  /** A step by another run, or by none, leaves a run's claim as it was. */
  lemma OtherTaken(s: State, step: Step, s': State, rid: string, run: Run)
    requires FencesInv(s) && Enabled(s, step) && Subject(step) != Some(rid)
    requires s'.claims == ClaimsAfter(s, step) && s'.fences == After(s, step).fences
    requires RunTaken(s, rid, run)
    ensures RunTaken(s', rid, run)
  {
    var d := DecisionOf(run);
    FencesOfOthers(s, step, rid, d);
    if RowChanges(s, step, d) {
      ChangedByOther(s, step, d, Owner(rid, run));
      assert d in s.fences ==> FenceInv(s, d, s.fences[d]);
    } else {
      UnchangedByOther(s, step, d, Owner(rid, run));
    }
  }

  lemma ClaimTaken(s: State, step: Step, s': State)
    requires FencesInv(s) && Enabled(s, step) && step.ClaimStatement? && RunTaken(s, step.rid, s.runs[step.rid])
    requires s'.claims == ClaimsAfter(s, step) && s'.fences == s.fences
    ensures RunTaken(s', step.rid, Attempted(s, step))
  {
    var d := DecisionOf(s.runs[step.rid]);
    assert d in s.fences ==> FenceInv(s, d, s.fences[d]);
  }

  lemma AdvanceTaken(s: State, step: Step, s': State)
    requires Enabled(s, step) && step.AdvanceAttempt? && RunTaken(s, step.rid, s.runs[step.rid])
    requires s'.claims == ClaimsAfter(s, step) && s'.fences == s.fences
    ensures RunTaken(s', step.rid, Attempted(s, step))
  {
    var d := DecisionOf(s.runs[step.rid]);
    if d in s.claims {
      SourcesMatchDiagram(s.claims[d].state, Destination(step.op).value);
    }
  }

  lemma FenceTaken(s: State, step: Step, s': State)
    requires FencesInv(s) && Enabled(s, step) && step.FenceWrite? && RunTaken(s, step.rid, s.runs[step.rid])
    requires s'.claims == ClaimsAfter(s, step) && s'.fences == After(s, step).fences
    ensures RunTaken(s', step.rid, Attempted(s, step))
  {
  }

  lemma OwnTaken(s: State, step: Step, s': State)
    requires FencesInv(s) && Enabled(s, step) && Subject(step).Some? && RunTaken(s, step.rid, s.runs[step.rid])
    requires s' == After(s, step)
    ensures RunTaken(s', step.rid, s'.runs[step.rid])
  {
    if step.ClaimStatement? {
      ClaimTaken(s, step, s');
    } else if step.AdvanceAttempt? {
      AdvanceTaken(s, step, s');
    } else if step.FenceWrite? {
      FenceTaken(s, step, s');
    }
  }

  lemma NewTaken(s: State, step: Step, s': State, rid: string)
    requires ClaimsInv(s) && Enabled(s, step) && s' == After(s, step) && rid in s'.runs && rid !in s.runs
    ensures RunTaken(s', rid, s'.runs[rid])
  {
    NewRunIsCreated(s, step, rid);
    var d := DecisionOf(s'.runs[rid]);
    assert d in s.claims ==> RowInv(s, d, s.claims[d]);
  }

  lemma TakenStep(s: State, step: Step, s': State)
    requires ClaimsInv(s) && FencesInv(s) && TakenInv(s) && Enabled(s, step) && s' == After(s, step)
    ensures TakenInv(s')
  {
    forall rid | rid in s'.runs ensures RunTaken(s', rid, s'.runs[rid]) {
      if rid !in s.runs {
        NewTaken(s, step, s', rid);
      } else if Subject(step) != Some(rid) {
        OtherRunsUntouched(s, step, rid);
        OtherTaken(s, step, s', rid, s.runs[rid]);
      } else {
        OwnTaken(s, step, s');
      }
    }
  }

  // ---- Fences -----------------------------------------------------------------------

  lemma FencesAfter(s: State, step: Step, d: string)
    requires Enabled(s, step) && d in After(s, step).fences && d !in s.fences
    ensures step.FenceWrite? && Commits(s, step.rid, step.fate) && d == DecisionOf(s.runs[step.rid])
    ensures After(s, step).fences[d] == FenceEntry(step.rid, |s.runs[step.rid].attempts|)
  {
  }

  lemma NewFence(s: State, step: Step, s': State)
    requires Enabled(s, step) && step.FenceWrite? && Commits(s, step.rid, step.fate)
    requires s'.claims == ClaimsAfter(s, step) && s'.runs == RunsAfter(s, step)
    ensures FenceInv(s', DecisionOf(s.runs[step.rid]), FenceEntry(step.rid, |s.runs[step.rid].attempts|))
  {
    assert s'.runs[step.rid].attempts == AttemptsAfter(s, step);
  }

  lemma OldFence(s: State, s': State, d: string)
    requires Grows(s, s') && d in s.fences && FenceInv(s, d, s.fences[d])
    ensures FenceInv(s', d, s.fences[d])
  {
    assert RunGrows(s.runs[s.fences[d].run], s'.runs[s.fences[d].run]);
  }

  lemma FenceStep(s: State, step: Step, s': State, d: string)
    requires Enabled(s, step) && s' == After(s, step) && Grows(s, s') && d in s'.fences
    requires d in s.fences ==> FenceInv(s, d, s.fences[d])
    ensures FenceInv(s', d, s'.fences[d])
  {
    if d in s.fences {
      OldFence(s, s', d);
    } else {
      FencesAfter(s, step, d);
      NewFence(s, step, s');
    }
  }

  lemma FencesStep(s: State, step: Step, s': State)
    requires FencesInv(s) && Enabled(s, step) && s' == After(s, step) && Grows(s, s')
    ensures FencesInv(s')
  {
    forall d | d in s'.fences ensures FenceInv(s', d, s'.fences[d]) {
      FenceStep(s, step, s', d);
    }
  }

  /** An attempt past the fence is the one the fence was given to. */
  ghost predicate FencedAttempts(s: State, rid: string, d: string, attempts: seq<Attempt>) {
    forall i :: 0 <= i < |attempts| && (attempts[i].Acquired? || attempts[i].Called?) ==>
      d in s.fences && s.fences[d] == FenceEntry(rid, i)
  }

  /** The run scheduled dispatch once, so its attempts are bounded by those of one activity. */
  lemma OneAttemptMore(s: State, step: Step)
    requires Enabled(s, step) && step.FenceWrite? && RunOrder(s.runs[step.rid])
    ensures |s.runs[step.rid].attempts| < s.limit
    ensures AttemptsAfter(s, step) == s.runs[step.rid].attempts + [Fencing(s, step.rid, step.fate)]
  {
    var n := s.runs[step.rid].scheduled[DispatchOp];
    assert n == 1 && s.limit * n == s.limit;
  }

  lemma FenceGoesTo(s: State, step: Step)
    requires Enabled(s, step) && step.FenceWrite? && Fencing(s, step.rid, step.fate).Acquired?
    ensures var d := DecisionOf(s.runs[step.rid]);
            d in After(s, step).fences && After(s, step).fences[d] == FenceEntry(step.rid, |s.runs[step.rid].attempts|)
  {
  }

  /** A fence write is one attempt of the one dispatch the run scheduled. */
  lemma FenceWriteFence(s: State, step: Step, s': State, attempts: seq<Attempt>)
    requires Enabled(s, step) && step.FenceWrite? && s' == After(s, step) && Grows(s, s')
    requires RunFence(s, step.rid, s.runs[step.rid]) && RunOrder(s.runs[step.rid]) && attempts == AttemptsAfter(s, step)
    ensures |attempts| <= s'.limit && FencedAttempts(s', step.rid, DecisionOf(s.runs[step.rid]), attempts)
  {
    var rid, old' := step.rid, s.runs[step.rid].attempts;
    OneAttemptMore(s, step);
    if Fencing(s, rid, step.fate).Acquired? {
      FenceGoesTo(s, step);
    }
    forall i | 0 <= i < |attempts| && (attempts[i].Acquired? || attempts[i].Called?)
      ensures DecisionOf(s.runs[rid]) in s'.fences && s'.fences[DecisionOf(s.runs[rid])] == FenceEntry(rid, i)
    {
      if i < |old'| {
        assert old'[i].Acquired? || old'[i].Called?;
      }
    }
  }

  lemma OtherAttempts(s: State, step: Step, attempts: seq<Attempt>)
    requires Enabled(s, step) && Subject(step).Some? && !step.FenceWrite? && attempts == AttemptsAfter(s, step)
    ensures |attempts| == |s.runs[step.rid].attempts|
    ensures forall i :: 0 <= i < |attempts| && (attempts[i].Acquired? || attempts[i].Called?) ==>
              s.runs[step.rid].attempts[i].Acquired? || s.runs[step.rid].attempts[i].Called?
  {
  }

  lemma AttemptedFence(s: State, step: Step, s': State, attempts: seq<Attempt>)
    requires Enabled(s, step) && Subject(step).Some? && !step.Deliver? && s' == After(s, step) && Grows(s, s')
    requires RunFence(s, step.rid, s.runs[step.rid]) && RunOrder(s.runs[step.rid]) && attempts == AttemptsAfter(s, step)
    ensures |attempts| <= s'.limit && FencedAttempts(s', step.rid, DecisionOf(s.runs[step.rid]), attempts)
  {
    if step.FenceWrite? {
      FenceWriteFence(s, step, s', attempts);
    } else {
      OtherAttempts(s, step, attempts);
    }
  }

  lemma RunFenceStays(s: State, s': State, rid: string, run: Run, run': Run)
    requires Grows(s, s') && RunFence(s, rid, run) && run'.attempts == run.attempts && run'.req == run.req
    requires run'.reverts == run.reverts && run.scheduled <= run'.scheduled
    ensures RunFence(s', rid, run')
  {
  }

  lemma SubjectFence(s: State, step: Step, s': State)
    requires Enabled(s, step) && Subject(step).Some? && !step.Deliver? && s' == After(s, step) && Grows(s, s')
    requires RunFence(s, step.rid, s.runs[step.rid]) && RunOrder(s.runs[step.rid])
    ensures RunFence(s', step.rid, Attempted(s, step))
  {
    AttemptedFence(s, step, s', AttemptsAfter(s, step));
  }

  lemma RunFenceStep(s: State, step: Step, s': State, rid: string)
    requires Enabled(s, step) && s' == After(s, step) && Grows(s, s') && rid in s'.runs
    requires rid in s.runs ==> RunFence(s, rid, s.runs[rid]) && RunOrder(s.runs[rid])
    ensures RunFence(s', rid, s'.runs[rid])
  {
    if rid !in s.runs {
      NewRunIsCreated(s, step, rid);
    } else if Subject(step) != Some(rid) {
      OtherRunsUntouched(s, step, rid);
      RunFenceStays(s, s', rid, s.runs[rid], s'.runs[rid]);
    } else if step.Deliver? {
      RunFenceStays(s, s', rid, s.runs[rid], Delivering(s.runs[rid], step.event));
    } else {
      SubjectFence(s, step, s');
    }
  }

  // ---- Adapter calls ----------------------------------------------------------------

  lemma CallStays(s: State, s': State, c: AdapterCall)
    requires Grows(s, s') && CallInv(s, c)
    ensures CallInv(s', c)
  {
    assert RunGrows(s.runs[c.run], s'.runs[c.run]);
  }

  lemma CallsKept(s: State, step: Step, s': State)
    requires CallsInv(s) && Enabled(s, step) && s' == After(s, step) && Grows(s, s')
    ensures forall i :: 0 <= i < |s'.calls| ==> CallInv(s', s'.calls[i])
  {
    forall i | 0 <= i < |s'.calls| ensures CallInv(s', s'.calls[i]) {
      if i < |s.calls| {
        CallStays(s, s', s.calls[i]);
      } else {
        assert step.AdapterDispatch? && s'.calls[i] == CallOf(s, step.rid, step.attempt);
        assert s'.runs[step.rid].attempts == AttemptsAfter(s, step);
        assert RunGrows(s.runs[step.rid], s'.runs[step.rid]);
      }
    }
  }

  /** An attempt calls the adapter when it has not done so before. */
  lemma CallsStayDistinct(s: State, step: Step, s': State)
    requires CallsInv(s) && Enabled(s, step) && s' == After(s, step) && Grows(s, s')
    ensures forall i, j :: 0 <= i < j < |s'.calls| ==>
              s'.calls[i].run != s'.calls[j].run || s'.calls[i].attempt != s'.calls[j].attempt
  {
    forall i, j | 0 <= i < j < |s'.calls|
      ensures s'.calls[i].run != s'.calls[j].run || s'.calls[i].attempt != s'.calls[j].attempt
    {
      assert s'.calls[i] == s.calls[i];
      if j < |s.calls| {
        assert s'.calls[j] == s.calls[j];
      } else {
        assert s'.calls[j] == CallOf(s, step.rid, step.attempt);
        assert CallInv(s, s.calls[i]);
      }
    }
  }

  lemma CalledIsLogged(s: State, step: Step, s': State, rid: string, k: nat)
    requires CallsInv(s) && Enabled(s, step) && s' == After(s, step) && Grows(s, s')
    requires rid in s'.runs && k < |s'.runs[rid].attempts| && s'.runs[rid].attempts[k].Called?
    ensures CalledBy(s', rid, k)
  {
    if rid in s.runs && k < |s.runs[rid].attempts| && s.runs[rid].attempts[k].Called? {
      assert CalledBy(s, rid, k);
      var i :| 0 <= i < |s.calls| && s.calls[i].run == rid && s.calls[i].attempt == k;
      assert s'.calls[i] == s.calls[i];
    } else {
      CalledIsNew(s, step, rid, k);
      var n := |s.calls|;
      assert s'.calls[n] == CallOf(s, rid, k);
    }
  }

  lemma CalledIsNew(s: State, step: Step, rid: string, k: nat)
    requires Enabled(s, step)
    requires rid in RunsAfter(s, step) && k < |RunsAfter(s, step)[rid].attempts| && RunsAfter(s, step)[rid].attempts[k].Called?
    requires !(rid in s.runs && k < |s.runs[rid].attempts| && s.runs[rid].attempts[k].Called?)
    ensures step.AdapterDispatch? && step.rid == rid && step.attempt == k
  {
    if rid !in s.runs {
      NewRunIsCreated(s, step, rid);
    } else if Subject(step) != Some(rid) {
      OtherRunsUntouched(s, step, rid);
    } else if !step.Deliver? {
      assert RunsAfter(s, step)[rid].attempts == AttemptsAfter(s, step);
    }
  }

  lemma CallsStep(s: State, step: Step, s': State)
    requires CallsInv(s) && Enabled(s, step) && s' == After(s, step) && Grows(s, s')
    ensures CallsInv(s')
  {
    CallsKept(s, step, s');
    CallsStayDistinct(s, step, s');
    forall rid, k | rid in s'.runs && 0 <= k < |s'.runs[rid].attempts| && s'.runs[rid].attempts[k].Called?
      ensures CalledBy(s', rid, k)
    {
      CalledIsLogged(s, step, s', rid, k);
    }
  }

  // ---- The ledger -------------------------------------------------------------------

  lemma LedgerStep(s: State, step: Step, s': State)
    requires LedgerInv(s) && Enabled(s, step) && s' == After(s, step) && Grows(s, s')
    ensures LedgerInv(s')
  {
    LedgerGrowsStep(s, step);
    forall key | key in s'.ledger.effects && s'.ledger.effects[key] != Barred
      ensures KeyCalled(s', key)
    {
      if key in s.ledger.effects || step.LateEffect? {
        assert KeyCalled(s, key);
        var i :| 0 <= i < |s.calls| && s.calls[i].request.idempotencyKey == key;
        assert s'.calls[i] == s.calls[i];
      } else {
        var n := |s.calls|;
        assert step.AdapterDispatch?;
        assert s'.calls[n] == CallOf(s, step.rid, step.attempt);
      }
    }
  }

  // ---- Records and compensations ----------------------------------------------------

  lemma NewRecord(s: State, step: Step, d: string)
    requires Enabled(s, step) && d in RecordsAfter(s, step) && d !in s.records
    ensures (step.Intercept? && d == step.decisionId && Records(s, step)) || step.RecordAttempt?
    ensures RecordsAfter(s, step)[d].WellFormed() && RecordsAfter(s, step)[d].decisionId == d
    ensures step.Intercept? ==>
              && RecordsAfter(s, step)[d].stage == Ingress
              && IngressStored(RecordsAfter(s, step), d, step.agentId, step.proposal,
                               Evaluate(s.policies[step.epoch], step.agentId, step.proposal))
    ensures step.RecordAttempt? ==>
              && RecordsAfter(s, step)[d].stage == WorkflowRevalidation
              && d == "wf_" + s.runs[step.rid].wid + "_" + step.rid
              && RunStored(RecordsAfter(s, step), step.rid, s.runs[step.rid], step.decision)
  {
  }

  lemma RunWroteStays(s: State, s': State, d: string)
    requires Grows(s, s') && WrittenByRun(s, d)
    ensures WrittenByRun(s', d)
  {
    var rid, decision :| RunWrote(s, d, rid, decision);
    assert RunGrows(s.runs[rid], s'.runs[rid]);
    assert RunWrote(s', d, rid, decision);
  }

  lemma RunWritesNow(s: State, step: Step, s': State, d: string)
    requires Enabled(s, step) && step.RecordAttempt? && Grows(s, s') && s'.records == RecordsAfter(s, step)
    requires d == "wf_" + s.runs[step.rid].wid + "_" + step.rid
    requires RunStored(s'.records, step.rid, s.runs[step.rid], step.decision)
    ensures WrittenByRun(s', d)
  {
    assert RunGrows(s.runs[step.rid], s'.runs[step.rid]);
    assert RunWrote(s', d, step.rid, step.decision);
  }

  lemma OldRecord(s: State, s': State, d: string)
    requires Grows(s, s') && d in s.records && RecordInv(s, d, s.records[d])
    ensures d in s'.records && RecordInv(s', d, s'.records[d])
  {
    if s.records[d].stage == WorkflowRevalidation {
      RunWroteStays(s, s', d);
    }
  }

  lemma RecordStep(s: State, step: Step, s': State, d: string)
    requires RecordsInv(s) && Enabled(s, step) && s' == After(s, step) && Grows(s, s') && d in s'.records
    ensures RecordInv(s', d, s'.records[d])
  {
    if d in s.records {
      OldRecord(s, s', d);
    } else {
      NewRecord(s, step, d);
      if step.RecordAttempt? {
        RunWritesNow(s, step, s', d);
      }
    }
  }

  lemma RecordsStep(s: State, step: Step, s': State)
    requires RecordsInv(s) && Enabled(s, step) && s' == After(s, step) && Grows(s, s')
    ensures RecordsInv(s')
  {
    forall d | d in s'.records ensures RecordInv(s', d, s'.records[d]) {
      RecordStep(s, step, s', d);
    }
    IngressStaysRecorded(s, step);
  }

  lemma IngressStaysRecorded(s: State, step: Step)
    requires RecordsInv(s) && Enabled(s, step)
    ensures forall d :: d in After(s, step).ingress ==> d in RecordsAfter(s, step)
  {
  }

  // ---- Audit rows -------------------------------------------------------------------

  lemma OldRow(s: State, s': State, key: AuditKey, row: AuditRow)
    requires Grows(s, s') && AuditInv(s, key, row)
    ensures AuditInv(s', key, row)
  {
    assert RunGrows(s.runs[key.runId], s'.runs[key.runId]);
  }

  /** A new row is one that its run has written and is waiting for, or waited for. */
  lemma NewRowSays(s: State, step: Step, key: AuditKey)
    requires Enabled(s, step) && key in AuditsAfter(s, step) && key !in s.audits
    ensures step.AuditAttempt? && AuditOp(step.index, step.entry) in s.runs[step.rid].scheduled
    ensures RowSays(key, AuditsAfter(s, step)[key], step.rid, s.runs[step.rid], step.index, step.entry)
  {
  }

  lemma RowWasWritten(run: Run, index: nat, entry: AuditEntry)
    requires RunShape(run) && AuditOp(index, entry) in run.scheduled
    ensures index < |run.w.rows| && run.w.rows[index] == entry
  {
    assert Justified(AuditOp(index, entry), run.base, run.w);
  }

  lemma RowStaysRight(s: State, s': State, key: AuditKey, row: AuditRow, rid: string, index: nat, entry: AuditEntry)
    requires Grows(s, s') && rid in s.runs && RowSays(key, row, rid, s.runs[rid], index, entry)
    requires index < |s.runs[rid].w.rows| && s.runs[rid].w.rows[index] == entry
    ensures AuditInv(s', key, row)
  {
    assert RunGrows(s.runs[rid], s'.runs[rid]);
  }

  lemma NewRow(s: State, step: Step, s': State, key: AuditKey)
    requires RunsInv(s) && Enabled(s, step) && key in AuditsAfter(s, step) && key !in s.audits && Grows(s, s')
    ensures AuditInv(s', key, AuditsAfter(s, step)[key])
  {
    NewRowSays(s, step, key);
    RowWasWritten(s.runs[step.rid], step.index, step.entry);
    RowStaysRight(s, s', key, AuditsAfter(s, step)[key], step.rid, step.index, step.entry);
  }

  lemma AuditsStep(s: State, step: Step, s': State)
    requires AuditsInv(s) && RunsInv(s) && Enabled(s, step) && s' == After(s, step) && Grows(s, s')
    ensures AuditsInv(s')
  {
    forall key | key in s'.audits ensures AuditInv(s', key, s'.audits[key]) {
      if key in s.audits {
        OldRow(s, s', key, s.audits[key]);
      } else {
        NewRow(s, step, s', key);
      }
    }
  }

  lemma CompensationsStep(s: State, step: Step, s': State)
    requires CompensationsInv(s) && Enabled(s, step) && s' == After(s, step) && Grows(s, s')
    requires step.AdapterCompensate? ==> RunOrder(s.runs[step.rid])
    ensures CompensationsInv(s')
  {
    var old', new' := s.compensations, s'.compensations;
    forall i | 0 <= i < |new'| ensures new'[i] in s'.runs && s'.runs[new'[i]].reverts > 0 {
      if i < |old'| {
        assert new'[i] == old'[i];
        assert RunGrows(s.runs[old'[i]], s'.runs[old'[i]]);
      } else {
        assert new'[i] == step.rid && s'.runs[step.rid] == Attempted(s, step);
      }
    }
    forall i, j | 0 <= i < j < |new'| ensures new'[i] != new'[j] {
      assert new'[i] == old'[i];
      if j == |old'| {
        assert new'[j] == step.rid && s.runs[step.rid].reverts == 0;
      }
    }
  }
}
