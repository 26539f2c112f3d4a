/** The invariant holds initially and after every step, so in every reachable state. */
module InvariantProof {
  import opened ClaimTable
  import opened AdapterContract
  import opened SagaFacts
  import opened SagaRows
  import opened GateSystem
  import opened GateInvariant
  import opened RunProof
  import opened OrderProof
  import opened GrowthProof
  import opened TruthProof
  import opened TableProof

  lemma InitialInv(limit: nat)
    ensures Inv(Initial(limit))
  {
  }

  lemma RunsStep(s: State, step: Step, s': State)
    requires Inv(s) && Enabled(s, step) && s' == After(s, step) && Grows(s, s')
    ensures RunsInv(s')
  {
    forall rid | rid in s'.runs
      ensures RunShape(s'.runs[rid]) && RunOrder(s'.runs[rid]) && RunAsked(s'.runs[rid]) && RunTruth(s', rid, s'.runs[rid]) && RunFence(s', rid, s'.runs[rid])
    {
      StepShapes(s, step, rid);
      StepOrder(s, step, rid);
      StepAsked(s, step, rid);
      StepTruth(s, step, s', rid);
      RunFenceStep(s, step, s', rid);
    }
  }

  lemma StepInv(s: State, step: Step)
    requires Inv(s) && Enabled(s, step)
    ensures Inv(After(s, step))
  {
    var s' := After(s, step);
    StepGrows(s, step);
    RunsStep(s, step, s');
    ClaimsStep(s, step, s');
    TakenStep(s, step, s');
    FencesStep(s, step, s');
    CallsStep(s, step, s');
    LedgerStep(s, step, s');
    RecordsStep(s, step, s');
    AuditsStep(s, step, s');
    CompensationsStep(s, step, s');
  }

  /** Every reachable state satisfies the invariant. */
  lemma {:induction false} ReachableInv(limit: nat, steps: seq<Step>, s: State)
    requires Reaches(limit, steps, s)
    ensures Inv(s) && s.limit == limit
  {
    if steps == [] {
      InitialInv(limit);
    } else {
      var before := Exec(limit, steps[..|steps| - 1]).value;
      ReachableInv(limit, steps[..|steps| - 1], before);
      StepInv(before, steps[|steps| - 1]);
    }
  }

  lemma RunGrowsTransitive(a: Run, b: Run, c: Run)
    requires RunGrows(a, b) && RunGrows(b, c)
    ensures RunGrows(a, c)
  {
    KeepsTransitive(a.w, b.w, c.w);
  }

  lemma GrowsTransitive(a: State, b: State, c: State)
    requires Grows(a, b) && Grows(b, c)
    ensures Grows(a, c)
  {
    RowsKeepTransitive(a.claims, b.claims, c.claims);
    forall rid | rid in a.runs ensures rid in c.runs && RunGrows(a.runs[rid], c.runs[rid]) {
      RunGrowsTransitive(a.runs[rid], b.runs[rid], c.runs[rid]);
    }
  }

  /** The state before the last of some further steps. */
  lemma BeforeLast(limit: nat, steps: seq<Step>, more: seq<Step>, later: State) returns (before: State)
    requires more != [] && Reaches(limit, steps + more, later)
    ensures Reaches(limit, steps + more[..|more| - 1], before)
    ensures Enabled(before, more[|more| - 1]) && later == After(before, more[|more| - 1])
  {
    var all := steps + more;
    assert all[..|all| - 1] == steps + more[..|more| - 1] && all[|all| - 1] == more[|more| - 1];
    before := Exec(limit, all[..|all| - 1]).value;
  }

  lemma LastStepGrows(limit: nat, steps: seq<Step>, more: seq<Step>, later: State) returns (before: State)
    requires more != [] && Reaches(limit, steps + more, later)
    ensures Reaches(limit, steps + more[..|more| - 1], before) && Grows(before, later)
  {
    before := BeforeLast(limit, steps, more, later);
    ReachableInv(limit, steps + more[..|more| - 1], before);
    StepGrows(before, more[|more| - 1]);
  }

  /** A later state keeps everything an earlier one has. */
  lemma {:induction false} LaterGrows(limit: nat, steps: seq<Step>, more: seq<Step>, s: State, later: State)
    requires Reaches(limit, steps, s) && Reaches(limit, steps + more, later)
    ensures Grows(s, later)
    decreases |more|
  {
    if more == [] {
      assert steps + more == steps;
    } else {
      var before := LastStepGrows(limit, steps, more, later);
      LaterGrows(limit, steps, more[..|more| - 1], s, before);
      GrowsTransitive(s, before, later);
    }
  }

  // ---- Views of the invariant -------------------------------------------------------

  lemma ReachableRun(limit: nat, steps: seq<Step>, s: State, rid: string)
    requires Reaches(limit, steps, s) && rid in s.runs
    ensures RunShape(s.runs[rid]) && RunTruth(s, rid, s.runs[rid]) && RunFence(s, rid, s.runs[rid])
    ensures Facts(s.runs[rid].w) && Trail(s.runs[rid].w) && s.limit == limit
  {
    ReachableInv(limit, steps, s);
    ReplayFacts(s.runs[rid].history);
    ReplayTrail(s.runs[rid].history);
  }

  lemma ReachableOrder(limit: nat, steps: seq<Step>, s: State, rid: string)
    requires Reaches(limit, steps, s) && rid in s.runs
    ensures RunOrder(s.runs[rid]) && RunTaken(s, rid, s.runs[rid]) && RunAsked(s.runs[rid])
  {
    ReachableInv(limit, steps, s);
  }

  lemma ReachableReverts(limit: nat, steps: seq<Step>, s: State, rid: string)
    requires Reaches(limit, steps, s) && rid in s.runs
    ensures s.runs[rid].reverts <= 1
  {
    ReachableInv(limit, steps, s);
    assert RunFence(s, rid, s.runs[rid]) && RunOrder(s.runs[rid]);
  }

  lemma ReachableRow(limit: nat, steps: seq<Step>, s: State, d: string)
    requires Reaches(limit, steps, s) && d in s.claims
    ensures RowInv(s, d, s.claims[d])
  {
    ReachableInv(limit, steps, s);
  }

  lemma ReachableFence(limit: nat, steps: seq<Step>, s: State, d: string)
    requires Reaches(limit, steps, s) && d in s.fences
    ensures FenceInv(s, d, s.fences[d]) && RowInv(s, d, s.claims[d])
  {
    ReachableInv(limit, steps, s);
  }

  /** A call is made by the run that owns the fenced claim, in the attempt that holds the fence. */
  lemma ReachableCall(limit: nat, steps: seq<Step>, s: State, i: nat)
    requires Reaches(limit, steps, s) && i < |s.calls|
    ensures CallInv(s, s.calls[i])
    ensures var c := s.calls[i];
            && c.decisionId in s.fences && s.fences[c.decisionId] == FenceEntry(c.run, c.attempt)
            && c.decisionId in s.claims && Fenced(s.claims[c.decisionId].state)
            && s.claims[c.decisionId].owner.runId == c.run
  {
    ReachableInv(limit, steps, s);
    assert CallInv(s, s.calls[i]);
    assert RunFence(s, s.calls[i].run, s.runs[s.calls[i].run]);
  }

  lemma ReachableCallsDiffer(limit: nat, steps: seq<Step>, s: State, i: nat, j: nat)
    requires Reaches(limit, steps, s) && i < j < |s.calls|
    ensures s.calls[i].decisionId != s.calls[j].decisionId && s.calls[i].run != s.calls[j].run
  {
    ReachableCall(limit, steps, s, i);
    ReachableCall(limit, steps, s, j);
    ReachableInv(limit, steps, s);
  }

  lemma ReachableLedger(limit: nat, steps: seq<Step>, s: State)
    requires Reaches(limit, steps, s)
    ensures LedgerInv(s)
  {
    ReachableInv(limit, steps, s);
  }

  lemma ReachableRecords(limit: nat, steps: seq<Step>, s: State)
    requires Reaches(limit, steps, s)
    ensures RecordsInv(s) && CompensationsInv(s)
  {
    ReachableInv(limit, steps, s);
  }

  lemma ReachableAudit(limit: nat, steps: seq<Step>, s: State, key: AuditKey)
    requires Reaches(limit, steps, s) && key in s.audits
    ensures AuditInv(s, key, s.audits[key])
  {
    ReachableInv(limit, steps, s);
  }

  lemma ReachableCalled(limit: nat, steps: seq<Step>, s: State, rid: string, k: nat)
    requires Reaches(limit, steps, s) && rid in s.runs && k < |s.runs[rid].attempts| && s.runs[rid].attempts[k].Called?
    ensures CalledBy(s, rid, k)
  {
    ReachableInv(limit, steps, s);
  }

  /** A later state keeps one run, one claim row and every settled key. */
  lemma LaterKeeps(limit: nat, steps: seq<Step>, more: seq<Step>, s: State, later: State)
    requires Reaches(limit, steps, s) && Reaches(limit, steps + more, later)
    ensures RowsKeep(s.claims, later.claims) && LedgerGrows(s.ledger, later.ledger)
    ensures forall rid :: rid in s.runs ==> rid in later.runs && RunGrows(s.runs[rid], later.runs[rid])
  {
    LaterGrows(limit, steps, more, s, later);
  }
}
