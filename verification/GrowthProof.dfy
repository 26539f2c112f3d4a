/** Every step only adds, and what was true of an answer stays true. */
module GrowthProof {
  import opened Contracts
  import opened ClaimTable
  import opened AdapterContract
  import opened GateSystem
  import opened GateInvariant
  import opened RunProof

  lemma RecordsGrow(s: State, step: Step)
    requires Enabled(s, step)
    ensures forall d :: d in s.records ==> d in RecordsAfter(s, step) && RecordsAfter(s, step)[d] == s.records[d]
    ensures forall k :: k in s.audits ==> k in AuditsAfter(s, step) && AuditsAfter(s, step)[k] == s.audits[k]
  {
  }

  lemma ClaimsGrow(s: State, step: Step)
    requires Enabled(s, step)
    ensures RowsKeep(s.claims, ClaimsAfter(s, step))
  {
    match step
    case ClaimStatement(rid, _) =>
      UpsertKeepsRows(s.records.Keys, s.claims, DecisionOf(s.runs[rid]), Owner(rid, s.runs[rid]));
    case AdvanceAttempt(rid, op, _) =>
      AdvanceKeepsRows(s.claims, DecisionOf(s.runs[rid]), Owner(rid, s.runs[rid]), Destination(op).value);
    case FenceWrite(rid, fate) =>
      AdvanceKeepsRows(s.claims, DecisionOf(s.runs[rid]), Owner(rid, s.runs[rid]), Executing);
    case _ =>
  }

  lemma LedgerGrowsStep(s: State, step: Step)
    requires Enabled(s, step) && s.ledger.Sound()
    ensures LedgerAfter(s, step).Sound() && LedgerGrows(s.ledger, LedgerAfter(s, step))
  {
    match step
    case AdapterDispatch(rid, _, effect, _) => SettledIsSound(s.ledger, KeyOf(s.runs[rid]), effect);
    case AdapterReconcile(rid, _, effect, _) => SettledIsSound(s.ledger, KeyOf(s.runs[rid]), effect);
    case LateEffect(key, late) => SettledIsSound(s.ledger, key, Some(late));
    case _ =>
  }

  /** A fence that commits was never given out before. */
  lemma FenceIsNew(s: State, rid: string, fate: WriteFate)
    requires FencesInv(s) && rid in s.runs && Commits(s, rid, fate)
    ensures DecisionOf(s.runs[rid]) !in s.fences
    ensures s.claims[DecisionOf(s.runs[rid])].state == Claimed
  {
    SourcesMatchDiagram(s.claims[DecisionOf(s.runs[rid])].state, Executing);
  }

  lemma LogsGrow(s: State, step: Step)
    requires Enabled(s, step)
    requires step.FenceWrite? && Commits(s, step.rid, step.fate) ==> DecisionOf(s.runs[step.rid]) !in s.fences
    requires forall d :: d in s.ingress ==> d in s.records
    ensures var s' := After(s, step);
            && s.policies <= s'.policies && s.calls <= s'.calls
            && (forall d :: d in s.ingress ==> d in s'.ingress && s'.ingress[d] == s.ingress[d])
            && (forall d :: d in s.fences ==> d in s'.fences && s'.fences[d] == s.fences[d])
  {
  }

  lemma RunsGrow(s: State, step: Step)
    requires RunsInv(s) && Enabled(s, step)
    ensures forall rid :: rid in s.runs ==> rid in RunsAfter(s, step) && RunGrows(s.runs[rid], RunsAfter(s, step)[rid])
  {
    forall rid | rid in s.runs
      ensures rid in RunsAfter(s, step) && RunGrows(s.runs[rid], RunsAfter(s, step)[rid])
    {
      RunStays(s, step, rid);
      StepShapes(s, step, rid);
    }
  }

  lemma RunStays(s: State, step: Step, rid: string)
    requires Enabled(s, step) && rid in s.runs
    ensures rid in RunsAfter(s, step)
  {
  }

  lemma TablesGrow(s: State, step: Step, s': State)
    requires s.ledger.Sound() && Enabled(s, step) && s' == After(s, step)
    ensures forall d :: d in s.records ==> d in s'.records && s'.records[d] == s.records[d]
    ensures forall k :: k in s.audits ==> k in s'.audits && s'.audits[k] == s.audits[k]
    ensures RowsKeep(s.claims, s'.claims) && LedgerGrows(s.ledger, s'.ledger)
    ensures s'.limit == s.limit
  {
    RecordsGrow(s, step);
    ClaimsGrow(s, step);
    LedgerGrowsStep(s, step);
  }

  /** No step takes anything back. */
  lemma StepGrows(s: State, step: Step)
    requires Inv(s) && Enabled(s, step)
    ensures Grows(s, After(s, step))
  {
    var s' := After(s, step);
    TablesGrow(s, step, s');
    if step.FenceWrite? && Commits(s, step.rid, step.fate) {
      FenceIsNew(s, step.rid, step.fate);
    }
    LogsGrow(s, step);
    RunsGrow(s, step);
    assert forall rid :: rid in s.runs ==> rid in s'.runs && RunGrows(s.runs[rid], s'.runs[rid]);
  }
}
