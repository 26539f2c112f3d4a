/** What the gate promises, for every interleaving of any number of runs, retries, lost answers,
    late activities, resets and policy changes. */
module GateTheorems {
  import opened Contracts
  import opened RequestHashing
  import opened Evaluation
  import opened IngressBinding
  import opened SagaWorkflow
  import opened SagaFacts
  import opened GateSystem
  import opened GateInvariant
  import opened InvariantProof

  // ---- At most one dispatch per decision --------------------------------------------

  function CallCount(calls: seq<AdapterCall>, d: string): nat {
    if calls == [] then 0
    else CallCount(calls[..|calls| - 1], d) + if calls[|calls| - 1].decisionId == d then 1 else 0
  }

  lemma {:induction false} CountOfDistinct(calls: seq<AdapterCall>, d: string)
    requires forall i, j :: 0 <= i < j < |calls| ==> calls[i].decisionId != d || calls[j].decisionId != d
    ensures CallCount(calls, d) <= 1
    ensures (forall i :: 0 <= i < |calls| ==> calls[i].decisionId != d) ==> CallCount(calls, d) == 0
  {
    if calls != [] {
      CountOfDistinct(calls[..|calls| - 1], d);
    }
  }

  /** The adapter's Dispatch is called at most once per ingress decision, for any number of
      dispatch attempts per run, and not at all while the decision is unclaimed, CLAIMED or
      RELEASED. */
  lemma DispatchAtMostOncePerDecision(limit: nat, steps: seq<Step>, s: State, d: string)
    requires Reaches(limit, steps, s)
    ensures CallCount(s.calls, d) <= 1
    ensures d !in s.claims || s.claims[d].state == Claimed || s.claims[d].state == Released ==>
              CallCount(s.calls, d) == 0
  {
    forall i, j | 0 <= i < j < |s.calls| ensures s.calls[i].decisionId != d || s.calls[j].decisionId != d {
      ReachableCallsDiffer(limit, steps, s, i, j);
    }
    if d !in s.claims || s.claims[d].state == Claimed || s.claims[d].state == Released {
      forall i | 0 <= i < |s.calls| ensures s.calls[i].decisionId != d {
        ReachableCall(limit, steps, s, i);
      }
    }
    CountOfDistinct(s.calls, d);
  }

  // ---- Every dispatch is authorized -------------------------------------------------

  /** The ingress handler evaluated exactly this agent and proposal to ALLOW, under a loaded
      policy, and recorded it for this workflow. */
  ghost predicate Backed(s: State, req: ExecutionRequest, wid: string) {
    var d, p := req.ingressDecisionId, req.proposal;
    && d in s.records && s.records[d].stage == Ingress && s.records[d].verdict == Allow
    && s.records[d].workflowId == wid == "saga-" + p.id
    && d in s.ingress && s.ingress[d].agentId == req.agentId && s.ingress[d].proposal == p
    && s.ingress[d].epoch < |s.policies| && s.policies[s.ingress[d].epoch].Some?
    && Evaluate(s.policies[s.ingress[d].epoch], req.agentId, p).verdict == Allow
  }

  /** The run itself was granted the claim, then evaluated the proposal to ALLOW under a loaded
      policy in force no earlier, and stored that decision and its PASS row. */
  ghost predicate Revalidated(s: State, rid: string, run: Run) {
    && run.w.claim.Some? && Receipt(ClaimOp, ClaimGranted(run.w.claim.value)) in run.answers
    && run.w.reval.Some? && run.w.claim.value <= run.w.reval.value.epoch < |s.policies|
    && s.policies[run.w.reval.value.epoch].Some?
    && run.w.reval.value.decision == Evaluate(s.policies[run.w.reval.value.epoch], run.req.agentId, run.req.proposal)
    && run.w.reval.value.decision.verdict == Allow
    && RunStored(s.records, rid, run, run.w.reval.value.decision)
    && RowStored(s, rid, run, 0, PassEntry)
  }

  ghost predicate Authorized(s: State, rid: string, run: Run) {
    Backed(s, run.req, run.wid) && Revalidated(s, rid, run)
  }

  /** A verified request carries what the handler evaluated. */
  lemma VerifiedIsIngress(s: State, req: ExecutionRequest, wid: string)
    requires RecordsInv(s) && CheckIngress(s.records, req, wid).None?
    ensures Backed(s, req, wid)
  {
    assert RecordInv(s, req.ingressDecisionId, s.records[req.ingressDecisionId]);
    var entry := s.ingress[req.ingressDecisionId];
    RequestHashBinds(entry.proposal, req.proposal);
    AllowNeedsPolicy(s.policies[entry.epoch], req);
  }

  /** A run that owns a claim was granted it itself, so what followed was told to it alone. */
  lemma OwnerWasTold(s: State, rid: string, run: Run)
    requires RunShape(run) && ClaimOp in run.scheduled && DispatchOp in run.scheduled
    ensures run.w.claim.Some? && Receipt(ClaimOp, ClaimGranted(run.w.claim.value)) in run.answers
    ensures run.w.reval.Some? && run.w.reval.value.decision.verdict == Allow
    ensures Receipt(EvaluateOp, Evaluated(run.w.reval.value.decision, run.w.reval.value.epoch)) in run.answers
    ensures Receipt(RecordOp(run.w.reval.value.decision), Done) in run.answers
    ensures Receipt(AuditOp(0, PassEntry), Done) in run.answers
    ensures Receipt(VerifyOp, IngressValid) in run.w.got
  {
    ReplayFacts(run.history);
    assert Justified(ClaimOp, run.base, run.w) && Justified(DispatchOp, run.base, run.w);
    assert forall r :: r in run.base.got ==> EarlyReceipt(r);
  }

  /** Whenever the adapter is about to be called, the call is authorized, however the workflow
      was started. */
  lemma DispatchIsAuthorized(limit: nat, steps: seq<Step>, s: State, step: Step)
    requires Reaches(limit, steps, s) && Enabled(s, step) && step.AdapterDispatch?
    ensures Authorized(s, step.rid, s.runs[step.rid])
  {
    var rid, run := step.rid, s.runs[step.rid];
    ReachableRun(limit, steps, s, rid);
    ReachableRecords(limit, steps, s);
    ReachableFence(limit, steps, s, DecisionOf(run));
    OwnerIsAuthorized(s, rid, run);
  }

  lemma OwnerIsRevalidated(s: State, rid: string, run: Run)
    requires RunShape(run) && RunTruth(s, rid, run) && ClaimOp in run.scheduled && DispatchOp in run.scheduled
    ensures Revalidated(s, rid, run) && Receipt(VerifyOp, IngressValid) in run.w.got
  {
    OwnerWasTold(s, rid, run);
    var reval := run.w.reval.value;
    var evaluated := Receipt(EvaluateOp, Evaluated(reval.decision, reval.epoch));
    assert AnswerTrue(s, run.req, run.wid, evaluated.answer) && OwnTrue(s, rid, run, evaluated);
    AllowNeedsPolicy(s.policies[reval.epoch], run.req);
    assert OwnTrue(s, rid, run, Receipt(RecordOp(reval.decision), Done));
    assert OwnTrue(s, rid, run, Receipt(AuditOp(0, PassEntry), Done));
  }

  lemma OwnerIsAuthorized(s: State, rid: string, run: Run)
    requires RecordsInv(s) && RunShape(run) && RunTruth(s, rid, run)
    requires ClaimOp in run.scheduled && DispatchOp in run.scheduled
    ensures Authorized(s, rid, run)
  {
    OwnerIsRevalidated(s, rid, run);
    assert AnswerTrue(s, run.req, run.wid, IngressValid);
    VerifiedIsIngress(s, run.req, run.wid);
  }
}
