/** What can still happen.  The other results say what never goes wrong; these say that the gate
    does not refuse everything: a recorded ALLOW that nobody holds can be carried to success. */
module ProgressTheorems {
  import opened Contracts
  import opened PolicySchema
  import opened RequestHashing
  import opened Evaluation
  import opened IngressBinding
  import opened ClaimTable
  import opened AdapterContract
  import opened SagaWorkflow
  import opened GateSystem
  import opened GateInvariant
  import opened RunProof
  import opened InvariantProof
  import opened OutcomeTheorems
  import opened ConservationTheorems

  /** A run that is about to be started. */
  datatype Job = Job(rid: string, wid: string, token: string, req: ExecutionRequest) {
    function Decision(): string {
      req.ingressDecisionId
    }

    function Owner(): ClaimOwner {
      ClaimOwner(wid, rid, token)
    }
  }

  /** The run ID and the token are new, and nothing is stored under the run's names. */
  ghost predicate Fresh(s: State, j: Job) {
    && j.rid != "" && j.token != "" && j.req.proposal.id != ""
    && j.rid !in s.runs && Unlogged(s, j, 0) && Unrecorded(s, j)
  }

  ghost predicate Unlogged(s: State, j: Job, n: nat) {
    forall k :: k in s.audits && k.runId == j.rid ==> k.sequence <= n
  }

  predicate Unrecorded(s: State, j: Job) {
    "wf_" + j.wid + "_" + j.rid !in s.records
  }

  /** The decision is an ingress ALLOW for this job, the current policy still allows it, and
      nobody holds its claim. */
  predicate Permitted(s: State, j: Job) {
    && Verified(s, j)
    && Revalidate(CurrentPolicy(s), j.req).verdict == Allow
    && Takeable(s.claims, j.Decision())
  }

  predicate Verified(s: State, j: Job) {
    CheckIngress(s.records, j.req, j.wid).None?
  }

  /** The claim can be asked for: the decision is recorded, and the owner is complete. */
  predicate Claimable(s: State, j: Job) {
    j.Decision() != "" && j.Decision() in s.records && j.Owner().Valid()
  }

  lemma VerifiedIsClaimable(s: State, j: Job)
    requires Verified(s, j) && j.rid != "" && j.token != ""
    ensures Claimable(s, j)
  {
  }

  predicate KeyOpen(s: State, j: Job) {
    ExecutionKey(j.Decision()) !in s.ledger.effects
  }

  predicate Holds(s: State, j: Job, state: ClaimState) {
    j.Decision() in s.claims && s.claims[j.Decision()] == ExecutionClaim(j.Decision(), j.Owner(), state)
  }

  /** The run exists, waits at `pc`, and every activity of it may still run. */
  predicate Stands(s: State, j: Job, pc: Pc, rows: nat, standing: Standing) {
    && j.rid in s.runs
    && var run := s.runs[j.rid];
    && run.wid == j.wid && run.token == j.token && run.req == j.req && run.closed == {}
    && Awaits(run.w) in run.scheduled
    && run.w.pc == pc && |run.w.rows| == rows && run.w.standing == standing && !run.w.auditErr
  }

  predicate Untried(s: State, j: Job) {
    j.rid in s.runs && s.runs[j.rid].attempts == []
  }

  predicate PastFence(s: State, j: Job) {
    j.rid in s.runs && s.runs[j.rid].attempts == [Acquired]
  }

  // ---- Taking steps -----------------------------------------------------------------

  /** Only the run `rid` has moved, and only its audit rows were added. */
  ghost predicate Apart(s: State, s': State, rid: string) {
    && (forall r :: r in s.runs && r != rid ==> r in s'.runs && s'.runs[r] == s.runs[r])
    && (forall r :: r in s'.runs ==> r in s.runs || r == rid)
    && (forall k :: k in s'.audits ==> k in s.audits || k.runId == rid)
  }

  /** The run that moves: the subject of the step, or the run it starts. */
  function Actor(step: Step): Option<string> {
    if step.StartRun? || step.ResetRun? then Some(step.rid) else Subject(step)
  }

  lemma StepIsApart(s: State, step: Step, rid: string)
    requires Enabled(s, step) && Actor(step) == Some(rid)
    ensures Apart(s, After(s, step), rid)
  {
    RunsApart(s, step, rid);
    AuditsApart(s, step, rid);
  }

  lemma RunsApart(s: State, step: Step, rid: string)
    requires Enabled(s, step) && Actor(step) == Some(rid)
    ensures forall r :: r in s.runs && r != rid ==> r in RunsAfter(s, step) && RunsAfter(s, step)[r] == s.runs[r]
    ensures forall r :: r in RunsAfter(s, step) ==> r in s.runs || r == rid
  {
    forall r | r in s.runs && r != rid ensures r in RunsAfter(s, step) && RunsAfter(s, step)[r] == s.runs[r] {
      OtherRunsUntouched(s, step, r);
    }
    forall r | r in RunsAfter(s, step) && r !in s.runs ensures r == rid {
      NewRunIsCreated(s, step, r);
    }
  }

  lemma AuditsApart(s: State, step: Step, rid: string)
    requires Enabled(s, step) && Actor(step) == Some(rid)
    ensures forall k :: k in AuditsAfter(s, step) ==> k in s.audits || k.runId == rid
  {
  }

  lemma ApartTransitive(a: State, b: State, c: State, rid: string)
    requires Apart(a, b, rid) && Apart(b, c, rid)
    ensures Apart(a, c, rid)
  {
  }

  /** `more` goes on from `steps`, and only the run `rid` moves. */
  ghost predicate Leads(limit: nat, steps: seq<Step>, s: State, more: seq<Step>, s': State, rid: string) {
    steps <= more && Reaches(limit, more, s') && Apart(s, s', rid)
  }

  lemma Take(limit: nat, steps: seq<Step>, s: State, step: Step) returns (more: seq<Step>)
    requires Reaches(limit, steps, s) && Enabled(s, step)
    ensures more == steps + [step] && Reaches(limit, more, After(s, step)) && steps <= more
    ensures forall rid :: Actor(step) == Some(rid) ==> Apart(s, After(s, step), rid)
  {
    more := steps + [step];
    assert more[..|more| - 1] == steps && more[|more| - 1] == step;
    if Actor(step).Some? {
      StepIsApart(s, step, step.rid);
    }
  }

  /** An attempt reports its answer, and the workflow takes it in. */
  lemma Round(limit: nat, steps: seq<Step>, s: State, step: Step, rid: string, a: Answer)
    returns (more: seq<Step>, s': State)
    requires Reaches(limit, steps, s) && Enabled(s, step) && Subject(step) == Some(rid)
    requires !step.Deliver? && !step.CloseOp? && Awaits(s.runs[rid].w) != NoOp
    requires NewAnswer(s, step) == Some(Receipt(Awaits(s.runs[rid].w), a))
    ensures Leads(limit, steps, s, more, s', rid)
    ensures s'.limit == s.limit && s'.policies == s.policies
    ensures s'.records == RecordsAfter(s, step) && s'.claims == ClaimsAfter(s, step)
    ensures s'.ledger == LedgerAfter(s, step) && s'.audits == AuditsAfter(s, step)
    ensures rid in s'.runs
    ensures var run, run' := s.runs[rid], s'.runs[rid];
            && run'.wid == run.wid && run'.token == run.token && run'.req == run.req && run'.closed == run.closed
            && run'.w == Advance(run.w, Answered(a)) && Awaits(run'.w) in run'.scheduled
            && run'.attempts == AttemptsAfter(s, step)
  {
    var between := Take(limit, steps, s, step);
    var mid := After(s, step);
    assert mid.runs[rid] == Attempted(s, step);
    var delivery := Deliver(rid, Answered(a));
    more := Take(limit, between, mid, delivery);
    s' := After(mid, delivery);
    ApartTransitive(s, mid, s', rid);
  }

  /** The pending audit row is stored and acknowledged. */
  lemma AuditRound(limit: nat, steps: seq<Step>, s: State, j: Job, n: nat) returns (more: seq<Step>, s': State)
    requires Reaches(limit, steps, s) && j.rid in s.runs && s.runs[j.rid].req == j.req && j.req.proposal.id != ""
    requires s.runs[j.rid].closed == {} && Awaits(s.runs[j.rid].w) in s.runs[j.rid].scheduled
    requires n == |s.runs[j.rid].w.rows| > 0 && Awaits(s.runs[j.rid].w) == LastRow(s.runs[j.rid].w)
    requires Unlogged(s, j, n - 1)
    ensures Leads(limit, steps, s, more, s', j.rid)
    ensures s'.limit == s.limit && s'.claims == s.claims && s'.ledger == s.ledger
    ensures j.rid in s'.runs && Unlogged(s', j, n)
    ensures var run, run' := s.runs[j.rid], s'.runs[j.rid];
            && run'.wid == run.wid && run'.token == run.token && run'.req == run.req && run'.closed == run.closed
            && run'.w == Advance(run.w, Answered(Done)) && Awaits(run'.w) in run'.scheduled
            && run'.attempts == run.attempts
  {
    var run := s.runs[j.rid];
    var step := AuditAttempt(j.rid, n - 1, run.w.rows[n - 1], true);
    assert RunAuditKey(j.rid, run, n - 1, run.w.rows[n - 1]) !in s.audits;
    more, s' := Round(limit, steps, s, step, j.rid, Done);
  }

  // ---- From the start to the fence --------------------------------------------------

  lemma Begins(limit: nat, steps: seq<Step>, s: State, j: Job) returns (more: seq<Step>, s': State)
    requires Reaches(limit, steps, s) && j.rid !in s.runs
    ensures Leads(limit, steps, s, more, s', j.rid)
    ensures s'.limit == s.limit && s'.records == s.records && s'.claims == s.claims && s'.ledger == s.ledger
    ensures s'.audits == s.audits && s'.policies == s.policies
    ensures Stands(s', j, Verifying, 0, Open) && Untried(s', j)
  {
    var step := StartRun(j.rid, j.wid, j.token, j.req);
    more := Take(limit, steps, s, step);
    s' := After(s, step);
  }

  /** A new run of the job waits for its token. */
  lemma ReachesToken(limit: nat, steps: seq<Step>, s: State, j: Job) returns (more: seq<Step>, s': State)
    requires Reaches(limit, steps, s) && Fresh(s, j) && Verified(s, j)
    ensures Leads(limit, steps, s, more, s', j.rid)
    ensures s'.limit == s.limit && s'.records == s.records && s'.claims == s.claims && s'.ledger == s.ledger
    ensures s'.audits == s.audits && s'.policies == s.policies
    ensures Stands(s', j, AwaitingToken, 0, Open) && Untried(s', j)
  {
    var begun, first := Begins(limit, steps, s, j);
    more, s' := Round(limit, begun, first, VerifyAttempt(j.rid), j.rid, IngressValid);
    ApartTransitive(s, first, s', j.rid);
  }

  lemma ReachesClaim(limit: nat, steps: seq<Step>, s: State, j: Job) returns (more: seq<Step>, s': State)
    requires Reaches(limit, steps, s) && Fresh(s, j) && Verified(s, j)
    ensures Leads(limit, steps, s, more, s', j.rid)
    ensures s'.limit == s.limit && s'.records == s.records && s'.claims == s.claims && s'.ledger == s.ledger
    ensures s'.audits == s.audits && s'.policies == s.policies
    ensures Stands(s', j, Claiming, 0, Open) && Untried(s', j)
  {
    var between, mid := ReachesToken(limit, steps, s, j);
    var delivery := Deliver(j.rid, TokenIssued);
    more := Take(limit, between, mid, delivery);
    s' := After(mid, delivery);
    ApartTransitive(s, mid, s', j.rid);
  }

  lemma ReachesEvaluation(limit: nat, steps: seq<Step>, s: State, j: Job) returns (more: seq<Step>, s': State)
    requires Reaches(limit, steps, s) && Stands(s, j, Claiming, 0, Open) && Untried(s, j)
    requires Claimable(s, j) && Takeable(s.claims, j.Decision())
    ensures Leads(limit, steps, s, more, s', j.rid)
    ensures s'.limit == s.limit && s'.records == s.records && s'.ledger == s.ledger
    ensures s'.audits == s.audits && s'.policies == s.policies
    ensures Stands(s', j, Evaluating, 0, Open) && Untried(s', j) && Holds(s', j, Claimed)
  {
    more, s' := Round(limit, steps, s, ClaimStatement(j.rid, true), j.rid, ClaimGranted(Epoch(s)));
  }

  lemma ReachesRecording(limit: nat, steps: seq<Step>, s: State, j: Job) returns (more: seq<Step>, s': State)
    requires Reaches(limit, steps, s) && Stands(s, j, Evaluating, 0, Open) && Untried(s, j) && Holds(s, j, Claimed)
    requires Revalidate(CurrentPolicy(s), j.req).verdict == Allow
    ensures Leads(limit, steps, s, more, s', j.rid)
    ensures s'.limit == s.limit && s'.records == s.records && s'.ledger == s.ledger && s'.audits == s.audits
    ensures Stands(s', j, DecisionRecording, 0, Open) && Untried(s', j) && Holds(s', j, Claimed) && AllowedBy(s'.runs[j.rid].w)
  {
    var d := Revalidate(CurrentPolicy(s), j.req);
    more, s' := Round(limit, steps, s, EvaluateAttempt(j.rid), j.rid, Evaluated(d, Epoch(s)));
  }

  lemma ReachesPassRow(limit: nat, steps: seq<Step>, s: State, j: Job) returns (more: seq<Step>, s': State)
    requires Reaches(limit, steps, s) && Stands(s, j, DecisionRecording, 0, Open) && Untried(s, j) && Holds(s, j, Claimed)
    requires AllowedBy(s.runs[j.rid].w) && Unrecorded(s, j) && j.req.proposal.id != ""
    ensures Leads(limit, steps, s, more, s', j.rid)
    ensures s'.limit == s.limit && s'.ledger == s.ledger && s'.audits == s.audits
    ensures Stands(s', j, PassAuditing, 1, Open) && Untried(s', j) && Holds(s', j, Claimed)
  {
    var d := s.runs[j.rid].w.reval.value.decision;
    assert RunRecord(j.rid, s.runs[j.rid], d).WellFormed();
    more, s' := Round(limit, steps, s, RecordAttempt(j.rid, d, true), j.rid, Done);
  }

  lemma ReachesDispatch(limit: nat, steps: seq<Step>, s: State, j: Job) returns (more: seq<Step>, s': State)
    requires Reaches(limit, steps, s) && Stands(s, j, PassAuditing, 1, Open) && Untried(s, j) && Holds(s, j, Claimed)
    requires Unlogged(s, j, 0) && j.req.proposal.id != ""
    ensures Leads(limit, steps, s, more, s', j.rid) && s'.limit == s.limit && s'.ledger == s.ledger
    ensures Stands(s', j, Dispatching, 1, Open) && Untried(s', j) && Holds(s', j, Claimed) && Unlogged(s', j, 1)
  {
    AdvancesOnRow(s.runs[j.rid].w, Dispatching);
    more, s' := AuditRound(limit, steps, s, j, 1);
  }

  // ---- From the fence to success ----------------------------------------------------

  lemma OneMoreAttempt(s: State, run: Run)
    requires s.limit >= 1 && DispatchOp in run.scheduled
    ensures 0 < s.limit * run.scheduled[DispatchOp]
  {
  }

  lemma ReachesFence(limit: nat, steps: seq<Step>, s: State, j: Job) returns (more: seq<Step>, s': State)
    requires Reaches(limit, steps, s) && s.limit >= 1
    requires Stands(s, j, Dispatching, 1, Open) && Untried(s, j) && Holds(s, j, Claimed) && Unlogged(s, j, 1)
    requires j.token != "" && j.Decision() != ""
    ensures Leads(limit, steps, s, more, s', j.rid) && s'.ledger == s.ledger
    ensures Stands(s', j, Dispatching, 1, Open) && PastFence(s', j) && Holds(s', j, Executing) && Unlogged(s', j, 1)
  {
    SourcesMatchDiagram(Claimed, Executing);
    OneMoreAttempt(s, s.runs[j.rid]);
    var step := FenceWrite(j.rid, Delivered);
    more := Take(limit, steps, s, step);
    s' := After(s, step);
  }

  const WorkedOutcome := DispatchOutcome(Success, false, "")

  lemma OpenKeyMayBeApplied(l: Ledger, key: string)
    requires key !in l.effects
    ensures DispatchMay(l, key, Some(Applied), WorkedOutcome)
  {
  }

  lemma OutcomeMayBeReported(s: State, j: Job)
    requires KeyOpen(s, j) && PastFence(s, j) && s.runs[j.rid].req == j.req
    ensures var step := AdapterDispatch(j.rid, 0, Some(Applied), WorkedOutcome);
            Enabled(s, step) && NewAnswer(s, step) == Some(Receipt(DispatchOp, Reported(WorkedOutcome)))
  {
    OpenKeyMayBeApplied(s.ledger, ExecutionKey(j.Decision()));
    assert WorkedOutcome.Checked() == WorkedOutcome;
  }

  lemma AdvancesOnOutcome(w: Local)
    requires w.pc.Dispatching? && !w.auditErr
    ensures var w' := Advance(w, Answered(Reported(WorkedOutcome)));
            w'.pc.DispatchAuditing? && |w'.rows| == |w.rows| + 1 && w'.standing == Worked && !w'.auditErr
  {
  }

  lemma ReachesOutcome(limit: nat, steps: seq<Step>, s: State, j: Job) returns (more: seq<Step>, s': State)
    requires Reaches(limit, steps, s) && KeyOpen(s, j) && Unlogged(s, j, 1)
    requires Stands(s, j, Dispatching, 1, Open) && PastFence(s, j) && Holds(s, j, Executing)
    ensures Leads(limit, steps, s, more, s', j.rid)
    ensures Stands(s', j, DispatchAuditing, 2, Worked)
    ensures Holds(s', j, Executing) && Unlogged(s', j, 1)
  {
    var step := AdapterDispatch(j.rid, 0, Some(Applied), WorkedOutcome);
    OutcomeMayBeReported(s, j);
    AdvancesOnOutcome(s.runs[j.rid].w);
    more, s' := Round(limit, steps, s, step, j.rid, Reported(WorkedOutcome));
  }

  lemma ReachesMarking(limit: nat, steps: seq<Step>, s: State, j: Job) returns (more: seq<Step>, s': State)
    requires Reaches(limit, steps, s) && j.req.proposal.id != "" && Unlogged(s, j, 1)
    requires Stands(s, j, DispatchAuditing, 2, Worked)
    requires Holds(s, j, Executing)
    ensures Leads(limit, steps, s, more, s', j.rid)
    ensures Stands(s', j, MarkingCompleted, 2, Worked)
    ensures Holds(s', j, Executing) && Unlogged(s', j, 2)
  {
    AdvancesOnRow(s.runs[j.rid].w, MarkingCompleted);
    more, s' := AuditRound(limit, steps, s, j, 2);
  }

  lemma ReachesFinalRow(limit: nat, steps: seq<Step>, s: State, j: Job) returns (more: seq<Step>, s': State)
    requires Reaches(limit, steps, s) && Holds(s, j, Executing) && Unlogged(s, j, 2)
    requires Stands(s, j, MarkingCompleted, 2, Worked)
    ensures Leads(limit, steps, s, more, s', j.rid) && Unlogged(s', j, 2)
    ensures Stands(s', j, CompleteAuditing, 3, Worked)
  {
    SourcesMatchDiagram(Executing, Completed);
    more, s' := Round(limit, steps, s, AdvanceAttempt(j.rid, MarkOp(Completed), true), j.rid, Done);
  }

  lemma AdvancesOnRow(w: Local, pc: Pc)
    requires Next(w.pc, Answered(Done), w.standing, AllowedBy(w), false) == Goto(pc) && !w.auditErr && w.rows != []
    requires w.pc.PassAuditing? || w.pc.FenceUnknownAuditing? || w.pc.DispatchAuditing? || w.pc.CompleteAuditing?
    ensures var w' := Advance(w, Answered(Done));
            w'.pc == pc && w'.rows == w.rows && w'.standing == w.standing && !w'.auditErr
  {
  }

  lemma ReachesSuccess(limit: nat, steps: seq<Step>, s: State, j: Job) returns (more: seq<Step>, s': State)
    requires Reaches(limit, steps, s) && j.req.proposal.id != "" && Unlogged(s, j, 2)
    requires Stands(s, j, CompleteAuditing, 3, Worked)
    ensures Leads(limit, steps, s, more, s', j.rid)
    ensures Stands(s', j, Ended(Succeeded), 3, Worked)
  {
    AdvancesOnRow(s.runs[j.rid].w, Ended(Succeeded));
    more, s' := AuditRound(limit, steps, s, j, 3);
  }

  // ---- The whole way ----------------------------------------------------------------

  lemma GetsToEvaluation(limit: nat, steps: seq<Step>, s: State, j: Job) returns (more: seq<Step>, s': State)
    requires Reaches(limit, steps, s) && Fresh(s, j) && Verified(s, j) && Takeable(s.claims, j.Decision())
    ensures Leads(limit, steps, s, more, s', j.rid)
    ensures s'.limit == s.limit && s'.records == s.records && s'.ledger == s.ledger
    ensures s'.audits == s.audits && s'.policies == s.policies
    ensures Stands(s', j, Evaluating, 0, Open) && Untried(s', j) && Holds(s', j, Claimed)
  {
    VerifiedIsClaimable(s, j);
    var first, a := ReachesClaim(limit, steps, s, j);
    more, s' := ReachesEvaluation(limit, first, a, j);
    ApartTransitive(s, a, s', j.rid);
  }

  lemma GetsToRecording(limit: nat, steps: seq<Step>, s: State, j: Job) returns (more: seq<Step>, s': State)
    requires Reaches(limit, steps, s) && Fresh(s, j) && Permitted(s, j)
    ensures Leads(limit, steps, s, more, s', j.rid)
    ensures s'.limit == s.limit && s'.records == s.records && s'.ledger == s.ledger && s'.audits == s.audits
    ensures Stands(s', j, DecisionRecording, 0, Open) && Untried(s', j)
    ensures Holds(s', j, Claimed) && AllowedBy(s'.runs[j.rid].w)
  {
    var first, a := GetsToEvaluation(limit, steps, s, j);
    more, s' := ReachesRecording(limit, first, a, j);
    ApartTransitive(s, a, s', j.rid);
  }

  lemma GetsToPassRow(limit: nat, steps: seq<Step>, s: State, j: Job) returns (more: seq<Step>, s': State)
    requires Reaches(limit, steps, s) && Fresh(s, j) && Permitted(s, j)
    ensures Leads(limit, steps, s, more, s', j.rid)
    ensures s'.limit == s.limit && s'.ledger == s.ledger && s'.audits == s.audits
    ensures Stands(s', j, PassAuditing, 1, Open) && Untried(s', j) && Holds(s', j, Claimed)
  {
    var first, a := GetsToRecording(limit, steps, s, j);
    more, s' := ReachesPassRow(limit, first, a, j);
    ApartTransitive(s, a, s', j.rid);
  }

  lemma GetsToDispatch(limit: nat, steps: seq<Step>, s: State, j: Job) returns (more: seq<Step>, s': State)
    requires Reaches(limit, steps, s) && Fresh(s, j) && Permitted(s, j)
    ensures Leads(limit, steps, s, more, s', j.rid) && s'.limit == s.limit && s'.ledger == s.ledger
    ensures Stands(s', j, Dispatching, 1, Open) && Untried(s', j) && Holds(s', j, Claimed) && Unlogged(s', j, 1)
  {
    var first, a := GetsToPassRow(limit, steps, s, j);
    more, s' := ReachesDispatch(limit, first, a, j);
    ApartTransitive(s, a, s', j.rid);
  }

  lemma GetsToOutcome(limit: nat, steps: seq<Step>, s: State, j: Job) returns (more: seq<Step>, s': State)
    requires Reaches(limit, steps, s) && s.limit >= 1 && Fresh(s, j) && Permitted(s, j) && KeyOpen(s, j)
    ensures Leads(limit, steps, s, more, s', j.rid)
    ensures Stands(s', j, DispatchAuditing, 2, Worked) && Holds(s', j, Executing) && Unlogged(s', j, 1)
  {
    var first, a := GetsToDispatch(limit, steps, s, j);
    var second, b := ReachesFence(limit, first, a, j);
    ApartTransitive(s, a, b, j.rid);
    more, s' := ReachesOutcome(limit, second, b, j);
    ApartTransitive(s, b, s', j.rid);
  }

  /** A new run of the job waits for its last audit row. */
  lemma GetsToFinalRow(limit: nat, steps: seq<Step>, s: State, j: Job) returns (more: seq<Step>, s': State)
    requires Reaches(limit, steps, s) && s.limit >= 1 && Fresh(s, j) && Permitted(s, j) && KeyOpen(s, j)
    ensures Leads(limit, steps, s, more, s', j.rid)
    ensures Stands(s', j, CompleteAuditing, 3, Worked) && Unlogged(s', j, 2)
  {
    var first, a := GetsToOutcome(limit, steps, s, j);
    var second, b := ReachesMarking(limit, first, a, j);
    ApartTransitive(s, a, b, j.rid);
    more, s' := ReachesFinalRow(limit, second, b, j);
    ApartTransitive(s, b, s', j.rid);
  }

  /** Some continuation ends with this job's run having succeeded. */
  ghost predicate CanSucceed(limit: nat, steps: seq<Step>, j: Job) {
    exists more: seq<Step>, later: State :: Reaches(limit, steps + more, later) && HasSucceeded(later, j)
  }

  predicate HasSucceeded(s: State, j: Job) {
    && j.rid in s.runs && s.runs[j.rid].req == j.req
    && s.runs[j.rid].w.pc == Ended(Succeeded)
  }

  lemma ContinuationSucceeds(limit: nat, steps: seq<Step>, all: seq<Step>, later: State, j: Job)
    requires steps <= all && Reaches(limit, all, later) && HasSucceeded(later, j)
    ensures CanSucceed(limit, steps, j)
  {
    assert steps + all[|steps|..] == all;
  }

  lemma OpenKeyCanSucceed(limit: nat, steps: seq<Step>, s: State, j: Job)
    requires Reaches(limit, steps, s) && s.limit >= 1 && Fresh(s, j) && Permitted(s, j) && KeyOpen(s, j)
    ensures CanSucceed(limit, steps, j)
  {
    var most, near := GetsToFinalRow(limit, steps, s, j);
    var all, later := ReachesSuccess(limit, most, near, j);
    ContinuationSucceeds(limit, steps, all, later, j);
  }

  /** A key that is settled while nobody holds the decision was barred. */
  lemma SettledKeyIsBarred(limit: nat, steps: seq<Step>, s: State, d: string)
    requires Reaches(limit, steps, s) && Takeable(s.claims, d) && ExecutionKey(d) in s.ledger.effects
    ensures s.ledger.effects[ExecutionKey(d)] == Barred
  {
    ReachableLedger(limit, steps, s);
    if s.ledger.effects[ExecutionKey(d)] != Barred {
      assert KeyCalled(s, ExecutionKey(d));
      var i :| 0 <= i < |s.calls| && s.calls[i].request.idempotencyKey == ExecutionKey(d);
      CallIsAllowed(limit, steps, s, i);
      ExecutionKeyInjective(d, s.calls[i].decisionId);
      ReachableCall(limit, steps, s, i);
    }
  }

  lemma SettledKeyNeverSucceeds(limit: nat, steps: seq<Step>, s: State, more: seq<Step>, later: State, j: Job)
    requires Reaches(limit, steps, s) && Takeable(s.claims, j.Decision()) && !KeyOpen(s, j)
    requires Reaches(limit, steps + more, later)
    ensures !HasSucceeded(later, j)
  {
    SettledKeyIsBarred(limit, steps, s, j.Decision());
    LaterKeeps(limit, steps, more, s, later);
    if HasSucceeded(later, j) {
      assert steps + more + [] == steps + more;
      EndedRunsAreTrueForever(limit, steps + more, [], later, later, j.rid);
      assert false;
    }
  }

  /** An allowed decision that nobody holds can still be carried to success exactly when its key
      is open at the target.  It is not open if the claim was released after an ambiguous fence
      write and reconciliation then barred the key. */
  lemma FreeDecisionCanSucceedIffItsKeyIsOpen(limit: nat, steps: seq<Step>, s: State, j: Job)
    requires Reaches(limit, steps, s) && s.limit >= 1 && Fresh(s, j) && Permitted(s, j)
    ensures CanSucceed(limit, steps, j) <==> KeyOpen(s, j)
  {
    if KeyOpen(s, j) {
      OpenKeyCanSucceed(limit, steps, s, j);
    } else {
      forall more: seq<Step>, later: State | Reaches(limit, steps + more, later) ensures !HasSucceeded(later, j) {
        SettledKeyNeverSucceeds(limit, steps, s, more, later, j);
      }
    }
  }

  // ---- From an empty system ---------------------------------------------------------

  /** The request the ingress handler makes for a proposal. */
  function RequestFor(agentId: string, p: AgentProposal, id: string): ExecutionRequest {
    ExecutionRequest(agentId, p, id, RequestHash(p))
  }

  /** The system right after the first proposal was evaluated under the first policy. */
  ghost predicate Recorded(s: State, policy: Snapshot, agentId: string, p: AgentProposal, id: string) {
    && s.policies == [None, Some(policy)] && s.claims == map[] && s.ledger == EmptyLedger
    && s.audits == map[] && s.runs == map[]
    && s.records == map[id := IngressRecord(id, agentId, p, Evaluate(Some(policy), agentId, p))]
  }

  lemma FirstRecord(limit: nat, policy: Snapshot, agentId: string, p: AgentProposal, id: string)
    returns (steps: seq<Step>, s: State)
    requires p.id != "" && id != ""
    ensures steps == [ChangePolicy(Some(policy)), Intercept(agentId, p, id, 1)] && Reaches(limit, steps, s)
    ensures s.limit == limit && Recorded(s, policy, agentId, p, id)
  {
    var enact, intercept := ChangePolicy(Some(policy)), Intercept(agentId, p, id, 1);
    steps := Take(limit, [], Initial(limit), enact);
    s := After(Initial(limit), enact);
    assert s.policies == [None, Some(policy)];
    steps := Take(limit, steps, s, intercept);
    s := After(s, intercept);
  }

  lemma RecordedIsPermitted(s: State, policy: Snapshot, agentId: string, p: AgentProposal, id: string, j: Job)
    requires Recorded(s, policy, agentId, p, id) && Evaluate(Some(policy), agentId, p).verdict == Allow
    requires j.req == RequestFor(agentId, p, id) && j.wid == "saga-" + p.id && id != ""
    ensures Permitted(s, j) && KeyOpen(s, j)
  {
    assert j.wid[0] == 's';
  }

  /** Every proposal that a policy allows can be recorded, claimed and carried to success. */
  lemma AllowedProposalCanSucceed(limit: nat, policy: Snapshot, agentId: string, p: AgentProposal, id: string, j: Job)
    requires limit >= 1 && Evaluate(Some(policy), agentId, p).verdict == Allow && p.id != "" && id != ""
    requires j.rid != "" && j.token != "" && j.wid == "saga-" + p.id && j.req == RequestFor(agentId, p, id)
    requires id != "wf_" + j.wid + "_" + j.rid
    ensures CanSucceed(limit, [ChangePolicy(Some(policy)), Intercept(agentId, p, id, 1)], j)
  {
    var steps, s := FirstRecord(limit, policy, agentId, p, id);
    RecordedIsPermitted(s, policy, agentId, p, id, j);
    OpenKeyCanSucceed(limit, steps, s, j);
  }
}
