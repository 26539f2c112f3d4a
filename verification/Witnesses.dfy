/** Executions in which a promise stops short, built from every state in which a decision is free:
    they show that the conditions of the exact results do fail. */
module Witnesses {
  import opened Contracts
  import opened ClaimTable
  import opened AdapterContract
  import opened SagaWorkflow
  import opened SagaOrder
  import opened SagaRows
  import opened GateSystem
  import opened GateInvariant
  import opened InvariantProof
  import opened OutcomeTheorems
  import opened ConservationTheorems
  import opened ExitTheorems
  import opened ProgressTheorems

  /** An attempt leaves no answer, and the workflow stops waiting for it. */
  lemma Silence(limit: nat, steps: seq<Step>, s: State, step: Step, rid: string) returns (more: seq<Step>, s': State)
    requires Reaches(limit, steps, s) && Enabled(s, step) && Subject(step) == Some(rid)
    requires !step.Deliver? && !step.CloseOp? && Awaits(s.runs[rid].w) != NoOp && NewAnswer(s, step) == None
    ensures Leads(limit, steps, s, more, s', rid)
    ensures s'.limit == s.limit && s'.records == RecordsAfter(s, step) && s'.claims == ClaimsAfter(s, step)
    ensures s'.ledger == LedgerAfter(s, step) && s'.audits == AuditsAfter(s, step)
    ensures rid in s'.runs
    ensures var run, run' := s.runs[rid], s'.runs[rid];
            && run'.wid == run.wid && run'.token == run.token && run'.req == run.req && run'.closed == run.closed
            && run'.w == Advance(run.w, NoAnswer) && Awaits(run'.w) in run'.scheduled
            && run'.attempts == AttemptsAfter(s, step)
  {
    var between := Take(limit, steps, s, step);
    var mid := After(s, step);
    assert mid.runs[rid] == Attempted(s, step);
    var delivery := Deliver(rid, NoAnswer);
    more := Take(limit, between, mid, delivery);
    s' := After(mid, delivery);
    ApartTransitive(s, mid, s', rid);
  }

  // ---- A released claim that comes back ---------------------------------------------

  /** The claim commits, its answer is lost, and the run gives up. */
  lemma ClaimGoesUnheard(limit: nat, steps: seq<Step>, s: State, j: Job) returns (more: seq<Step>, s': State)
    requires Reaches(limit, steps, s) && Stands(s, j, Claiming, 0, Open)
    requires Claimable(s, j) && Takeable(s.claims, j.Decision())
    ensures Leads(limit, steps, s, more, s', j.rid) && s'.records == s.records && s'.audits == s.audits
    ensures Stands(s', j, ExitReleasing(ClaimRejected), 0, Open) && Holds(s', j, Claimed)
  {
    more, s' := Silence(limit, steps, s, ClaimStatement(j.rid, false), j.rid);
  }

  lemma ReleaseSucceeds(limit: nat, steps: seq<Step>, s: State, j: Job) returns (more: seq<Step>, s': State)
    requires Reaches(limit, steps, s) && Stands(s, j, ExitReleasing(ClaimRejected), 0, Open) && Holds(s, j, Claimed)
    ensures Leads(limit, steps, s, more, s', j.rid) && s'.records == s.records
    ensures Stands(s', j, Ended(ClaimRejected), 0, Open) && Holds(s', j, Released)
  {
    SourcesMatchDiagram(Claimed, Released);
    more, s' := Round(limit, steps, s, AdvanceAttempt(j.rid, ReleaseOp, true), j.rid, Done);
  }

  lemma ClaimComesBack(limit: nat, steps: seq<Step>, s: State, j: Job) returns (more: seq<Step>, s': State)
    requires Reaches(limit, steps, s) && Stands(s, j, Ended(ClaimRejected), 0, Open) && Holds(s, j, Released)
    ensures Leads(limit, steps, s, more, s', j.rid)
    ensures j.rid in s'.runs && s'.runs[j.rid].w.pc == Ended(ClaimRejected)
    ensures HeldInClaimedBy(s'.claims, j.Decision(), j.Owner())
  {
    LateClaimReclaims(limit, steps, s, j.rid);
    var step := ClaimStatement(j.rid, false);
    more := Take(limit, steps, s, step);
    s' := After(s, step);
  }

  lemma GivesUpAfterClaim(limit: nat, steps: seq<Step>, s: State, j: Job) returns (more: seq<Step>, s': State)
    requires Reaches(limit, steps, s) && Fresh(s, j) && Verified(s, j) && Takeable(s.claims, j.Decision())
    ensures Leads(limit, steps, s, more, s', j.rid) && s'.records == s.records && s'.audits == s.audits
    ensures Stands(s', j, ExitReleasing(ClaimRejected), 0, Open) && Holds(s', j, Claimed)
  {
    VerifiedIsClaimable(s, j);
    var first, a := ReachesClaim(limit, steps, s, j);
    more, s' := ClaimGoesUnheard(limit, first, a, j);
    ApartTransitive(s, a, s', j.rid);
  }

  /** From every state in which a recorded ALLOW is free, there is an execution in which a run
      claims it, releases it with success, ends as rejected, and holds it again afterwards. */
  lemma ReleasedClaimCanComeBack(limit: nat, steps: seq<Step>, s: State, j: Job) returns (more: seq<Step>, s': State)
    requires Reaches(limit, steps, s) && Fresh(s, j) && Verified(s, j) && Takeable(s.claims, j.Decision())
    ensures Leads(limit, steps, s, more, s', j.rid)
    ensures j.rid in s'.runs && s'.runs[j.rid].w.pc == Ended(ClaimRejected)
    ensures HeldInClaimedBy(s'.claims, j.Decision(), j.Owner())
  {
    var first, a := GivesUpAfterClaim(limit, steps, s, j);
    var second, b := ReleaseSucceeds(limit, first, a, j);
    ApartTransitive(s, a, b, j.rid);
    more, s' := ClaimComesBack(limit, second, b, j);
    ApartTransitive(s, b, s', j.rid);
  }

  // ---- A claim that its holder never releases ---------------------------------------

  /** The run waits for its claim; `heard` says that an attempt has reported another owner. */
  predicate Asking(s: State, j: Job, heard: bool) {
    && j.rid in s.runs
    && var run := s.runs[j.rid];
    && run.wid == j.wid && run.token == j.token && run.req == j.req
    && run.w.pc == Claiming && !run.w.dispatchOver && ClaimOp in run.scheduled
    && (heard ==> Receipt(ClaimOp, ClaimHeld) in run.answers)
  }

  /** A claim attempt changes nothing, so the claim will be read back. */
  lemma AsksInVain(limit: nat, steps: seq<Step>, s: State, j: Job, k: Job) returns (more: seq<Step>, s': State)
    requires Reaches(limit, steps, s) && Asking(s, j, false) && s.runs[j.rid].closed == {} && Claimable(s, j)
    requires Holds(s, k, Claimed) && k.Decision() == j.Decision() && k.rid != j.rid
    ensures Leads(limit, steps, s, more, s', j.rid) && s'.claims == s.claims && s'.records == s.records
    ensures Asking(s', j, false) && s'.runs[j.rid].closed == {} && s'.runs[j.rid].claimReads > 0
  {
    var step := ClaimStatement(j.rid, false);
    more := Take(limit, steps, s, step);
    s' := After(s, step);
  }

  lemma ReadsHeld(limit: nat, steps: seq<Step>, s: State, j: Job, k: Job) returns (more: seq<Step>, s': State)
    requires Reaches(limit, steps, s) && Asking(s, j, false) && s.runs[j.rid].closed == {}
    requires s.runs[j.rid].claimReads > 0
    requires Holds(s, k, Claimed) && k.Decision() == j.Decision() && k.rid != j.rid
    ensures Leads(limit, steps, s, more, s', j.rid) && s'.claims == s.claims && s'.records == s.records
    ensures Asking(s', j, true) && s'.runs[j.rid].closed == {}
  {
    var step := ClaimReadBack(j.rid, true);
    more := Take(limit, steps, s, step);
    s' := After(s, step);
  }

  /** An earlier attempt, long timed out, takes the claim that the rival has released. */
  lemma LateStatementTakes(limit: nat, steps: seq<Step>, s: State, j: Job) returns (more: seq<Step>, s': State)
    requires Reaches(limit, steps, s) && Asking(s, j, true) && s.runs[j.rid].closed == {}
    requires Claimable(s, j) && Takeable(s.claims, j.Decision())
    ensures steps <= more && Reaches(limit, more, s')
    ensures Asking(s', j, true) && HeldInClaimedBy(s'.claims, j.Decision(), j.Owner())
  {
    var step := ClaimStatement(j.rid, false);
    more := Take(limit, steps, s, step);
    s' := After(s, step);
  }

  lemma AttemptsEnd(limit: nat, steps: seq<Step>, s: State, j: Job) returns (more: seq<Step>, s': State)
    requires Reaches(limit, steps, s) && Asking(s, j, true)
    ensures steps <= more && Reaches(limit, more, s') && s'.claims == s.claims
    ensures Asking(s', j, true) && ClaimOp in s'.runs[j.rid].closed
  {
    var step := CloseOp(j.rid, ClaimOp);
    more := Take(limit, steps, s, step);
    s' := After(s, step);
  }

  /** The run was told that someone else holds the claim, and waits at `pc`. */
  predicate SentAway(s: State, j: Job, pc: Pc) {
    && j.rid in s.runs
    && var run := s.runs[j.rid];
    && run.wid == j.wid && run.token == j.token && run.req == j.req && ClaimOp in run.closed
    && run.w.pc == pc && ToldHeld(run.w) && !run.w.dispatchOver && (Auditing(pc) ==> run.w.rows != [])
  }

  lemma HearsHeld(limit: nat, steps: seq<Step>, s: State, j: Job) returns (more: seq<Step>, s': State)
    requires Reaches(limit, steps, s) && Asking(s, j, true) && ClaimOp in s.runs[j.rid].closed
    ensures steps <= more && Reaches(limit, more, s') && s'.claims == s.claims
    ensures SentAway(s', j, RejectRecording(ClaimRejected, AlreadyClaimed))
  {
    var step := Deliver(j.rid, Answered(ClaimHeld));
    more := Take(limit, steps, s, step);
    s' := After(s, step);
  }

  lemma GoesOn(limit: nat, steps: seq<Step>, s: State, j: Job, pc: Pc, next: Pc) returns (more: seq<Step>, s': State)
    requires Reaches(limit, steps, s) && SentAway(s, j, pc)
    requires (pc == RejectRecording(ClaimRejected, AlreadyClaimed) && next == RejectAuditing(ClaimRejected))
             || (pc == RejectAuditing(ClaimRejected) && next == Ended(ClaimRejected))
    ensures steps <= more && Reaches(limit, more, s') && s'.claims == s.claims && SentAway(s', j, next)
  {
    var step := Deliver(j.rid, NoAnswer);
    more := Take(limit, steps, s, step);
    s' := After(s, step);
  }

  lemma Ends(limit: nat, steps: seq<Step>, s: State, j: Job) returns (more: seq<Step>, s': State)
    requires Reaches(limit, steps, s) && Asking(s, j, true)
    ensures steps <= more && Reaches(limit, more, s') && s'.claims == s.claims
    ensures SentAway(s', j, Ended(ClaimRejected))
  {
    more, s' := AttemptsEnd(limit, steps, s, j);
    more, s' := HearsHeld(limit, more, s', j);
    more, s' := GoesOn(limit, more, s', j, RejectRecording(ClaimRejected, AlreadyClaimed), RejectAuditing(ClaimRejected));
    more, s' := GoesOn(limit, more, s', j, RejectAuditing(ClaimRejected), Ended(ClaimRejected));
  }

  /** The rival holds the claim and is about to release it while this run hears of it. */
  lemma BothAsk(limit: nat, steps: seq<Step>, s: State, j: Job, k: Job) returns (more: seq<Step>, s': State)
    requires Reaches(limit, steps, s) && Fresh(s, j) && Fresh(s, k) && j.rid != k.rid && k.Decision() == j.Decision()
    requires Verified(s, j) && Verified(s, k) && Takeable(s.claims, j.Decision())
    ensures steps <= more && Reaches(limit, more, s') && s'.records == s.records
    ensures Stands(s', k, ExitReleasing(ClaimRejected), 0, Open) && Holds(s', k, Claimed)
    ensures Stands(s', j, Claiming, 0, Open)
  {
    var first, a := GivesUpAfterClaim(limit, steps, s, k);
    more, s' := ReachesClaim(limit, first, a, j);
  }

  lemma OneHears(limit: nat, steps: seq<Step>, s: State, j: Job, k: Job) returns (more: seq<Step>, s': State)
    requires Reaches(limit, steps, s) && Stands(s, j, Claiming, 0, Open) && !s.runs[j.rid].w.dispatchOver && Claimable(s, j)
    requires Stands(s, k, ExitReleasing(ClaimRejected), 0, Open) && Holds(s, k, Claimed)
    requires k.Decision() == j.Decision() && k.rid != j.rid
    ensures steps <= more && Reaches(limit, more, s') && s'.records == s.records
    ensures Asking(s', j, true) && s'.runs[j.rid].closed == {}
    ensures Stands(s', k, ExitReleasing(ClaimRejected), 0, Open) && Holds(s', k, Claimed)
  {
    more, s' := AsksInVain(limit, steps, s, j, k);
    more, s' := ReadsHeld(limit, more, s', j, k);
  }

  lemma NothingDispatchedYet(limit: nat, steps: seq<Step>, s: State, rid: string)
    requires Reaches(limit, steps, s) && rid in s.runs && s.runs[rid].w.pc.Claiming?
    ensures !s.runs[rid].w.dispatchOver
  {
    ReachableRun(limit, steps, s, rid);
  }

  lemma OneHearsAndTakes(limit: nat, steps: seq<Step>, s: State, j: Job, k: Job) returns (more: seq<Step>, s': State)
    requires Reaches(limit, steps, s) && Stands(s, j, Claiming, 0, Open) && Claimable(s, j)
    requires Stands(s, k, ExitReleasing(ClaimRejected), 0, Open) && Holds(s, k, Claimed)
    requires k.Decision() == j.Decision() && k.rid != j.rid
    ensures steps <= more && Reaches(limit, more, s')
    ensures Asking(s', j, true) && HeldInClaimedBy(s'.claims, j.Decision(), j.Owner())
  {
    NothingDispatchedYet(limit, steps, s, j.rid);
    var first, a := OneHears(limit, steps, s, j, k);
    var second, b := ReleaseSucceeds(limit, first, a, k);
    more, s' := LateStatementTakes(limit, second, b, j);
  }

  /** From every state in which a recorded ALLOW is free, and for every two new runs of it, there
      is an execution after which one of them was told that the claim is held, has ended, has no
      claim attempt left, and holds the claim in every later state. */
  lemma ClaimCanBeHeldForever(limit: nat, steps: seq<Step>, s: State, j: Job, k: Job) returns (more: seq<Step>, s': State)
    requires Reaches(limit, steps, s) && Fresh(s, j) && Fresh(s, k) && j.rid != k.rid && k.Decision() == j.Decision()
    requires Verified(s, j) && Verified(s, k) && Takeable(s.claims, j.Decision())
    ensures steps <= more && Reaches(limit, more, s')
    ensures j.rid in s'.runs && ExitedEarly(s'.runs[j.rid].w) && NoClaimAttemptLeft(s'.runs[j.rid])
    ensures ReleaseOp !in s'.runs[j.rid].scheduled && HeldForever(limit, more, j.Decision(), j.Owner())
  {
    VerifiedIsClaimable(s, j);
    var first, a := BothAsk(limit, steps, s, j, k);
    var second, b := OneHearsAndTakes(limit, first, a, j, k);
    more, s' := Ends(limit, second, b, j);
    ToldHeldHoldsForeverIffItTook(limit, more, s', j.rid);
  }

  // ---- Success twice ----------------------------------------------------------------

  /** A run whose history shows the claim, the dispatch and the completion of another run. */
  predicate Inherits(run: Run) {
    run.base.claim.Some? && run.base.dispatchOver
  }

  lemma FinalRowFacts(limit: nat, steps: seq<Step>, s: State, rid: string)
    requires Reaches(limit, steps, s) && rid in s.runs && s.runs[rid].w.pc == CompleteAuditing
    ensures var run := s.runs[rid];
            run.w == Replay(run.history) && run.w.claim.Some? && run.w.dispatchOver && Parse(run.w.rows) == Complete
  {
    ReachableRun(limit, steps, s, rid);
  }

  /** The reset run waits for the same last row, under its own run ID. */
  lemma ResetsAtFinalRow(limit: nat, steps: seq<Step>, s: State, j: Job, r: Job) returns (more: seq<Step>, s': State)
    requires Reaches(limit, steps, s) && Stands(s, j, CompleteAuditing, 3, Worked)
    requires r.rid !in s.runs && r.wid == j.wid && r.req == j.req && r.token == j.token
    ensures Leads(limit, steps, s, more, s', r.rid) && s'.audits == s.audits
    ensures Stands(s', r, CompleteAuditing, 3, Worked) && Inherits(s'.runs[r.rid])
    ensures Parse(s'.runs[r.rid].w.rows) == Complete
  {
    FinalRowFacts(limit, steps, s, j.rid);
    var history := s.runs[j.rid].history;
    assert history[..|history|] == history;
    var step := ResetRun(r.rid, j.rid, |history|, r.token);
    more := Take(limit, steps, s, step);
    s' := After(s, step);
  }

  /** A complete trail of three rows has the dispatch row in the middle. */
  lemma ThreeRowTrail(rows: seq<AuditEntry>)
    requires |rows| == 3 && Parse(rows) == Complete
    ensures HasDispatchVerdict(rows)
  {
    var two, one := rows[..2], rows[..1];
    assert two[..1] == one && one[..0] == [];
    assert Parse(one) == Read(Parse([]), one[0]) && Parse(two) == Read(Parse(one), two[1]);
    assert rows[1] == AuditEntry(DispatchPhase, PassRow);
  }

  lemma RowsOfSuccess(limit: nat, steps: seq<Step>, s: State, rid: string)
    requires Reaches(limit, steps, s) && rid in s.runs
    requires s.runs[rid].w.pc == Ended(Succeeded) && |s.runs[rid].w.rows| == 3
    ensures HasDispatchVerdict(s.runs[rid].w.rows)
  {
    ReachableRun(limit, steps, s, rid);
    ThreeRowTrail(s.runs[rid].w.rows);
  }

  lemma BothWaitForFinalRow(limit: nat, steps: seq<Step>, s: State, j: Job, r: Job) returns (more: seq<Step>, s': State)
    requires Reaches(limit, steps, s) && s.limit >= 1 && Fresh(s, j) && Permitted(s, j) && KeyOpen(s, j)
    requires Fresh(s, r) && r.rid != j.rid && r.wid == j.wid && r.req == j.req && r.token == j.token
    ensures steps <= more && Reaches(limit, more, s')
    ensures Stands(s', j, CompleteAuditing, 3, Worked) && Unlogged(s', j, 2)
    ensures Stands(s', r, CompleteAuditing, 3, Worked) && Unlogged(s', r, 2) && Inherits(s'.runs[r.rid])
  {
    var first, a := GetsToFinalRow(limit, steps, s, j);
    more, s' := ResetsAtFinalRow(limit, first, a, j, r);
  }

  /** From every state in which an allowed decision is free and its key open, a run of it and a
      reset of that run can both return success.  The reset run has a dispatch row and no call, and
      owns no claim. */
  lemma ResetCanSucceedAgain(limit: nat, steps: seq<Step>, s: State, j: Job, r: Job) returns (more: seq<Step>, s': State)
    requires Reaches(limit, steps, s) && s.limit >= 1 && Fresh(s, j) && Permitted(s, j) && KeyOpen(s, j)
    requires Fresh(s, r) && r.rid != j.rid && r.wid == j.wid && r.req == j.req && r.token == j.token
    ensures steps <= more && Reaches(limit, more, s')
    ensures HasSucceeded(s', j) && HasSucceeded(s', r) && Inherits(s'.runs[r.rid])
    ensures HasDispatchVerdict(s'.runs[r.rid].w.rows) && !CalledOnce(s', r.rid)
    ensures !SuccessRecorded(s', r.rid, s'.runs[r.rid])
  {
    var first, a := BothWaitForFinalRow(limit, steps, s, j, r);
    var second, b := ReachesSuccess(limit, first, a, j);
    more, s' := ResetEnds(limit, second, b, r);
  }

  lemma ResetEnds(limit: nat, steps: seq<Step>, s: State, r: Job) returns (more: seq<Step>, s': State)
    requires Reaches(limit, steps, s) && Stands(s, r, CompleteAuditing, 3, Worked) && Unlogged(s, r, 2)
    requires Inherits(s.runs[r.rid]) && r.req.proposal.id != ""
    ensures Leads(limit, steps, s, more, s', r.rid)
    ensures HasSucceeded(s', r) && Inherits(s'.runs[r.rid])
    ensures HasDispatchVerdict(s'.runs[r.rid].w.rows) && !CalledOnce(s', r.rid)
    ensures !SuccessRecorded(s', r.rid, s'.runs[r.rid])
  {
    more, s' := ReachesSuccess(limit, steps, s, r);
    KeepsBase(limit, steps, more, s, s', r.rid);
    RowsOfSuccess(limit, more, s', r.rid);
    DispatchRowMeansOneDispatch(limit, more, s', r.rid);
    SuccessIsComplete(limit, more, s', r.rid);
  }

  lemma KeepsBase(limit: nat, steps: seq<Step>, more: seq<Step>, s: State, s': State, rid: string)
    requires Reaches(limit, steps, s) && Reaches(limit, more, s') && steps <= more && rid in s.runs
    ensures rid in s'.runs && s'.runs[rid].base == s.runs[rid].base
  {
    assert steps + more[|steps|..] == more;
    LaterKeeps(limit, steps, more[|steps|..], s, s');
    assert RunGrows(s.runs[rid], s'.runs[rid]);
  }

  // ---- A free decision whose key is barred ------------------------------------------

  /** The fence write never reaches the store, and the attempt cannot tell. */
  lemma FenceIsLost(limit: nat, steps: seq<Step>, s: State, j: Job) returns (more: seq<Step>, s': State)
    requires Reaches(limit, steps, s) && s.limit >= 1 && Stands(s, j, Dispatching, 1, Open) && Untried(s, j)
    requires Holds(s, j, Claimed) && Unlogged(s, j, 1) && j.token != "" && j.Decision() != ""
    ensures Leads(limit, steps, s, more, s', j.rid) && s'.ledger == s.ledger
    ensures Stands(s', j, FenceReleasing(false), 1, Open) && Holds(s', j, Claimed) && Unlogged(s', j, 1)
  {
    OneMoreAttempt(s, s.runs[j.rid]);
    more, s' := Round(limit, steps, s, FenceWrite(j.rid, LostBeforeCommit), j.rid, FenceUnknown);
  }

  /** The release commits, but its answer is lost as well. */
  lemma ReleaseGoesUnheard(limit: nat, steps: seq<Step>, s: State, j: Job) returns (more: seq<Step>, s': State)
    requires Reaches(limit, steps, s) && Stands(s, j, FenceReleasing(false), 1, Open)
    requires Holds(s, j, Claimed) && Unlogged(s, j, 1)
    ensures Leads(limit, steps, s, more, s', j.rid) && s'.ledger == s.ledger
    ensures Stands(s', j, FenceUnknownAuditing, 2, Open) && Holds(s', j, Released) && Unlogged(s', j, 1)
  {
    SourcesMatchDiagram(Claimed, Released);
    more, s' := Silence(limit, steps, s, AdvanceAttempt(j.rid, ReleaseOp, false), j.rid);
  }

  lemma UnknownIsLogged(limit: nat, steps: seq<Step>, s: State, j: Job) returns (more: seq<Step>, s': State)
    requires Reaches(limit, steps, s) && Stands(s, j, FenceUnknownAuditing, 2, Open) && j.req.proposal.id != ""
    requires Holds(s, j, Released) && Unlogged(s, j, 1)
    ensures Leads(limit, steps, s, more, s', j.rid) && s'.ledger == s.ledger
    ensures Stands(s', j, MarkingReconciliation, 2, Open) && Holds(s', j, Released)
  {
    AdvancesOnRow(s.runs[j.rid].w, MarkingReconciliation);
    more, s' := AuditRound(limit, steps, s, j, 2);
  }

  lemma MarkIsRefused(limit: nat, steps: seq<Step>, s: State, j: Job) returns (more: seq<Step>, s': State)
    requires Reaches(limit, steps, s) && Stands(s, j, MarkingReconciliation, 2, Open) && Holds(s, j, Released)
    ensures Leads(limit, steps, s, more, s', j.rid) && s'.ledger == s.ledger
    ensures Stands(s', j, Reconciling(0), 2, Open) && Holds(s', j, Released)
  {
    SourcesMatchDiagram(Released, ReconciliationRequired);
    more, s' := Round(limit, steps, s, AdvanceAttempt(j.rid, MarkOp(ReconciliationRequired), true), j.rid, Refused);
  }

  const BarredOutcome := DispatchOutcome(Failure, false, "")

  lemma KeyIsBarred(limit: nat, steps: seq<Step>, s: State, j: Job) returns (more: seq<Step>, s': State)
    requires Reaches(limit, steps, s) && Stands(s, j, Reconciling(0), 2, Open) && Holds(s, j, Released)
    requires KeyOpen(s, j)
    ensures Leads(limit, steps, s, more, s', j.rid)
    ensures Holds(s', j, Released) && !KeyOpen(s', j)
  {
    var step := AdapterReconcile(j.rid, 0, Some(Barred), BarredOutcome);
    more := Take(limit, steps, s, step);
    s' := After(s, step);
  }

  lemma UnknownAfterRelease(limit: nat, steps: seq<Step>, s: State, j: Job) returns (more: seq<Step>, s': State)
    requires Reaches(limit, steps, s) && s.limit >= 1 && Stands(s, j, Dispatching, 1, Open) && Untried(s, j)
    requires Holds(s, j, Claimed) && Unlogged(s, j, 1) && j.token != "" && j.Decision() != "" && j.req.proposal.id != ""
    ensures steps <= more && Reaches(limit, more, s') && s'.ledger == s.ledger
    ensures Stands(s', j, MarkingReconciliation, 2, Open) && Holds(s', j, Released)
  {
    more, s' := FenceIsLost(limit, steps, s, j);
    more, s' := ReleaseGoesUnheard(limit, more, s', j);
    more, s' := UnknownIsLogged(limit, more, s', j);
  }

  /** From every state in which an allowed decision is free, there is an execution in which a run
      treats its outcome as UNKNOWN while its claim is RELEASED. */
  lemma UnknownCanHaveReleased(limit: nat, steps: seq<Step>, s: State, j: Job) returns (more: seq<Step>, s': State)
    requires Reaches(limit, steps, s) && s.limit >= 1 && Fresh(s, j) && Permitted(s, j)
    ensures steps <= more && Reaches(limit, more, s') && s'.ledger == s.ledger
    ensures Stands(s', j, MarkingReconciliation, 2, Open) && Holds(s', j, Released)
  {
    more, s' := GetsToDispatch(limit, steps, s, j);
    more, s' := UnknownAfterRelease(limit, more, s', j);
  }

  /** From every state in which an allowed decision is free and its key open, there is an
      execution after which the decision is free and its key is barred. */
  lemma FreeDecisionCanBeBarred(limit: nat, steps: seq<Step>, s: State, j: Job) returns (more: seq<Step>, s': State)
    requires Reaches(limit, steps, s) && s.limit >= 1 && Fresh(s, j) && Permitted(s, j) && KeyOpen(s, j)
    ensures steps <= more && Reaches(limit, more, s')
    ensures Takeable(s'.claims, j.Decision()) && !KeyOpen(s', j)
  {
    more, s' := UnknownCanHaveReleased(limit, steps, s, j);
    more, s' := MarkIsRefused(limit, more, s', j);
    more, s' := KeyIsBarred(limit, more, s', j);
  }
}
