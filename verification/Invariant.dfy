/** What every reachable state of the system satisfies, and what no step ever takes back. */
module GateInvariant {
  import opened Contracts
  import opened Evaluation
  import opened IngressBinding
  import opened ClaimTable
  import opened AdapterContract
  import opened SagaWorkflow
  import opened SagaFacts
  import opened SagaOrder
  import opened SagaDuties
  import opened GateSystem

  // ---- Growth: what no step takes back ----------------------------------------------

  ghost predicate RunGrows(a: Run, b: Run) {
    && b.wid == a.wid && b.token == a.token && b.req == a.req && b.base == a.base
    && a.history <= b.history
    && a.scheduled <= b.scheduled && a.closed <= b.closed && a.answers <= b.answers
    && Keeps(a.w, b.w)
    && (a.w.pc.Ended? ==> b.w == a.w && b.scheduled == a.scheduled)
    && (a.took && ReleaseOp !in b.scheduled ==> b.took)
    && |a.attempts| <= |b.attempts|
    && (forall i :: 0 <= i < |a.attempts| && (a.attempts[i].Called? || a.attempts[i].Over?) ==>
          b.attempts[i] == a.attempts[i])
    && a.reverts <= b.reverts
  }

  /** Records, audit rows, settled keys, fences, adapter calls and past policies are written
      once; fenced claims keep their owner; runs keep their identity and what they were told. */
  ghost predicate Grows(a: State, b: State) {
    && b.limit == a.limit
    && (forall d :: d in a.records ==> d in b.records && b.records[d] == a.records[d])
    && (forall k :: k in a.audits ==> k in b.audits && b.audits[k] == a.audits[k])
    && (forall d :: d in a.ingress ==> d in b.ingress && b.ingress[d] == a.ingress[d])
    && (forall d :: d in a.fences ==> d in b.fences && b.fences[d] == a.fences[d])
    && a.policies <= b.policies
    && a.calls <= b.calls
    && RowsKeep(a.claims, b.claims)
    && LedgerGrows(a.ledger, b.ledger)
    && (forall rid :: rid in a.runs ==> rid in b.runs && RunGrows(a.runs[rid], b.runs[rid]))
  }

  // ---- One run by itself ------------------------------------------------------------

  /** Why a run may have scheduled an activity. */
  predicate Justified(op: Op, base: Local, w: Local) {
    match op
    case ClaimOp => base.claim.None? && Receipt(VerifyOp, IngressValid) in w.got
    case EvaluateOp => w.claim.Some?
    case AuditOp(i, entry) => i < |w.rows| && w.rows[i] == entry
    case DispatchOp =>
      !base.dispatchOver && w.claim.Some? && Allowed(w) && Receipt(AuditOp(0, PassEntry), Done) in w.got
    case MarkOp(to) =>
      || to == ReconciliationRequired
      || (to == Completed && w.standing == Worked)
      || (to == Failed && w.standing.Broke?)
    case CompensateOp => w.standing == Broke(true)
    case _ => true
  }

  ghost predicate RunShape(run: Run) {
    && run.w == Replay(run.history)
    && Facts(run.base) && Keeps(run.base, run.w)
    && Awaits(run.w) in run.scheduled
    && (forall op :: op in run.scheduled ==> Justified(op, run.base, run.w))
    && (forall r :: r in run.w.got ==> r in run.base.got || r in run.answers)
    && (run.attempts != [] ==> DispatchOp in run.scheduled)
    && (run.claimReads > 0 ==> ClaimOp in run.scheduled)
    && (run.reverts > 0 ==> CompensateOp in run.scheduled)
  }

  /** Every activity was scheduled once, when it was awaited; a run that was told that the claim
      is held neither releases nor dispatches, and every other run that asked for the claim and
      ended before dispatch has scheduled the release. */
  ghost predicate RunOrder(run: Run) {
    && (forall op :: op in run.scheduled && op != NoOp ==> run.scheduled[op] == 1 && Reached(op, run.w))
    && (ToldHeld(run.w) ==> ReleaseOp !in run.scheduled && DispatchOp !in run.scheduled)
    && (ClaimOp in run.scheduled && (run.w.pc.RejectRecording? || run.w.pc.RejectAuditing?) ==> ToldHeld(run.w))
    && (ClaimOp in run.scheduled && run.w.pc.Ended? && !run.w.dispatchOver ==>
          ToldHeld(run.w) || ReleaseOp in run.scheduled)
  }

  /** A run has scheduled what its history awaits, unless that was behind it when it was created. */
  ghost predicate RunAsked(run: Run) {
    && (forall op :: op in Asked(run.history) && op != NoOp ==>
          op in run.scheduled || Behind(op, run.base.pc, |run.base.rows|))
    && (forall op :: op in run.scheduled && op != NoOp ==> op in Asked(run.history))
  }

  // ---- A run in its surroundings ----------------------------------------------------

  /** An answer is true of the request and the workflow ID, whichever run received it. */
  ghost predicate AnswerTrue(s: State, req: ExecutionRequest, wid: string, a: Answer) {
    match a
    case IngressValid => CheckIngress(s.records, req, wid).None?
    case ClaimGranted(epoch) => epoch < |s.policies|
    case Evaluated(d, epoch) => epoch < |s.policies| && d == Revalidate(s.policies[epoch], req)
    case Reported(o) => Truthful(s.ledger, ExecutionKey(req.ingressDecisionId), o)
    case _ => true
  }

  /** An acknowledged write of this run is stored, an evaluation followed the claim, and a
      dispatch answer came from an attempt. */
  ghost predicate OwnTrue(s: State, rid: string, run: Run, r: Receipt) {
    match r.op
    case RecordOp(d) => r.answer == Done ==> RunStored(s.records, rid, run, d)
    case AuditOp(i, entry) => r.answer == Done ==> RowStored(s, rid, run, i, entry)
    case MarkOp(to) =>
      r.answer == Done && (to == Completed || to == Failed || to == ReconciliationRequired) ==>
        && DecisionOf(run) in s.claims && s.claims[DecisionOf(run)].owner == Owner(rid, run)
        && Resolving(s.claims[DecisionOf(run)].state)
        && (Final(to) ==> s.claims[DecisionOf(run)].state == to)
    case EvaluateOp => r.answer.Evaluated? ==> run.w.claim.Some? && run.w.claim.value <= r.answer.epoch
    case DispatchOp => exists i :: 0 <= i < |run.attempts| && AttemptSays(run.attempts[i], r.answer)
    case _ => true
  }

  predicate AttemptSays(attempt: Attempt, a: Answer) {
    match attempt
    case Called(o) => a == Reported(o)
    case Over(b) => a == b && (b == FenceRejected || b == FenceUnknown)
    case _ => false
  }

  ghost predicate RunTruth(s: State, rid: string, run: Run) {
    && (forall r :: r in run.w.got ==> AnswerTrue(s, run.req, run.wid, r.answer))
    && (forall r :: r in run.answers ==> AnswerTrue(s, run.req, run.wid, r.answer))
    && (forall r :: r in run.answers ==> OwnTrue(s, rid, run, r))
  }

  /** An attempt that got past the fence is the one the fence was given to. */
  ghost predicate RunFence(s: State, rid: string, run: Run) {
    && |run.attempts| <= s.limit && run.reverts <= run.scheduled[CompensateOp]
    && (forall i :: 0 <= i < |run.attempts| && (run.attempts[i].Acquired? || run.attempts[i].Called?) ==>
          DecisionOf(run) in s.fences && s.fences[DecisionOf(run)] == FenceEntry(rid, i))
  }

  // ---- The tables -------------------------------------------------------------------

  /** The owner was told a confirmed SUCCESS or FAILURE, and the target says the same. */
  ghost predicate Worth(s: State, d: string, w: Local, success: bool) {
    && w.confirmed.Some? && (if success then w.standing == Worked else w.standing.Broke?)
    && ExecutionKey(d) in s.ledger.effects && (s.ledger.effects[ExecutionKey(d)] == Applied <==> success)
  }

  ghost predicate RowInv(s: State, d: string, row: ExecutionClaim) {
    && d in s.records && d != "" && row.owner.Valid()
    && row.owner.runId in s.runs
    && row.owner == Owner(row.owner.runId, s.runs[row.owner.runId])
    && DecisionOf(s.runs[row.owner.runId]) == d
    && ClaimOp in s.runs[row.owner.runId].scheduled
    && (row.state == Claimed || row.state == Released || Fenced(row.state))
    && (Fenced(row.state) ==> d in s.fences && s.fences[d].run == row.owner.runId)
    && (row.state == Completed ==> Worth(s, d, s.runs[row.owner.runId].w, true))
    && (row.state == Failed ==> Worth(s, d, s.runs[row.owner.runId].w, false))
  }

  ghost predicate ClaimsInv(s: State) {
    forall d :: d in s.claims ==> RowInv(s, d, s.claims[d])
  }

  predicate FencedBy(s: State, d: string, rid: string) {
    d in s.fences && s.fences[d].run == rid
  }

  /** A run holds its claim in CLAIMED exactly when it took it and did not pass the fence. */
  ghost predicate TakenInv(s: State) {
    forall rid :: rid in s.runs ==> RunTaken(s, rid, s.runs[rid])
  }

  ghost predicate RunTaken(s: State, rid: string, run: Run) {
    HeldInClaimedBy(s.claims, DecisionOf(run), Owner(rid, run)) <==> run.took && !FencedBy(s, DecisionOf(run), rid)
  }

  /** A fence is held by the claim's owner, in one of the owner's attempts. */
  ghost predicate FencesInv(s: State) {
    forall d :: d in s.fences ==> FenceInv(s, d, s.fences[d])
  }

  ghost predicate FenceInv(s: State, d: string, fence: FenceEntry) {
    && d in s.claims && Fenced(s.claims[d].state) && s.claims[d].owner.runId == fence.run
    && fence.run in s.runs && fence.attempt < |s.runs[fence.run].attempts|
  }

  ghost predicate CallInv(s: State, c: AdapterCall) {
    && c.run in s.runs && c.attempt < |s.runs[c.run].attempts| && s.runs[c.run].attempts[c.attempt].Called?
    && c.decisionId == DecisionOf(s.runs[c.run]) && c.agentId == s.runs[c.run].req.agentId
    && c.request == DispatchRequest(KeyOf(s.runs[c.run]), s.runs[c.run].req.proposal)
  }

  ghost predicate CallsInv(s: State) {
    && (forall i :: 0 <= i < |s.calls| ==> CallInv(s, s.calls[i]))
    && (forall i, j :: 0 <= i < j < |s.calls| ==>
          s.calls[i].run != s.calls[j].run || s.calls[i].attempt != s.calls[j].attempt)
    && (forall rid, k :: rid in s.runs && 0 <= k < |s.runs[rid].attempts| && s.runs[rid].attempts[k].Called? ==>
          CalledBy(s, rid, k))
  }

  ghost predicate CalledBy(s: State, rid: string, k: nat) {
    exists i :: 0 <= i < |s.calls| && s.calls[i].run == rid && s.calls[i].attempt == k
  }

  ghost predicate KeyCalled(s: State, key: string) {
    exists i :: 0 <= i < |s.calls| && s.calls[i].request.idempotencyKey == key
  }

  /** The target changed only for keys the adapter was called with. */
  ghost predicate LedgerInv(s: State) {
    && s.ledger.Sound()
    && forall key :: key in s.ledger.effects && s.ledger.effects[key] != Barred ==> KeyCalled(s, key)
  }

  /** Every ingress record is the evaluation the handler made. */
  ghost predicate RecordsInv(s: State) {
    && s.policies != []
    && (forall d :: d in s.ingress ==> d in s.records)
    && forall d :: d in s.records ==> RecordInv(s, d, s.records[d])
  }

  ghost predicate RecordInv(s: State, d: string, rec: DecisionRecord) {
    && rec.decisionId == d && rec.WellFormed()
    && (rec.stage == Ingress ==>
          && d in s.ingress && s.ingress[d].epoch < |s.policies|
          && IngressStored(s.records, d, s.ingress[d].agentId, s.ingress[d].proposal,
                           Evaluate(s.policies[s.ingress[d].epoch], s.ingress[d].agentId, s.ingress[d].proposal)))
    && (rec.stage == WorkflowRevalidation ==> WrittenByRun(s, d))
  }

  /** The record is one that a run asked to write. */
  ghost predicate WrittenByRun(s: State, d: string) {
    exists rid, decision :: RunWrote(s, d, rid, decision)
  }

  ghost predicate RunWrote(s: State, d: string, rid: string, decision: Decision) {
    && rid in s.runs && d == "wf_" + s.runs[rid].wid + "_" + rid
    && RecordOp(decision) in s.runs[rid].scheduled && RunStored(s.records, rid, s.runs[rid], decision)
  }

  /** Every audit row is, column by column, a row of the run it names. */
  ghost predicate AuditsInv(s: State) {
    forall key :: key in s.audits ==> AuditInv(s, key, s.audits[key])
  }

  ghost predicate AuditInv(s: State, key: AuditKey, row: AuditRow) {
    && key.runId in s.runs && 1 <= key.sequence <= |s.runs[key.runId].w.rows|
    && RowSays(key, row, key.runId, s.runs[key.runId], key.sequence - 1, s.runs[key.runId].w.rows[key.sequence - 1])
  }

  ghost predicate CompensationsInv(s: State) {
    && (forall i :: 0 <= i < |s.compensations| ==>
          s.compensations[i] in s.runs && s.runs[s.compensations[i]].reverts > 0)
    && (forall i, j :: 0 <= i < j < |s.compensations| ==> s.compensations[i] != s.compensations[j])
  }

  ghost predicate RunsInv(s: State) {
    && (forall rid :: rid in s.runs ==> RunShape(s.runs[rid]))
    && (forall rid :: rid in s.runs ==> RunOrder(s.runs[rid]))
    && (forall rid :: rid in s.runs ==> RunAsked(s.runs[rid]))
    && (forall rid :: rid in s.runs ==> RunTruth(s, rid, s.runs[rid]))
    && (forall rid :: rid in s.runs ==> RunFence(s, rid, s.runs[rid]))
  }

  ghost predicate Inv(s: State) {
    RunsInv(s) && ClaimsInv(s) && TakenInv(s) && FencesInv(s) && CallsInv(s) && LedgerInv(s) && RecordsInv(s) && AuditsInv(s) && CompensationsInv(s)
  }
}
