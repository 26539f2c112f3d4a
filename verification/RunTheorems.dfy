/** The tables of ends, audit trails and activities, for every run in every reachable state, and the
    records and rows it leaves, column by column. */
module RunTheorems {
  import opened Contracts
  import opened Evaluation
  import opened SagaWorkflow
  import opened SagaFacts
  import opened SagaOrder
  import opened SagaAccount
  import opened SagaDuties
  import opened ClaimTable
  import opened IngressBinding
  import opened GateSystem
  import opened GateInvariant
  import opened InvariantProof

  // ---- The tables -------------------------------------------------------------------

  lemma RunIsItsReplay(limit: nat, steps: seq<Step>, s: State, rid: string)
    requires Reaches(limit, steps, s) && rid in s.runs
    ensures s.runs[rid].w == Replay(s.runs[rid].history)
  {
    ReachableRun(limit, steps, s, rid);
  }

  /** A run that has ended returned what the table says for what it was told, and so did its audit
      trail, also if a part of its history is inherited. */
  lemma RunsReturnByTable(limit: nat, steps: seq<Step>, s: State, rid: string)
    requires Reaches(limit, steps, s) && rid in s.runs && s.runs[rid].w.pc.Ended?
    ensures s.runs[rid].w.pc.end == EndOf(s.runs[rid].w) && s.runs[rid].w.rows == TrailOf(s.runs[rid].w)
  {
    RunIsItsReplay(limit, steps, s, rid);
    ReturnsAndRecordsByTable(s.runs[rid].history);
  }

  lemma NothingIsBehindTheStart(op: Op, history: seq<Event>)
    requires op in Asked(history) && op != NoOp
    ensures !Behind(op, Start.pc, |Start.rows|)
  {
    ReplayDuties(history);
    if op.MarkOp? && Behind(op, Start.pc, |Start.rows|) {
      NoOtherMarks(history, op.to);
    }
  }

  lemma {:induction false} NoOtherMarks(history: seq<Event>, to: ClaimState)
    requires MarkOp(to) in Asked(history)
    ensures to == ReconciliationRequired || to == Failed || to == Completed
  {
    if history != [] && MarkOp(to) in Asked(history[..|history| - 1]) {
      NoOtherMarks(history[..|history| - 1], to);
    }
  }

  /** A run that inherited nothing has scheduled exactly the activities its history awaits, and when
      it has ended exactly those of the table. */
  lemma RunsScheduleByTable(limit: nat, steps: seq<Step>, s: State, rid: string)
    requires Reaches(limit, steps, s) && rid in s.runs && s.runs[rid].base == Start
    ensures forall op :: op != NoOp ==> (op in s.runs[rid].scheduled <==> op in Asked(s.runs[rid].history))
    ensures s.runs[rid].w.pc.Ended? ==>
              ByTable(s.runs[rid].w, Asked(s.runs[rid].history), Token(s.runs[rid].history), Fired(s.runs[rid].history))
  {
    ReachableOrder(limit, steps, s, rid);
    RunIsItsReplay(limit, steps, s, rid);
    forall op | op != NoOp && op in Asked(s.runs[rid].history) ensures op in s.runs[rid].scheduled {
      NothingIsBehindTheStart(op, s.runs[rid].history);
    }
    if s.runs[rid].w.pc.Ended? {
      SchedulesByTable(s.runs[rid].history);
    }
  }

  lemma ScheduledUnlessInherited(limit: nat, steps: seq<Step>, s: State, rid: string, op: Op)
    requires Reaches(limit, steps, s) && rid in s.runs && op != NoOp && op in Asked(s.runs[rid].history)
    ensures op in s.runs[rid].scheduled || Behind(op, s.runs[rid].base.pc, |s.runs[rid].base.rows|)
  {
    ReachableOrder(limit, steps, s, rid);
  }

  lemma FailedRunAsked(history: seq<Event>, partly: bool)
    requires Replay(history).pc == Ended(DispatchFailed(partly))
    ensures MarkOp(Failed) in Asked(history) && MarkOp(Completed) !in Asked(history)
    ensures CompensateOp in Asked(history) <==> partly
  {
    ReplayFacts(history);
    ReplayDuties(history);
  }

  lemma UnaskedIsUnscheduled(limit: nat, steps: seq<Step>, s: State, rid: string, op: Op)
    requires Reaches(limit, steps, s) && rid in s.runs && op != NoOp && op !in Asked(s.runs[rid].history)
    ensures op !in s.runs[rid].scheduled
  {
    ReachableOrder(limit, steps, s, rid);
  }

  lemma NotYetBehind(pc: Pc, n: nat)
    ensures Rank(pc) <= Rank(MarkingFailed) ==> !Behind(MarkOp(Failed), pc, n)
    ensures Rank(pc) <= Rank(Compensating) ==> !Behind(CompensateOp, pc, n)
  {
  }

  lemma FailureAsked(limit: nat, steps: seq<Step>, s: State, rid: string, partly: bool)
    requires Reaches(limit, steps, s) && rid in s.runs && s.runs[rid].w.pc == Ended(DispatchFailed(partly))
    ensures MarkOp(Failed) in Asked(s.runs[rid].history) && (CompensateOp in Asked(s.runs[rid].history) <==> partly)
  {
    RunIsItsReplay(limit, steps, s, rid);
    FailedRunAsked(s.runs[rid].history, partly);
  }

  /** A run that ended in failure has scheduled the FAILED mark, and compensation exactly if a part
      took effect, unless the run it was reset from had already been past that point. */
  lemma FailedRunsAreCompensated(limit: nat, steps: seq<Step>, s: State, rid: string, partly: bool)
    requires Reaches(limit, steps, s) && rid in s.runs && s.runs[rid].w.pc == Ended(DispatchFailed(partly))
    ensures Rank(s.runs[rid].base.pc) <= Rank(MarkingFailed) ==> MarkOp(Failed) in s.runs[rid].scheduled
    ensures Rank(s.runs[rid].base.pc) <= Rank(Compensating) && partly ==> CompensateOp in s.runs[rid].scheduled
    ensures !partly ==> CompensateOp !in s.runs[rid].scheduled
  {
    FailureAsked(limit, steps, s, rid, partly);
    NotYetBehind(s.runs[rid].base.pc, |s.runs[rid].base.rows|);
    ScheduledUnlessInherited(limit, steps, s, rid, MarkOp(Failed));
    if partly {
      ScheduledUnlessInherited(limit, steps, s, rid, CompensateOp);
    } else {
      UnaskedIsUnscheduled(limit, steps, s, rid, CompensateOp);
    }
  }

  // ---- Records and rows, column by column -------------------------------------------

  /** Every ingress record says, column by column, what the handler evaluated, and names a workflow
      exactly for an ALLOW; every other record was asked for by a run, and says what that run decided. */
  lemma RecordsAreExact(limit: nat, steps: seq<Step>, s: State, d: string)
    requires Reaches(limit, steps, s) && d in s.records
    ensures s.records[d].stage == Ingress ==>
              && d in s.ingress && s.ingress[d].epoch < |s.policies|
              && IngressStored(s.records, d, s.ingress[d].agentId, s.ingress[d].proposal,
                               Evaluate(s.policies[s.ingress[d].epoch], s.ingress[d].agentId, s.ingress[d].proposal))
    ensures s.records[d].stage != Ingress ==>
              exists rid, decision :: RunWrote(s, d, rid, decision) && RecordOp(decision) in Asked(s.runs[rid].history)
  {
    ReachableRecords(limit, steps, s);
    assert RecordInv(s, d, s.records[d]);
    if s.records[d].stage != Ingress {
      var rid, decision :| RunWrote(s, d, rid, decision);
      ReachableOrder(limit, steps, s, rid);
      assert RecordOp(decision) in s.runs[rid].scheduled;
    }
  }

  /** Every audit row is a row of the run it names: the sequence number says which, and the phase, the
      verdict, the workflow, the target and the command are that row's and that run's. */
  lemma AuditRowsAreExact(limit: nat, steps: seq<Step>, s: State, key: AuditKey)
    requires Reaches(limit, steps, s) && key in s.audits
    ensures key.runId in s.runs && 1 <= key.sequence <= |s.runs[key.runId].w.rows|
    ensures var run, row := s.runs[key.runId], s.audits[key];
            && key.proposalId == run.req.proposal.id && AuditEntry(key.phase, row.verdict) == run.w.rows[key.sequence - 1]
            && row.workflowId == run.wid && row.targetId == run.req.proposal.targetId && row.command == run.req.proposal.command
  {
    ReachableAudit(limit, steps, s, key);
  }

  // ---- What the store's answers mean ------------------------------------------------

  /** Ingress verification reports what the checks say. */
  lemma VerificationReportsTheCheck(s: State, rid: string)
    requires Enabled(s, VerifyAttempt(rid))
    ensures NewAnswer(s, VerifyAttempt(rid)) ==
            Some(Receipt(VerifyOp, match CheckIngress(s.records, s.runs[rid].req, s.runs[rid].wid)
                                   case None => IngressValid
                                   case Some(reason) => IngressInvalid(reason)))
  {
  }

  /** A grant means that the run holds the claim in CLAIMED right after the step that reports it, and
      "held" that it does not and that the claim is someone else's, past CLAIMED, or released. */
  lemma ClaimAnswersAreTrue(s: State, step: Step)
    requires Enabled(s, step) && (step.ClaimStatement? || step.ClaimReadBack?) && NewAnswer(s, step).Some?
    ensures var run, claims, r := s.runs[step.rid], ClaimsAfter(s, step), NewAnswer(s, step).value;
            && r.op == ClaimOp && (r.answer.ClaimGranted? || r.answer == ClaimHeld)
            && (r.answer.ClaimGranted? <==> HeldInClaimedBy(claims, DecisionOf(run), Owner(step.rid, run)))
            && (r.answer.ClaimGranted? ==> r.answer.epoch == Epoch(s))
            && (r.answer == ClaimHeld ==> DecisionOf(run) in claims && claims == s.claims)
  {
  }

  /** A transition is acknowledged exactly if the run's own row is in the new state afterwards by a
      permitted move, and refused exactly if nothing changed because none was permitted. */
  lemma TransitionAnswersAreTrue(s: State, step: Step)
    requires Enabled(s, step) && step.AdvanceAttempt? && NewAnswer(s, step).Some?
    ensures var run, claims, r := s.runs[step.rid], ClaimsAfter(s, step), NewAnswer(s, step).value;
            var d, to := DecisionOf(run), Destination(step.op).value;
            && r.op == step.op && (r.answer == Done || r.answer == Refused)
            && (r.answer == Done ==> d in claims && claims[d].owner == Owner(step.rid, run) && claims[d].state == to)
            && (r.answer == Refused ==> claims == s.claims)
            && (r.answer == Refused <==>
                  d !in s.claims || s.claims[d].owner != Owner(step.rid, run)
                  || !(DiagramArrow(s.claims[d].state, to) || (s.claims[d].state == to && Target(to))))
  {
    var d := DecisionOf(s.runs[step.rid]);
    if d in s.claims {
      SourcesMatchDiagram(s.claims[d].state, Destination(step.op).value);
    }
  }

  /** The release asks for RELEASED, and every mark for its own state. */
  lemma TransitionsAskFor(op: Op)
    ensures op == ReleaseOp ==> Destination(op) == Some(Released)
    ensures op == MarkOp(ReconciliationRequired) ==> Destination(op) == Some(ReconciliationRequired)
    ensures op == MarkOp(Completed) ==> Destination(op) == Some(Completed)
    ensures op == MarkOp(Failed) ==> Destination(op) == Some(Failed)
  {
  }

  /** How a fence attempt ends before the adapter is called: an attempt without a decision or a token
      is rejected, an answer that was lost is in doubt, and a refusal is read back. */
  lemma FenceAnswersAreTrue(s: State, step: Step)
    requires Enabled(s, step) && (step.FenceWrite? || step.FenceReadBack?) && NewAnswer(s, step).Some?
    ensures var run, a := s.runs[step.rid], NewAnswer(s, step).value.answer;
            var d, owner := DecisionOf(run), Owner(step.rid, run);
            && (a == FenceRejected || a == FenceUnknown)
            && (step.FenceWrite? ==> (a == FenceRejected <==> d == "" || run.token == ""))
            && (step.FenceWrite? && a == FenceUnknown ==> step.fate != Delivered)
            && (step.FenceReadBack? ==>
                  (a == FenceRejected <==>
                     step.readable && (d in s.claims ==> s.claims[d].owner != owner || s.claims[d].state == Released)))
  {
  }
}
