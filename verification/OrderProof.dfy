/** One run through one step: every activity is scheduled once, and an exit is accounted for. */
module OrderProof {
  import opened Contracts
  import opened SagaWorkflow
  import opened SagaFacts
  import opened SagaOrder
  import opened SagaDuties
  import opened GateSystem
  import opened GateInvariant
  import opened RunProof

  lemma CreatedOrder(wid: string, token: string, req: ExecutionRequest, history: seq<Event>)
    ensures RunOrder(Created(wid, token, req, history))
  {
    ReplayClaimAnswer(history);
  }

  /** The event schedules something new, or nothing. */
  lemma SchedulesOnce(run: Run, e: Event)
    requires forall op :: op in run.scheduled && op != NoOp ==> run.scheduled[op] == 1 && Reached(op, run.w)
    ensures forall op :: op in Delivering(run, e).scheduled && op != NoOp ==>
              Delivering(run, e).scheduled[op] == 1 && Reached(op, Delivering(run, e).w)
  {
    var run' := Delivering(run, e);
    forall op | op in run'.scheduled && op != NoOp ensures run'.scheduled[op] == 1 && Reached(op, run'.w) {
      if op in run.scheduled {
        ReachedFallsBehind(op, run.w, e);
      }
    }
  }

  /** Before the answer to the claim the run has neither released nor dispatched. */
  lemma NothingBeforeTheAnswer(run: Run)
    requires RunOrder(run) && run.w.pc.Claiming?
    ensures ReleaseOp !in run.scheduled && DispatchOp !in run.scheduled
  {
  }

  /** The moves of a run that was told that the claim is held. */
  lemma TurnedAwayMoves(w: Local, e: Event)
    requires ClaimAnswer(w) && !w.pc.Ended?
    ensures ToldHeld(Advance(w, e)) ==> w.pc.Claiming? || ToldHeld(w)
    ensures ToldHeld(Advance(w, e)) ==> Awaits(Advance(w, e)) != ReleaseOp && Awaits(Advance(w, e)) != DispatchOp
    ensures ToldHeld(w) ==> ToldHeld(Advance(w, e))
  {
    ClaimAnswerKept(w, e);
    assert Awaits(w) == ClaimOp ==> w.pc.Claiming?;
  }

  lemma ToldStaysAway(run: Run, e: Event)
    requires RunOrder(run) && ClaimAnswer(run.w) && !run.w.pc.Ended?
    ensures ToldHeld(Delivering(run, e).w) ==>
              ReleaseOp !in Delivering(run, e).scheduled && DispatchOp !in Delivering(run, e).scheduled
  {
    TurnedAwayMoves(run.w, e);
    if run.w.pc.Claiming? {
      NothingBeforeTheAnswer(run);
    }
  }

  /** How a run gets to a rejection or to its end. */
  predicate ExitRoute(pc: Pc, e: Event, m: Move) {
    && (m.pc.RejectRecording? && Rank(pc) >= 2 ==> pc.Claiming? && e == Answered(ClaimHeld))
    && (m.pc.RejectAuditing? ==> pc.RejectRecording?)
    && (m.pc.Ended? && 2 <= Rank(pc) < 9 ==> pc.RejectAuditing?)
  }

  lemma NextExitRoute(pc: Pc, e: Event, standing: Standing, allow: bool, auditErr: bool)
    ensures ExitRoute(pc, e, Next(pc, e, standing, allow, auditErr))
  {
  }

  lemma AskedIsPast(run: Run)
    requires RunOrder(run) && ClaimOp in run.scheduled
    ensures Rank(run.w.pc) >= 2
  {
    assert Reached(ClaimOp, run.w);
  }

  lemma ExitIsAccountedFor(run: Run, e: Event)
    requires RunOrder(run) && Permission(run.w) && Awaits(run.w) in run.scheduled && !run.w.pc.Ended?
    requires ClaimOp in Delivering(run, e).scheduled
    ensures var run' := Delivering(run, e);
            && (run'.w.pc.RejectRecording? || run'.w.pc.RejectAuditing? ==> ToldHeld(run'.w))
            && (run'.w.pc.Ended? && !run'.w.dispatchOver ==> ToldHeld(run'.w) || ReleaseOp in run'.scheduled)
  {
    var w, v := run.w, Noted(run.w, e);
    NextExitRoute(w.pc, e, v.standing, AllowedBy(v), v.auditErr);
    if ClaimOp in run.scheduled {
      AskedIsPast(run);
      if Advance(w, e).pc.Ended? && !Advance(w, e).dispatchOver {
        assert Rank(w.pc) < 9 || w.pc.ExitReleasing?;
      }
    } else {
      assert Awaits(Advance(w, e)) == ClaimOp;
    }
  }

  lemma DeliveringOrder(run: Run, e: Event)
    requires RunShape(run) && RunOrder(run) && Deliverable(run, e)
    ensures RunOrder(Delivering(run, e))
  {
    ReplayFacts(run.history);
    ReplayClaimAnswer(run.history);
    EndedIsDeaf(run, e);
    SchedulesOnce(run, e);
    ToldStaysAway(run, e);
    if ClaimOp in Delivering(run, e).scheduled {
      ExitIsAccountedFor(run, e);
    }
  }

  lemma StepOrder(s: State, step: Step, rid: string)
    requires Enabled(s, step) && rid in After(s, step).runs
    requires rid in s.runs ==> RunShape(s.runs[rid]) && RunOrder(s.runs[rid])
    ensures RunOrder(After(s, step).runs[rid])
  {
    if rid !in s.runs {
      NewRunIsCreated(s, step, rid);
      if step.StartRun? {
        CreatedOrder(step.wid, step.token, step.req, []);
      } else {
        CreatedOrder(s.runs[step.from].wid, step.token, s.runs[step.from].req, s.runs[step.from].history[..step.length]);
      }
    } else if Subject(step) != Some(rid) {
      OtherRunsUntouched(s, step, rid);
    } else if step.Deliver? {
      DeliveringOrder(s.runs[rid], step.event);
    } else {
      AttemptedOrder(s, step);
    }
  }

  lemma AttemptedOrder(s: State, step: Step)
    requires Enabled(s, step) && Subject(step).Some? && !step.Deliver? && RunOrder(s.runs[step.rid])
    ensures RunOrder(Attempted(s, step))
  {
    var run, run' := s.runs[step.rid], Attempted(s, step);
    assert run'.w == run.w && run'.scheduled == run.scheduled;
  }

  // ---- What a run has asked for -----------------------------------------------------

  lemma CreatedAsked(wid: string, token: string, req: ExecutionRequest, history: seq<Event>)
    ensures RunAsked(Created(wid, token, req, history))
  {
    var run := Created(wid, token, req, history);
    forall op | op in Asked(history) && op != NoOp
      ensures op in run.scheduled || Behind(op, run.base.pc, |run.base.rows|)
    {
      AskedMeans(history, op);
      var i: nat :| i <= |history| && AwaitedAt(history, op, i);
      if i < |history| {
        AwaitedStaysBehind(op, history, i);
      } else {
        AwaitedNow(history, op);
      }
    }
    forall op | op in run.scheduled && op != NoOp ensures op in Asked(history) {
      AskedMeans(history, op);
      AwaitedNow(history, op);
    }
  }

  lemma AskedGrows(history: seq<Event>, e: Event)
    ensures Asked(history + [e]) == Asked(history) + {Awaits(Replay(history + [e]))}
  {
    assert (history + [e])[..|history|] == history;
  }

  lemma DeliveringAsked(run: Run, e: Event)
    requires run.w == Replay(run.history) && RunAsked(run)
    ensures RunAsked(Delivering(run, e))
  {
    AskedGrows(run.history, e);
    ReplayAppend(run.history, e);
  }

  lemma StepAsked(s: State, step: Step, rid: string)
    requires Enabled(s, step) && rid in After(s, step).runs
    requires rid in s.runs ==> RunShape(s.runs[rid]) && RunAsked(s.runs[rid])
    ensures RunAsked(After(s, step).runs[rid])
  {
    if rid !in s.runs {
      NewRunIsCreated(s, step, rid);
      if step.StartRun? {
        CreatedAsked(step.wid, step.token, step.req, []);
      } else {
        CreatedAsked(s.runs[step.from].wid, step.token, s.runs[step.from].req, s.runs[step.from].history[..step.length]);
      }
    } else if Subject(step) != Some(rid) {
      OtherRunsUntouched(s, step, rid);
    } else if step.Deliver? {
      DeliveringAsked(s.runs[rid], step.event);
    } else {
      AttemptedAsked(s, step);
    }
  }

  lemma AttemptedAsked(s: State, step: Step)
    requires Enabled(s, step) && Subject(step).Some? && !step.Deliver? && RunAsked(s.runs[step.rid])
    ensures RunAsked(Attempted(s, step))
  {
    var run, run' := s.runs[step.rid], Attempted(s, step);
    assert run'.history == run.history && run'.base == run.base && run'.scheduled == run.scheduled;
  }
}
