/** One run through one step: its shape is kept and it only grows. */
module RunProof {
  import opened Contracts
  import opened SagaWorkflow
  import opened SagaFacts
  import opened GateSystem
  import opened GateInvariant

  lemma KeepsTransitive(a: Local, b: Local, c: Local)
    requires Keeps(a, b) && Keeps(b, c)
    ensures Keeps(a, c)
  {
  }

  lemma JustifiedKept(op: Op, base: Local, a: Local, b: Local)
    requires Justified(op, base, a) && Outcomes(a) && Keeps(a, b)
    ensures Justified(op, base, b)
  {
  }

  /** The workflow waits only for activities it may schedule. */
  lemma AwaitedIsJustified(base: Local, w: Local)
    requires Facts(w) && Keeps(base, w)
    ensures Justified(Awaits(w), base, w)
  {
  }

  lemma CreatedShape(wid: string, token: string, req: Contracts.ExecutionRequest, history: seq<Event>)
    ensures RunShape(Created(wid, token, req, history))
  {
    ReplayFacts(history);
    var w := Replay(history);
    AwaitedIsJustified(w, w);
  }

  /** An event moves the workflow one step along its replay; an ended workflow stays put. */
  lemma DeliveringLocal(run: Run, e: Event)
    requires RunShape(run)
    ensures Advance(run.w, e) == Replay(run.history + [e])
    ensures Facts(run.w) && Facts(Advance(run.w, e))
    ensures Keeps(run.w, Advance(run.w, e)) && Keeps(run.base, Advance(run.w, e))
  {
    ReplayFacts(run.history);
    ReplayAppend(run.history, e);
    FactsKept(run.w, e);
    KeepsTransitive(run.base, run.w, Advance(run.w, e));
  }

  lemma EndedIsDeaf(run: Run, e: Event)
    requires Deliverable(run, e)
    ensures !run.w.pc.Ended?
  {
  }

  lemma DeliveringGot(run: Run, e: Event)
    requires Deliverable(run, e)
    ensures forall r :: r in Advance(run.w, e).got ==> r in run.w.got || r in run.answers
  {
  }

  lemma DeliveringShape(run: Run, e: Event)
    requires RunShape(run) && Deliverable(run, e)
    ensures RunShape(Delivering(run, e))
    ensures RunGrows(run, Delivering(run, e))
  {
    var w' := Advance(run.w, e);
    DeliveringLocal(run, e);
    DeliveringGot(run, e);
    EndedIsDeaf(run, e);
    forall op | op in run.scheduled ensures Justified(op, run.base, w') {
      JustifiedKept(op, run.base, run.w, w');
    }
    AwaitedIsJustified(run.base, w');
    DeliveredShape(run, e, w');
  }

  lemma DeliveredShape(run: Run, e: Event, w': Local)
    requires RunShape(run) && w' == Advance(run.w, e) && w' == Replay(run.history + [e]) && !run.w.pc.Ended?
    requires Keeps(run.w, w') && Keeps(run.base, w')
    requires forall r :: r in w'.got ==> r in run.w.got || r in run.answers
    requires forall op :: op in run.scheduled ==> Justified(op, run.base, w')
    requires Justified(Awaits(w'), run.base, w')
    ensures RunShape(Delivering(run, e)) && RunGrows(run, Delivering(run, e))
  {
  }

  /** The change that every other step makes to a run. */
  ghost predicate RunTouched(a: Run, b: Run) {
    && b.wid == a.wid && b.token == a.token && b.req == a.req && b.base == a.base
    && b.history == a.history && b.w == a.w && b.scheduled == a.scheduled
    && (a.took && ReleaseOp !in a.scheduled ==> b.took)
    && a.closed <= b.closed && a.answers <= b.answers
    && |a.attempts| <= |b.attempts|
    && (forall i :: 0 <= i < |a.attempts| && (a.attempts[i].Called? || a.attempts[i].Over?) ==>
          b.attempts[i] == a.attempts[i])
    && (b.attempts != [] ==> DispatchOp in a.scheduled)
    && (b.claimReads > 0 ==> ClaimOp in a.scheduled)
    && (b.reverts > 0 ==> CompensateOp in a.scheduled)
    && a.reverts <= b.reverts
  }

  lemma TouchedShape(a: Run, b: Run)
    requires RunShape(a) && RunTouched(a, b)
    ensures RunShape(b) && RunGrows(a, b)
  {
  }

  /** A step changes at most its subject, or adds one run. */
  lemma OtherRunsUntouched(s: State, step: Step, rid: string)
    requires Enabled(s, step)
    requires rid in s.runs && Subject(step) != Some(rid)
    ensures rid in After(s, step).runs && After(s, step).runs[rid] == s.runs[rid]
  {
  }

  /** Attempts are only added, and one that has ended stays as it ended. */
  ghost predicate AttemptsKept(a: seq<Attempt>, b: seq<Attempt>) {
    && |a| <= |b|
    && (forall i :: 0 <= i < |a| && (a[i].Called? || a[i].Over?) ==> b[i] == a[i])
  }

  lemma AttemptsStep(s: State, step: Step)
    requires Enabled(s, step) && Subject(step).Some?
    ensures AttemptsKept(s.runs[step.rid].attempts, AttemptsAfter(s, step))
    ensures AttemptsAfter(s, step) != [] ==> step.FenceWrite? || s.runs[step.rid].attempts != []
  {
  }

  lemma TouchedStep(s: State, step: Step, attempts: seq<Attempt>)
    requires Enabled(s, step) && Subject(step).Some? && !step.Deliver?
    requires RunShape(s.runs[step.rid])
    requires attempts == AttemptsAfter(s, step) && AttemptsKept(s.runs[step.rid].attempts, attempts)
    requires attempts != [] ==> step.FenceWrite? || s.runs[step.rid].attempts != []
    ensures RunTouched(s.runs[step.rid], Attempted(s, step))
  {
  }

  lemma AttemptedShape(s: State, step: Step)
    requires Enabled(s, step) && Subject(step).Some? && !step.Deliver?
    requires RunShape(s.runs[step.rid])
    ensures RunShape(Attempted(s, step)) && RunGrows(s.runs[step.rid], Attempted(s, step))
    ensures Attempted(s, step).history == s.runs[step.rid].history
  {
    AttemptsStep(s, step);
    TouchedStep(s, step, AttemptsAfter(s, step));
    TouchedShape(s.runs[step.rid], Attempted(s, step));
  }

  /** Every step keeps the shape of every run, and runs only grow. */
  lemma StepShapes(s: State, step: Step, rid: string)
    requires Enabled(s, step) && rid in After(s, step).runs
    requires forall r :: r in s.runs ==> RunShape(s.runs[r])
    ensures RunShape(After(s, step).runs[rid])
    ensures rid in s.runs ==> RunGrows(s.runs[rid], After(s, step).runs[rid])
  {
    if rid in s.runs {
      if Subject(step) != Some(rid) {
        OtherRunsUntouched(s, step, rid);
      } else if step.Deliver? {
        DeliveringShape(s.runs[rid], step.event);
      } else {
        AttemptedShape(s, step);
      }
    } else {
      NewRunShape(s, step, rid);
    }
  }

  lemma NewRunShape(s: State, step: Step, rid: string)
    requires Enabled(s, step) && rid in After(s, step).runs && rid !in s.runs
    ensures RunShape(After(s, step).runs[rid])
    ensures step.StartRun? || step.ResetRun?
    ensures step.rid == rid
  {
    NewRunIsCreated(s, step, rid);
    if step.StartRun? {
      CreatedShape(step.wid, step.token, step.req, []);
    } else {
      var from := s.runs[step.from];
      CreatedShape(from.wid, step.token, from.req, from.history[..step.length]);
    }
  }

  lemma NewRunIsCreated(s: State, step: Step, rid: string)
    requires Enabled(s, step) && rid in After(s, step).runs && rid !in s.runs
    ensures (step.StartRun? || step.ResetRun?) && step.rid == rid
    ensures step.StartRun? ==> After(s, step).runs[rid] == Created(step.wid, step.token, step.req, [])
    ensures step.ResetRun? ==>
              After(s, step).runs[rid] == Created(s.runs[step.from].wid, step.token, s.runs[step.from].req,
                                                  s.runs[step.from].history[..step.length])
  {
  }
}
