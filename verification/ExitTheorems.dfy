/** What a run leaves behind when it ends before dispatch: which exits release the claim, and
    exactly when a run still holds it. */
module ExitTheorems {
  import opened Contracts
  import opened ClaimTable
  import opened SagaWorkflow
  import opened SagaOrder
  import opened SagaRows
  import opened GateSystem
  import opened GateInvariant
  import opened InvariantProof
  import opened ConservationTheorems

  /** No run schedules an activity twice, so the attempts of one activity are the run's. */
  lemma EachActivityIsScheduledOnce(limit: nat, steps: seq<Step>, s: State, rid: string, op: Op)
    requires Reaches(limit, steps, s) && rid in s.runs && op != NoOp
    ensures s.runs[rid].scheduled[op] <= 1
    ensures |s.runs[rid].attempts| <= limit && s.runs[rid].reverts <= 1
  {
    ReachableOrder(limit, steps, s, rid);
    ReachableRun(limit, steps, s, rid);
    ReachableReverts(limit, steps, s, rid);
  }

  // ---- Who holds a CLAIMED row ------------------------------------------------------

  predicate Holding(s: State, rid: string)
    requires rid in s.runs
  {
    HeldInClaimedBy(s.claims, DecisionOf(s.runs[rid]), Owner(rid, s.runs[rid]))
  }

  /** A run holds its claim in CLAIMED if and only if one of its claim statements changed the row,
      no release statement of it has run since, and it has not passed the fence; no other run can
      make or undo that. */
  lemma HoldsIffItTook(limit: nat, steps: seq<Step>, s: State, rid: string)
    requires Reaches(limit, steps, s) && rid in s.runs
    ensures Holding(s, rid) <==> s.runs[rid].took && !FencedBy(s, DecisionOf(s.runs[rid]), rid)
  {
    ReachableOrder(limit, steps, s, rid);
  }

  // ---- Every exit before dispatch ---------------------------------------------------

  /** The run ended, and no dispatch was scheduled before. */
  predicate ExitedEarly(w: Local) {
    w.pc.Ended? && !w.dispatchOver
  }

  lemma EarlyExitScheduledNoDispatch(run: Run)
    requires RunShape(run) && RowsBacked(run.w) && ExitedEarly(run.w)
    ensures DispatchOp !in run.scheduled && run.attempts == []
  {
    assert DispatchOp in run.scheduled ==> Justified(DispatchOp, run.base, run.w);
  }

  lemma EarlyExitHasNoFence(limit: nat, steps: seq<Step>, s: State, rid: string)
    requires Reaches(limit, steps, s) && rid in s.runs && ExitedEarly(s.runs[rid].w)
    ensures !FencedBy(s, DecisionOf(s.runs[rid]), rid)
  {
    ReachableRun(limit, steps, s, rid);
    EarlyExitScheduledNoDispatch(s.runs[rid]);
    if DecisionOf(s.runs[rid]) in s.fences {
      ReachableFence(limit, steps, s, DecisionOf(s.runs[rid]));
    }
  }

  lemma NeverAskedOwnsNothing(limit: nat, steps: seq<Step>, s: State, rid: string, d: string)
    requires Reaches(limit, steps, s) && rid in s.runs && ClaimOp !in s.runs[rid].scheduled && d in s.claims
    ensures s.claims[d].owner.runId != rid
  {
    ReachableRow(limit, steps, s, d);
  }

  /** A run that ended before dispatch never asked for the claim, or was told that someone else
      holds it and did not schedule a release, or scheduled the release.  It holds its claim if
      and only if a claim statement of it changed the row after its last release statement. */
  lemma ExitBeforeDispatch(limit: nat, steps: seq<Step>, s: State, rid: string)
    requires Reaches(limit, steps, s) && rid in s.runs && ExitedEarly(s.runs[rid].w)
    ensures ClaimOp !in s.runs[rid].scheduled || ToldHeld(s.runs[rid].w) || ReleaseOp in s.runs[rid].scheduled
    ensures ToldHeld(s.runs[rid].w) ==> ReleaseOp !in s.runs[rid].scheduled
    ensures Holding(s, rid) <==> s.runs[rid].took
    ensures ClaimOp !in s.runs[rid].scheduled ==> forall d :: d in s.claims ==> s.claims[d].owner.runId != rid
  {
    ReachableOrder(limit, steps, s, rid);
    EarlyExitHasNoFence(limit, steps, s, rid);
    if ClaimOp !in s.runs[rid].scheduled {
      forall d | d in s.claims ensures s.claims[d].owner.runId != rid {
        NeverAskedOwnsNothing(limit, steps, s, rid, d);
      }
    }
  }

  /** The claim attempts of the run are over, or it made none. */
  predicate NoClaimAttemptLeft(run: Run) {
    ClaimOp in run.scheduled ==> ClaimOp in run.closed
  }

  lemma NotHoldingIsNoClaim(limit: nat, steps: seq<Step>, s: State, rid: string)
    requires Reaches(limit, steps, s) && rid in s.runs && !Holding(s, rid)
    ensures NoClaimOf(s, rid)
  {
    forall d | d in s.claims && s.claims[d].owner.runId == rid ensures s.claims[d].state != Claimed {
      ReachableRow(limit, steps, s, d);
    }
  }

  lemma QuietExitStaysFree(limit: nat, steps: seq<Step>, s: State, more: seq<Step>, later: State, rid: string)
    requires Reaches(limit, steps, s) && Reaches(limit, steps + more, later)
    requires rid in s.runs && ExitedEarly(s.runs[rid].w) && NoClaimAttemptLeft(s.runs[rid]) && !Holding(s, rid)
    ensures rid in later.runs && !HeldInClaimedBy(later.claims, DecisionOf(s.runs[rid]), Owner(rid, s.runs[rid]))
  {
    var d := DecisionOf(s.runs[rid]);
    LaterKeeps(limit, steps, more, s, later);
    assert RunGrows(s.runs[rid], later.runs[rid]);
    if ClaimOp in s.runs[rid].scheduled {
      NotHoldingIsNoClaim(limit, steps, s, rid);
      QuietForever(limit, steps, more, s, later, rid);
    } else if d in later.claims {
      NeverAskedOwnsNothing(limit, steps + more, later, rid, d);
    }
  }

  /** Once a run that ended before dispatch has no claim attempt left, it holds no claim in this
      state and every later one if and only if no claim statement of it changed the row after its
      last release statement. */
  lemma QuietExitIsFinalIffNothingWasTaken(limit: nat, steps: seq<Step>, s: State, rid: string)
    requires Reaches(limit, steps, s) && rid in s.runs && ExitedEarly(s.runs[rid].w) && NoClaimAttemptLeft(s.runs[rid])
    ensures StaysReleased(limit, steps, DecisionOf(s.runs[rid]), Owner(rid, s.runs[rid])) <==> !s.runs[rid].took
  {
    var d, owner := DecisionOf(s.runs[rid]), Owner(rid, s.runs[rid]);
    ExitBeforeDispatch(limit, steps, s, rid);
    if s.runs[rid].took {
      assert steps + [] == steps;
    } else {
      forall more: seq<Step>, later: State | Reaches(limit, steps + more, later)
        ensures !HeldInClaimedBy(later.claims, d, owner)
      {
        QuietExitStaysFree(limit, steps, s, more, later, rid);
      }
    }
  }

  // ---- The exit that never releases -------------------------------------------------

  ghost predicate HeldForever(limit: nat, steps: seq<Step>, d: string, owner: ClaimOwner) {
    forall more: seq<Step>, later: State :: Reaches(limit, steps + more, later) ==> HeldInClaimedBy(later.claims, d, owner)
  }

  lemma ToldHeldHoldsOn(limit: nat, steps: seq<Step>, s: State, more: seq<Step>, later: State, rid: string)
    requires Reaches(limit, steps, s) && Reaches(limit, steps + more, later)
    requires rid in s.runs && ToldHeld(s.runs[rid].w) && s.runs[rid].took
    ensures HeldInClaimedBy(later.claims, DecisionOf(s.runs[rid]), Owner(rid, s.runs[rid]))
  {
    LaterKeeps(limit, steps, more, s, later);
    assert RunGrows(s.runs[rid], later.runs[rid]);
    ReachableOrder(limit, steps + more, later, rid);
    NoDispatchNoFence(limit, steps + more, later, rid);
  }

  lemma NoDispatchNoFence(limit: nat, steps: seq<Step>, s: State, rid: string)
    requires Reaches(limit, steps, s) && rid in s.runs && DispatchOp !in s.runs[rid].scheduled
    ensures !FencedBy(s, DecisionOf(s.runs[rid]), rid)
  {
    ReachableRun(limit, steps, s, rid);
    if DecisionOf(s.runs[rid]) in s.fences {
      ReachableFence(limit, steps, s, DecisionOf(s.runs[rid]));
    }
  }

  /** A run that was told that someone else holds the claim never releases it: it holds the claim,
      now and forever, if and only if one of its own claim statements changed the row. */
  lemma ToldHeldHoldsForeverIffItTook(limit: nat, steps: seq<Step>, s: State, rid: string)
    requires Reaches(limit, steps, s) && rid in s.runs && ToldHeld(s.runs[rid].w)
    ensures ReleaseOp !in s.runs[rid].scheduled
    ensures Holding(s, rid) <==> s.runs[rid].took
    ensures HeldForever(limit, steps, DecisionOf(s.runs[rid]), Owner(rid, s.runs[rid])) <==> s.runs[rid].took
  {
    var d, owner := DecisionOf(s.runs[rid]), Owner(rid, s.runs[rid]);
    ReachableOrder(limit, steps, s, rid);
    NoDispatchNoFence(limit, steps, s, rid);
    if s.runs[rid].took {
      forall more: seq<Step>, later: State | Reaches(limit, steps + more, later)
        ensures HeldInClaimedBy(later.claims, d, owner)
      {
        ToldHeldHoldsOn(limit, steps, s, more, later, rid);
      }
    } else {
      assert steps + [] == steps;
    }
  }
}
