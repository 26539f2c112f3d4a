/** Totals over a whole execution, and what a release leaves behind. */
module ConservationTheorems {
  import opened Contracts
  import opened ClaimTable
  import opened AdapterContract
  import opened SagaWorkflow
  import opened GateSystem
  import opened GateInvariant
  import opened TableProof
  import opened InvariantProof
  import opened GateTheorems

  // ---- Mutations are bounded by recorded ALLOW decisions ----------------------------

  ghost function Total(counts: map<string, nat>, keys: set<string>): nat
    requires keys <= counts.Keys
  {
    if keys == {} then 0 else
    var key :| key in keys;
    counts[key] + Total(counts, keys - {key})
  }

  ghost function Positive(counts: map<string, nat>, keys: set<string>): set<string>
    requires keys <= counts.Keys
  {
    set key | key in keys && counts[key] > 0
  }

  lemma {:induction false} TotalOfOnes(counts: map<string, nat>, keys: set<string>)
    requires keys <= counts.Keys && forall key :: key in keys ==> counts[key] <= 1
    ensures Total(counts, keys) == |Positive(counts, keys)|
  {
    if keys != {} {
      var key :| key in keys && Total(counts, keys) == counts[key] + Total(counts, keys - {key});
      TotalOfOnes(counts, keys - {key});
      var rest := Positive(counts, keys - {key});
      assert Positive(counts, keys) == if counts[key] > 0 then rest + {key} else rest;
    }
  }

  ghost predicate KeyOfSome(key: string, decisions: set<string>) {
    exists d :: d in decisions && ExecutionKey(d) == key
  }

  /** Execution keys tell decisions apart, so there are no more keys than decisions. */
  lemma {:induction false} KeysAreBounded(keys: set<string>, decisions: set<string>)
    requires forall key :: key in keys ==> KeyOfSome(key, decisions)
    ensures |keys| <= |decisions|
    decreases |keys|
  {
    if keys != {} {
      var key :| key in keys;
      var d :| d in decisions && ExecutionKey(d) == key;
      forall other | other in keys - {key} ensures KeyOfSome(other, decisions - {d}) {
        var e :| e in decisions && ExecutionKey(e) == other;
        assert e in decisions - {d};
      }
      KeysAreBounded(keys - {key}, decisions - {d});
    }
  }

  function AllowedDecisions(s: State): set<string> {
    set d | d in s.records && s.records[d].stage == Ingress && s.records[d].verdict == Allow
  }

  /** A key that changed the target belongs to a recorded ingress ALLOW. */
  lemma ChangedKeyIsAllowed(limit: nat, steps: seq<Step>, s: State, key: string)
    requires Reaches(limit, steps, s) && s.ledger.Count(key) > 0
    ensures KeyOfSome(key, AllowedDecisions(s)) && s.ledger.Count(key) == 1
  {
    ReachableLedger(limit, steps, s);
    assert s.ledger.Count(key) == if key in s.ledger.effects && s.ledger.effects[key] != Barred then 1 else 0;
    assert KeyCalled(s, key);
    var i :| 0 <= i < |s.calls| && s.calls[i].request.idempotencyKey == key;
    CallIsAllowed(limit, steps, s, i);
  }

  lemma CallIsAllowed(limit: nat, steps: seq<Step>, s: State, i: nat)
    requires Reaches(limit, steps, s) && i < |s.calls|
    ensures s.calls[i].decisionId in AllowedDecisions(s)
    ensures s.calls[i].request.idempotencyKey == ExecutionKey(s.calls[i].decisionId)
  {
    var c := s.calls[i];
    ReachableCall(limit, steps, s, i);
    ReachableRun(limit, steps, s, c.run);
    ReachableRecords(limit, steps, s);
    ReachableFence(limit, steps, s, c.decisionId);
    OwnerIsAuthorized(s, c.run, s.runs[c.run]);
  }

  /** Over any execution the target is changed no more often than there are recorded ingress
      ALLOW decisions. */
  lemma MutationsAreBoundedByDecisions(limit: nat, steps: seq<Step>, s: State)
    requires Reaches(limit, steps, s)
    ensures Total(s.ledger.mutations, s.ledger.mutations.Keys) <= |AllowedDecisions(s)|
  {
    var counts := s.ledger.mutations;
    forall key | key in counts && counts[key] > 0
      ensures KeyOfSome(key, AllowedDecisions(s)) && counts[key] == 1
    {
      assert s.ledger.Count(key) == counts[key];
      ChangedKeyIsAllowed(limit, steps, s, key);
    }
    TotalOfOnes(counts, counts.Keys);
    KeysAreBounded(Positive(counts, counts.Keys), AllowedDecisions(s));
  }

  // ---- Claims past the fence --------------------------------------------------------

  /** From the fence on a claim keeps its owner and never returns to CLAIMED or RELEASED, and a
      COMPLETED or FAILED claim never changes, whatever happens later. */
  lemma FencedClaimsNeverGoBack(limit: nat, steps: seq<Step>, more: seq<Step>, s: State, later: State, d: string)
    requires Reaches(limit, steps, s) && Reaches(limit, steps + more, later)
    requires d in s.claims && Fenced(s.claims[d].state)
    ensures d in later.claims && later.claims[d].owner == s.claims[d].owner
    ensures later.claims[d].state != Claimed && later.claims[d].state != Released
    ensures Final(s.claims[d].state) ==> later.claims[d] == s.claims[d]
    ensures d in s.records && later.claims[d].owner.runId in later.runs
  {
    LaterKeeps(limit, steps, more, s, later);
    ReachableRow(limit, steps, s, d);
    ReachableRow(limit, steps + more, later, d);
  }

  // ---- Release ----------------------------------------------------------------------

  ghost predicate NoClaimOf(s: State, rid: string) {
    forall d :: d in s.claims && s.claims[d].owner.runId == rid ==> s.claims[d].state != Claimed
  }

  /** A claim transition by one run leaves every other owner's claim alone. */
  lemma ReleaseTouchesOwnClaimOnly(s: State, step: Step, d: string)
    requires Enabled(s, step) && step.AdvanceAttempt? && d in s.claims
    requires s.claims[d].owner != Owner(step.rid, s.runs[step.rid])
    ensures d in After(s, step).claims && After(s, step).claims[d] == s.claims[d]
  {
    AdvanceKeepsRows(s.claims, DecisionOf(s.runs[step.rid]), Owner(step.rid, s.runs[step.rid]), Destination(step.op).value);
  }

  /** Only a claim attempt of a run can make a row CLAIMED by it. */
  lemma QuietStep(s: State, step: Step, rid: string)
    requires Enabled(s, step) && rid in s.runs && ClaimOp in s.runs[rid].closed && NoClaimOf(s, rid)
    ensures NoClaimOf(After(s, step), rid)
  {
    var s' := After(s, step);
    forall d | d in s'.claims && s'.claims[d].owner.runId == rid ensures s'.claims[d].state != Claimed {
      if !RowChanges(s, step, d) {
        OtherRowsStay(s, step, d);
      } else if step.AdvanceAttempt? {
        SourcesMatchDiagram(s.claims[d].state, Destination(step.op).value);
      }
    }
  }

  /** Once a release statement has run, also if its answer is lost, its run has no CLAIMED row. */
  lemma ReleaseLeavesNoClaim(limit: nat, steps: seq<Step>, s: State, step: Step)
    requires Reaches(limit, steps, s) && Enabled(s, step) && step.AdvanceAttempt? && step.op == ReleaseOp
    ensures NoClaimOf(After(s, step), step.rid)
  {
    var s' := After(s, step);
    forall d | d in s'.claims && s'.claims[d].owner.runId == step.rid ensures s'.claims[d].state != Claimed {
      if !RowChanges(s, step, d) {
        OtherRowsStay(s, step, d);
        ReachableRow(limit, steps, s, d);
        SourcesMatchDiagram(s.claims[d].state, Released);
      }
    }
  }

  lemma {:induction false} QuietForever(limit: nat, steps: seq<Step>, more: seq<Step>, s: State, later: State, rid: string)
    requires Reaches(limit, steps, s) && Reaches(limit, steps + more, later)
    requires rid in s.runs && ClaimOp in s.runs[rid].closed && NoClaimOf(s, rid)
    ensures NoClaimOf(later, rid)
    decreases |more|
  {
    if more == [] {
      assert steps + more == steps;
    } else {
      var before := BeforeLast(limit, steps, more, later);
      var fewer := more[..|more| - 1];
      QuietForever(limit, steps, fewer, s, before, rid);
      LaterKeeps(limit, steps, fewer, s, before);
      assert RunGrows(s.runs[rid], before.runs[rid]);
      QuietStep(before, more[|more| - 1], rid);
    }
  }

  /** Once a run has no claim attempt left, a release attempt leaves no CLAIMED row of that run
      in any later state. */
  lemma QuietReleaseIsFinal(limit: nat, steps: seq<Step>, s: State, step: Step, more: seq<Step>, later: State)
    requires Reaches(limit, steps, s) && Enabled(s, step) && step.AdvanceAttempt? && step.op == ReleaseOp
    requires ClaimOp in s.runs[step.rid].closed
    requires Reaches(limit, steps + [step] + more, later)
    ensures NoClaimOf(later, step.rid)
  {
    var all, s' := steps + [step], After(s, step);
    assert all[..|all| - 1] == steps && all[|all| - 1] == step;
    assert Reaches(limit, all, s');
    ReleaseLeavesNoClaim(limit, steps, s, step);
    LaterKeeps(limit, steps, [step], s, s');
    assert RunGrows(s.runs[step.rid], s'.runs[step.rid]);
    QuietForever(limit, all, more, s', later, step.rid);
  }

  /** A claim attempt that is still outstanding can take a released claim back, also after its
      run has ended. */
  lemma LateClaimReclaims(limit: nat, steps: seq<Step>, s: State, rid: string)
    requires Reaches(limit, steps, s) && rid in s.runs && ClaimOp !in s.runs[rid].closed
    requires var d := DecisionOf(s.runs[rid]);
             d in s.claims && s.claims[d].owner == Owner(rid, s.runs[rid]) && s.claims[d].state == Released
    ensures var step := ClaimStatement(rid, false);
            && Enabled(s, step) && Reaches(limit, steps + [step], After(s, step))
            && HeldInClaimedBy(After(s, step).claims, DecisionOf(s.runs[rid]), Owner(rid, s.runs[rid]))
  {
    var step, all := ClaimStatement(rid, false), steps + [ClaimStatement(rid, false)];
    ReachableRow(limit, steps, s, DecisionOf(s.runs[rid]));
    assert all[..|all| - 1] == steps && all[|all| - 1] == step;
  }

  ghost predicate StaysReleased(limit: nat, steps: seq<Step>, d: string, owner: ClaimOwner) {
    forall more: seq<Step>, later: State :: Reaches(limit, steps + more, later) ==> !HeldInClaimedBy(later.claims, d, owner)
  }

  /** A released claim stays given up exactly when the run has no claim attempt outstanding. */
  lemma ReleaseIsFinalIffNoClaimAttemptIsLeft(limit: nat, steps: seq<Step>, s: State, rid: string)
    requires Reaches(limit, steps, s) && rid in s.runs
    requires var d := DecisionOf(s.runs[rid]);
             d in s.claims && s.claims[d].owner == Owner(rid, s.runs[rid]) && s.claims[d].state == Released
    ensures StaysReleased(limit, steps, DecisionOf(s.runs[rid]), Owner(rid, s.runs[rid])) <==> ClaimOp in s.runs[rid].closed
  {
    var d, owner := DecisionOf(s.runs[rid]), Owner(rid, s.runs[rid]);
    if ClaimOp in s.runs[rid].closed {
      assert NoClaimOf(s, rid) by {
        forall e | e in s.claims && s.claims[e].owner.runId == rid ensures s.claims[e].state != Claimed {
          ReachableRow(limit, steps, s, e);
        }
      }
      forall more: seq<Step>, later: State | Reaches(limit, steps + more, later)
        ensures !HeldInClaimedBy(later.claims, d, owner)
      {
        QuietForever(limit, steps, more, s, later, rid);
      }
    } else {
      LateClaimReclaims(limit, steps, s, rid);
    }
  }
}
