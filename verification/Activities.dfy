/** The infrastructure activities and the ingress handler, step by step over the stores. */
module Activities {
  import opened Contracts
  import opened PolicySchema
  import opened RequestHashing
  import opened Evaluation
  import opened IngressBinding
  import opened ClaimTable
  import opened SimulatedTarget
  import opened GateSystem
  import opened Stores

  /** What DispatchConfig returns: the adapter's outcome, or an error that promises that the
      adapter was not called. */
  datatype DispatchReply = Outcome(outcome: DispatchOutcome) | Rejected | MayHaveCommitted

  /** The request names a decision, a token and the key that belongs to the decision. */
  predicate Dispatchable(req: FencedDispatch) {
    req.decisionId != "" && req.token != "" && req.dispatch.idempotencyKey == ExecutionKey(req.decisionId)
  }

  class InfrastructureActivities {
    const adapter: SimulatedAdapter?
    const claims: MemoryStore?

    constructor (adapter: SimulatedAdapter?, claims: MemoryStore?)
      ensures this.adapter == adapter && this.claims == claims
    {
      this.adapter, this.claims := adapter, claims;
    }

    /** Acquires the fence and, only if that succeeds, calls the adapter once.  `fate` and
        `readable` say how the store's write and read fare, `ended` whether the activity's
        context has ended. */
    method DispatchConfig(req: FencedDispatch, wid: string, rid: string, fate: WriteFate, readable: bool, ended: bool)
      returns (reply: DispatchReply)
      requires claims != null ==> claims.Valid()
      modifies adapter, claims
      ensures claims != null ==> claims.Valid() && claims.Table() == old(claims.Table())
      // The adapter is called exactly when this attempt moved the claim through the fence and
      // knows it, and then only once and with the request's own dispatch.
      ensures reply.Outcome? <==>
                && adapter != null && claims != null && Dispatchable(req) && fate == Delivered
                && old(MayAdvance(claims.claims, req.decisionId, ClaimOwner(wid, rid, req.token), Executing))
      ensures reply.Outcome? ==>
                && adapter.State() == AfterCall(old(adapter.State()), DispatchCall(req.dispatch, ended))
                && reply.outcome == Answer(old(adapter.State()), DispatchCall(req.dispatch, ended)).Checked()
      ensures !reply.Outcome? && adapter != null ==> adapter.State() == old(adapter.State())
      // The claim moves exactly as the compare-and-set says, if the write reached the store.
      ensures claims != null && adapter != null && Dispatchable(req) && fate != LostBeforeCommit ==>
                claims.claims == Advanced(old(claims.claims), req.decisionId, ClaimOwner(wid, rid, req.token), Executing)
      ensures claims != null && !(adapter != null && Dispatchable(req) && fate != LostBeforeCommit) ==>
                claims.claims == old(claims.claims)
      // It is rejected exactly if the request is not valid, or the store refused the fence and
      // then showed a claim that this run does not hold, or holds as RELEASED; otherwise an
      // attempt that did not call may have committed.
      ensures reply.Rejected? <==>
                || adapter == null || claims == null || !Dispatchable(req)
                || (&& fate == Delivered && readable
                    && !old(MayAdvance(claims.claims, req.decisionId, ClaimOwner(wid, rid, req.token), Executing))
                    && (req.decisionId in old(claims.claims) ==>
                          || old(claims.claims)[req.decisionId].owner != ClaimOwner(wid, rid, req.token)
                          || old(claims.claims)[req.decisionId].state == Released))
      // A rejection changed nothing, and the claim does not show that this run holds it.
      ensures reply.Rejected? && claims != null ==>
                && claims.claims == old(claims.claims)
                && (adapter != null && Dispatchable(req) ==>
                      FenceVerdict(claims.claims, req.decisionId, ClaimOwner(wid, rid, req.token), readable).FenceRejected?)
      // After an outcome no attempt by anyone can pass the fence again.
      ensures reply.Outcome? ==> forall owner :: !MayAdvance(claims.claims, req.decisionId, owner, Executing)
    {
      if adapter == null || claims == null {
        return Rejected;
      }
      if req.decisionId == "" || req.token == "" {
        return Rejected;
      }
      if req.dispatch.idempotencyKey != ExecutionKey(req.decisionId) {
        return Rejected;
      }
      var owner := ClaimOwner(wid, rid, req.token);
      if fate == LostBeforeCommit {
        return MayHaveCommitted;
      }
      var moved := claims.AdvanceClaim(req.decisionId, owner, Executing);
      if fate == LostAfterCommit {
        return MayHaveCommitted;
      }
      if moved != Moved' {
        if !readable {
          return MayHaveCommitted;
        }
        var held := claims.GetClaim(req.decisionId);
        if held.Some? && held.value.owner == owner && held.value.state != Released {
          return MayHaveCommitted;
        }
        return Rejected;
      }
      SourcesMatchDiagram(Executing, Executing);
      var o := adapter.Dispatch(req.dispatch, ended);
      reply := Outcome(o.Checked());
    }

    method ReconcileDispatch(req: DispatchRequest, ended: bool) returns (o: DispatchOutcome)
      modifies adapter
      ensures adapter == null || req.idempotencyKey == "" ==> o.status.Unknown?
      ensures adapter != null && req.idempotencyKey == "" ==> adapter.State() == old(adapter.State())
      ensures adapter != null && req.idempotencyKey != "" ==>
                && adapter.State() == AfterCall(old(adapter.State()), ReconcileCall(req, ended))
                && adapter.mutations == old(adapter.mutations)
                && o == Answer(old(adapter.State()), ReconcileCall(req, ended)).Checked()
    {
      if adapter == null {
        return UnknownOutcome("cannot reconcile: no infrastructure adapter configured");
      }
      if req.idempotencyKey == "" {
        return UnknownOutcome("cannot reconcile: request has no idempotency key");
      }
      o := adapter.Reconcile(req, ended);
      o := o.Checked();
    }
  }

  // ---- Ingress ----------------------------------------------------------------------

  /** How Temporal answers a request to start a workflow. */
  datatype StartReply = Started | AlreadyRunning | StartFailed

  datatype InterceptStatus = Accepted | DeniedStatus | NotExecuted | AlreadyRunningStatus | Unavailable | StartFailedStatus

  /** A request to start the saga under a workflow ID. */
  datatype StartRequest = StartRequest(workflowId: string, request: ExecutionRequest)

  class IngressHandler {
    const decisions: MemoryStore
    var starts: seq<StartRequest>

    constructor (decisions: MemoryStore)
      ensures this.decisions == decisions && starts == []
    {
      this.decisions, starts := decisions, [];
    }

    /** Evaluates, records, and only then starts.  `id` is the new decision ID, `fate` says how
        the record write fares, `start` how Temporal answers. */
    method Intercept(policy: Option<Snapshot>, agentId: string, p: AgentProposal, id: string, fate: WriteFate, start: StartReply)
      returns (status: InterceptStatus, decisionId: string)
      requires decisions.Valid()
      modifies this`starts, decisions`records, decisions`byId
      ensures decisions.Valid()
      ensures var rec := IngressRecord(id, agentId, p, Evaluate(policy, agentId, p));
              decisions.Table() == if fate == LostBeforeCommit then old(decisions.Table()) else Appended(old(decisions.Table()), rec)
      // A record that is written under a new ID says, column by column, what was evaluated, and
      // names the workflow exactly for an ALLOW.
      ensures fate != LostBeforeCommit && id != "" && p.id != "" && id !in old(decisions.Table()) ==>
                IngressStored(decisions.Table(), id, agentId, p, Evaluate(policy, agentId, p))
      // A workflow is requested exactly for an ALLOW whose record is known to be stored.
      ensures starts == old(starts) || |starts| == |old(starts)| + 1
      ensures starts != old(starts) <==>
                && Evaluate(policy, agentId, p).verdict == Allow && fate == Delivered
                && IngressRecord(id, agentId, p, Evaluate(policy, agentId, p)).WellFormed()
                && Stored(decisions.Table(), IngressRecord(id, agentId, p, Evaluate(policy, agentId, p)))
      // What is requested passes ingress verification and, under the same policy, re-validation.
      ensures starts != old(starts) ==>
                var sent := starts[|starts| - 1];
                && starts[..|starts| - 1] == old(starts)
                && sent.request.agentId == agentId && sent.request.proposal == p
                && CheckIngress(decisions.Table(), sent.request, sent.workflowId).None?
                && Revalidate(policy, sent.request).verdict == Allow
      // The response says which of these happened, and names the decision only if it is stored.
      ensures status == DeniedStatus <==> Evaluate(policy, agentId, p).verdict == Deny
      ensures status == NotExecuted <==> Evaluate(policy, agentId, p).verdict == RequireApproval
      ensures status == Unavailable <==> Evaluate(policy, agentId, p).verdict == Allow && starts == old(starts)
      ensures starts != old(starts) ==>
                status == (match start case Started => Accepted case AlreadyRunning => AlreadyRunningStatus case StartFailed => StartFailedStatus)
      ensures decisionId != "" ==>
                && decisionId == id && fate == Delivered
                && Stored(decisions.Table(), IngressRecord(id, agentId, p, Evaluate(policy, agentId, p)))
      ensures decisionId == "" && status != Unavailable && fate == Delivered ==>
                !IngressRecord(id, agentId, p, Evaluate(policy, agentId, p)).WellFormed()
                || !Stored(decisions.Table(), IngressRecord(id, agentId, p, Evaluate(policy, agentId, p)))
    {
      var d := EvaluateProposal(policy, agentId, p);
      var hash := ComputeRequestHash(p);
      var workflowId := "saga-" + p.id;
      var rec := DecisionRecord(id, Ingress, p.id, agentId, hash, p.command, p.targetId, d.environment,
                                d.verdict, d.reasons, d.policyVersion, d.policyDigest, "");
      if d.verdict == Allow {
        rec := rec.(workflowId := workflowId);
      }
      var recorded := false;
      if fate != LostBeforeCommit {
        var reply := decisions.AppendDecision(rec);
        recorded := reply == Appended' && fate == Delivered;
      }
      decisionId := if recorded then rec.decisionId else "";
      if d.verdict == Deny {
        return DeniedStatus, decisionId;
      }
      if d.verdict == RequireApproval {
        return NotExecuted, decisionId;
      }
      if !recorded {
        return Unavailable, "";
      }
      starts := starts + [StartRequest(workflowId, ExecutionRequest(agentId, p, rec.decisionId, rec.requestHash))];
      match start
      case Started => status := Accepted;
      case AlreadyRunning => status := AlreadyRunningStatus;
      case StartFailed => status := StartFailedStatus;
    }
  }
}
