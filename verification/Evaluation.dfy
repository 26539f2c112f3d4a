/** Evaluating a proposal against a policy snapshot, at ingress and again before dispatch. */
module Evaluation {
  import opened Contracts
  import opened PolicySchema
  import opened RequestHashing

  // ---- The deny rules, one by one ---------------------------------------------------

  /** The deny reasons in the order in which the checks run. */
  const DENY_ORDER: seq<ReasonCode> :=
    [AgentUnknown, CommandUnknown, CommandNotPermitted, TargetUnregistered, TargetProtected, EnvironmentDenied]

  /** The environment mode that applies to a target, if the target is registered. */
  function ModeFor(s: Snapshot, targetId: string): Option<EnvironmentMode> {
    if targetId in s.targets && s.targets[targetId].environment in s.environments
    then Some(s.environments[s.targets[targetId].environment]) else None
  }

  predicate Applies(reason: ReasonCode, s: Snapshot, agentId: string, p: AgentProposal) {
    match reason
    case AgentUnknown => agentId !in s.agents
    case CommandUnknown => p.command !in s.commands
    case CommandNotPermitted =>
      agentId in s.agents && p.command in s.commands && p.command !in s.agents[agentId]
    case TargetUnregistered => p.targetId !in s.targets
    case TargetProtected => p.targetId in s.targets && s.targets[p.targetId].isProtected
    case EnvironmentDenied => ModeFor(s, p.targetId) == Some(ModeDeny)
    case _ => false
  }

  function Applicable(reasons: seq<ReasonCode>, s: Snapshot, agentId: string, p: AgentProposal): seq<ReasonCode> {
    if reasons == [] then []
    else (if Applies(reasons[0], s, agentId, p) then [reasons[0]] else []) + Applicable(reasons[1..], s, agentId, p)
  }

  /** Every applicable deny reason wins over the environment rule; an environment rule that is
      missing fails closed. */
  function Evaluate(current: Option<Snapshot>, agentId: string, p: AgentProposal): Decision {
    if current.None? then Decision(Deny, [PolicyUnavailable], "", "", "") else
    var s := current.value;
    var deny := Applicable(DENY_ORDER, s, agentId, p);
    var environment := if p.targetId in s.targets then s.targets[p.targetId].environment else "";
    var (verdict, reasons) :=
      if deny != [] then (Deny, deny)
      else if ModeFor(s, p.targetId) == Some(ModeRequireApproval) then (RequireApproval, [ApprovalRequired])
      else if ModeFor(s, p.targetId) == Some(ModeAllow) then (Allow, [EnvironmentAllowed])
      else (Deny, [PolicyUnavailable]);
    Decision(verdict, reasons, environment, s.version, s.digest)
  }

  /** The step-by-step evaluation, collecting deny reasons as it goes. */
  method EvaluateProposal(current: Option<Snapshot>, agentId: string, p: AgentProposal) returns (d: Decision)
    ensures d == Evaluate(current, agentId, p)
  {
    if current.None? {
      return Decision(Deny, [PolicyUnavailable], "", "", "");
    }
    var s := current.value;
    d := Decision(Deny, [], "", s.version, s.digest);
    var deny: seq<ReasonCode> := [];

    var agentKnown := agentId in s.agents;
    if !agentKnown {
      deny := deny + [AgentUnknown];
    }
    ghost var one := Single(AgentUnknown, s, agentId, p);
    assert deny == one;
    var commandKnown := p.command in s.commands;
    if !commandKnown {
      deny := deny + [CommandUnknown];
    }
    ghost var two := one + Single(CommandUnknown, s, agentId, p);
    assert deny == two;
    if agentKnown && commandKnown && p.command !in s.agents[agentId] {
      deny := deny + [CommandNotPermitted];
    }
    ghost var three := two + Single(CommandNotPermitted, s, agentId, p);
    assert deny == three;

    var targetKnown := p.targetId in s.targets;
    if !targetKnown {
      deny := deny + [TargetUnregistered];
    } else {
      d := d.(environment := s.targets[p.targetId].environment);
      if s.targets[p.targetId].isProtected {
        deny := deny + [TargetProtected];
      }
    }
    ghost var five := three + Single(TargetUnregistered, s, agentId, p) + Single(TargetProtected, s, agentId, p);
    assert deny == five;

    var mode: Option<EnvironmentMode> := None;
    if targetKnown {
      if d.environment in s.environments {
        mode := Some(s.environments[d.environment]);
      }
      if mode == Some(ModeDeny) {
        deny := deny + [EnvironmentDenied];
      }
    }
    assert mode == ModeFor(s, p.targetId);
    assert deny == five + Single(EnvironmentDenied, s, agentId, p);
    DenyListUnrolled(s, agentId, p);

    if |deny| > 0 {
      d := d.(verdict := Deny, reasons := deny);
    } else if mode == Some(ModeRequireApproval) {
      d := d.(verdict := RequireApproval, reasons := [ApprovalRequired]);
    } else if mode == Some(ModeAllow) {
      d := d.(verdict := Allow, reasons := [EnvironmentAllowed]);
    } else {
      d := d.(verdict := Deny, reasons := [PolicyUnavailable]);
    }
  }

  function Single(reason: ReasonCode, s: Snapshot, agentId: string, p: AgentProposal): seq<ReasonCode> {
    if Applies(reason, s, agentId, p) then [reason] else []
  }

  lemma TargetRulesUnrolled(s: Snapshot, agentId: string, p: AgentProposal)
    ensures Applicable(DENY_ORDER[3..], s, agentId, p) ==
            Single(TargetUnregistered, s, agentId, p) + Single(TargetProtected, s, agentId, p)
            + Single(EnvironmentDenied, s, agentId, p)
  {
    var r := DENY_ORDER;
    assert r[3..][1..] == r[4..] && r[4..][1..] == r[5..] && r[5..][1..] == [];
    assert Applicable(r[5..], s, agentId, p) == Single(EnvironmentDenied, s, agentId, p);
    assert Applicable(r[4..], s, agentId, p) == Single(TargetProtected, s, agentId, p) + Applicable(r[5..], s, agentId, p);
  }

  lemma DenyListUnrolled(s: Snapshot, agentId: string, p: AgentProposal)
    ensures Applicable(DENY_ORDER, s, agentId, p) ==
            Single(AgentUnknown, s, agentId, p) + Single(CommandUnknown, s, agentId, p)
            + Single(CommandNotPermitted, s, agentId, p) + Single(TargetUnregistered, s, agentId, p)
            + Single(TargetProtected, s, agentId, p) + Single(EnvironmentDenied, s, agentId, p)
  {
    var r := DENY_ORDER;
    assert r[1..][1..] == r[2..] && r[2..][1..] == r[3..];
    TargetRulesUnrolled(s, agentId, p);
    assert Applicable(r[2..], s, agentId, p) == Single(CommandNotPermitted, s, agentId, p) + Applicable(r[3..], s, agentId, p);
    assert Applicable(r[1..], s, agentId, p) == Single(CommandUnknown, s, agentId, p) + Applicable(r[2..], s, agentId, p);
  }

  /** The reasons of a denial are exactly the deny rules that apply. */
  lemma {:induction false} ApplicableIsExact(reasons: seq<ReasonCode>, s: Snapshot, agentId: string, p: AgentProposal, r: ReasonCode)
    ensures r in Applicable(reasons, s, agentId, p) <==> r in reasons && Applies(r, s, agentId, p)
  {
    if reasons != [] {
      ApplicableIsExact(reasons[1..], s, agentId, p, r);
    }
  }

  /** Where a rule stands in a list of rules; past its end if it is not there. */
  function Position(reasons: seq<ReasonCode>, r: ReasonCode): (i: nat)
    ensures r in reasons ==> i < |reasons| && reasons[i] == r
  {
    if reasons == [] || reasons[0] == r then 0 else 1 + Position(reasons[1..], r)
  }

  predicate Distinct(reasons: seq<ReasonCode>) {
    forall i, j :: 0 <= i < j < |reasons| ==> reasons[i] != reasons[j]
  }

  lemma TailIsDistinct(reasons: seq<ReasonCode>)
    requires reasons != [] && Distinct(reasons)
    ensures Distinct(reasons[1..]) && reasons[0] !in reasons[1..]
  {
  }

  /** The rules that apply come in the order of the list, so none comes twice. */
  lemma {:induction false} ApplicableIsOrdered(reasons: seq<ReasonCode>, s: Snapshot, agentId: string, p: AgentProposal, i: nat, j: nat)
    requires Distinct(reasons) && i < j < |Applicable(reasons, s, agentId, p)|
    ensures var deny := Applicable(reasons, s, agentId, p);
            Position(reasons, deny[i]) < Position(reasons, deny[j])
  {
    var tail := reasons[1..];
    var rest := Applicable(tail, s, agentId, p);
    TailIsDistinct(reasons);
    if Applies(reasons[0], s, agentId, p) {
      ApplicableIsExact(tail, s, agentId, p, rest[j - 1]);
      if i > 0 {
        ApplicableIsExact(tail, s, agentId, p, rest[i - 1]);
        ApplicableIsOrdered(tail, s, agentId, p, i - 1, j - 1);
      }
    } else {
      ApplicableIsExact(tail, s, agentId, p, rest[i]);
      ApplicableIsExact(tail, s, agentId, p, rest[j]);
      ApplicableIsOrdered(tail, s, agentId, p, i, j);
    }
  }

  /** No deny rule applies. */
  predicate Undenied(s: Snapshot, agentId: string, p: AgentProposal) {
    && agentId in s.agents && p.command in s.commands && p.command in s.agents[agentId]
    && p.targetId in s.targets && !s.targets[p.targetId].isProtected
    && ModeFor(s, p.targetId) != Some(ModeDeny)
  }

  lemma DenyListIsExact(s: Snapshot, agentId: string, p: AgentProposal)
    ensures var deny := Applicable(DENY_ORDER, s, agentId, p);
            && (deny == [] <==> Undenied(s, agentId, p))
            && (forall r :: r in deny <==> r in DENY_ORDER && Applies(r, s, agentId, p))
            && (forall i, j :: 0 <= i < j < |deny| ==> Position(DENY_ORDER, deny[i]) < Position(DENY_ORDER, deny[j]))
  {
    var deny := Applicable(DENY_ORDER, s, agentId, p);
    forall r ensures r in deny <==> r in DENY_ORDER && Applies(r, s, agentId, p) {
      ApplicableIsExact(DENY_ORDER, s, agentId, p, r);
    }
    forall i, j | 0 <= i < j < |deny| ensures Position(DENY_ORDER, deny[i]) < Position(DENY_ORDER, deny[j]) {
      ApplicableIsOrdered(DENY_ORDER, s, agentId, p, i, j);
    }
    DenyListUnrolled(s, agentId, p);
  }

  /** On a snapshot whose references resolve, ALLOW means exactly: a permitted command on a
      registered, unprotected target in an allow environment; DENY lists exactly the rules that
      apply, once each and in order; and the fail-closed default is never reached. */
  lemma VerdictIsExact(s: Snapshot, agentId: string, p: AgentProposal)
    requires Consistent(s)
    ensures var d := Evaluate(Some(s), agentId, p);
            && (d.verdict == Allow <==>
                  && agentId in s.agents && p.command in s.agents[agentId]
                  && p.targetId in s.targets && !s.targets[p.targetId].isProtected
                  && s.environments[s.targets[p.targetId].environment] == ModeAllow)
            && (d.verdict == Deny <==> !Undenied(s, agentId, p))
            && (d.verdict == Deny ==>
                  && d.reasons == Applicable(DENY_ORDER, s, agentId, p)
                  && (forall r :: r in d.reasons <==> r in DENY_ORDER && Applies(r, s, agentId, p))
                  && (forall i, j :: 0 <= i < j < |d.reasons| ==>
                        Position(DENY_ORDER, d.reasons[i]) < Position(DENY_ORDER, d.reasons[j])))
            && PolicyUnavailable !in d.reasons
            && (d.verdict == Allow ==> d.reasons == [EnvironmentAllowed])
            && (d.verdict == RequireApproval ==> d.reasons == [ApprovalRequired])
            && d.policyVersion == s.version && d.policyDigest == s.digest
            && d.environment == if p.targetId in s.targets then s.targets[p.targetId].environment else ""
  {
    DenyListIsExact(s, agentId, p);
    assert PolicyUnavailable !in DENY_ORDER;
  }

  /** The documented order of the checks. */
  function RuleNumber(r: ReasonCode): nat {
    match r
    case AgentUnknown => 1
    case CommandUnknown => 2
    case CommandNotPermitted => 3
    case TargetUnregistered => 4
    case TargetProtected => 5
    case EnvironmentDenied => 6
    case _ => 7
  }

  lemma RulesAreNumbered(i: nat)
    requires i < 6
    ensures RuleNumber(DENY_ORDER[i]) == i + 1
  {
  }

  /** The reasons of a denial come in the documented order. */
  lemma ReasonsComeInOrder(s: Snapshot, agentId: string, p: AgentProposal, i: nat, j: nat)
    requires Consistent(s) && Evaluate(Some(s), agentId, p).verdict == Deny
    requires i < j < |Evaluate(Some(s), agentId, p).reasons|
    ensures var reasons := Evaluate(Some(s), agentId, p).reasons; RuleNumber(reasons[i]) < RuleNumber(reasons[j]) <= 6
  {
    VerdictIsExact(s, agentId, p);
    var reasons := Evaluate(Some(s), agentId, p).reasons;
    assert reasons[i] in DENY_ORDER && reasons[j] in DENY_ORDER;
    RulesAreNumbered(Position(DENY_ORDER, reasons[i]));
    RulesAreNumbered(Position(DENY_ORDER, reasons[j]));
  }

  lemma AppliesByRule(s: Snapshot, agentId: string, p: AgentProposal)
    ensures Applies(AgentUnknown, s, agentId, p) <==> agentId !in s.agents
    ensures Applies(CommandUnknown, s, agentId, p) <==> p.command !in s.commands
    ensures Applies(CommandNotPermitted, s, agentId, p) <==>
              agentId in s.agents && p.command in s.commands && p.command !in s.agents[agentId]
    ensures Applies(TargetUnregistered, s, agentId, p) <==> p.targetId !in s.targets
    ensures Applies(TargetProtected, s, agentId, p) <==> p.targetId in s.targets && s.targets[p.targetId].isProtected
  {
  }

  lemma ReasonIffApplies(s: Snapshot, agentId: string, p: AgentProposal, i: nat)
    requires i < 6
    ensures DENY_ORDER[i] in Evaluate(Some(s), agentId, p).reasons <==> Applies(DENY_ORDER[i], s, agentId, p)
  {
    ApplicableIsExact(DENY_ORDER, s, agentId, p, DENY_ORDER[i]);
    assert DENY_ORDER[i] != ApprovalRequired && DENY_ORDER[i] != EnvironmentAllowed && DENY_ORDER[i] != PolicyUnavailable;
  }

  /** Each deny reason is given exactly when its own rule applies, whatever else applies; and
      REQUIRE_APPROVAL exactly when none does and the environment says so. */
  lemma ReasonsAreExact(s: Snapshot, agentId: string, p: AgentProposal)
    requires Consistent(s)
    ensures var d := Evaluate(Some(s), agentId, p);
            && (AgentUnknown in d.reasons <==> agentId !in s.agents)
            && (CommandUnknown in d.reasons <==> p.command !in s.commands)
            && (CommandNotPermitted in d.reasons <==>
                  agentId in s.agents && p.command in s.commands && p.command !in s.agents[agentId])
            && (TargetUnregistered in d.reasons <==> p.targetId !in s.targets)
            && (TargetProtected in d.reasons <==> p.targetId in s.targets && s.targets[p.targetId].isProtected)
            && (EnvironmentDenied in d.reasons <==>
                  p.targetId in s.targets && s.environments[s.targets[p.targetId].environment] == ModeDeny)
            && (d.verdict == RequireApproval <==>
                  && agentId in s.agents && p.command in s.agents[agentId]
                  && p.targetId in s.targets && !s.targets[p.targetId].isProtected
                  && s.environments[s.targets[p.targetId].environment] == ModeRequireApproval)
  {
    AppliesByRule(s, agentId, p);
    ReasonIffApplies(s, agentId, p, 0);
    ReasonIffApplies(s, agentId, p, 1);
    ReasonIffApplies(s, agentId, p, 2);
    ReasonIffApplies(s, agentId, p, 3);
    ReasonIffApplies(s, agentId, p, 4);
    ReasonIffApplies(s, agentId, p, 5);
    ApprovalIsExact(s, agentId, p);
  }

  lemma ApprovalIsExact(s: Snapshot, agentId: string, p: AgentProposal)
    requires Consistent(s)
    ensures Evaluate(Some(s), agentId, p).verdict == RequireApproval <==>
              && agentId in s.agents && p.command in s.agents[agentId]
              && p.targetId in s.targets && !s.targets[p.targetId].isProtected
              && s.environments[s.targets[p.targetId].environment] == ModeRequireApproval
  {
    DenyListIsExact(s, agentId, p);
  }

  // ---- Tightening -------------------------------------------------------------------

  function Strictness(v: Verdict): nat {
    match v
    case Allow => 0
    case RequireApproval => 1
    case Deny => 2
  }

  function ModeStrictness(m: EnvironmentMode): nat {
    match m
    case ModeAllow => 0
    case ModeRequireApproval => 1
    case ModeDeny => 2
  }

  /** `t` only removes agents, commands, grants or targets, adds protection, or puts a target
      under a stricter mode. */
  ghost predicate Tightens(s: Snapshot, t: Snapshot) {
    && t.commands <= s.commands
    && (forall a :: a in t.agents ==> a in s.agents && t.agents[a] <= s.agents[a])
    && (forall x :: x in t.targets ==> x in s.targets && (s.targets[x].isProtected ==> t.targets[x].isProtected))
    && (forall x :: x in t.targets ==>
          match (ModeFor(s, x), ModeFor(t, x)) {
            case (Some(m), Some(n)) => ModeStrictness(m) <= ModeStrictness(n)
            case _ => false
          })
  }

  /** No verdict becomes weaker when the policy is tightened. */
  lemma TighteningIsMonotone(s: Snapshot, t: Snapshot, agentId: string, p: AgentProposal)
    requires Consistent(s) && Consistent(t) && Tightens(s, t)
    ensures Strictness(Evaluate(Some(s), agentId, p).verdict) <= Strictness(Evaluate(Some(t), agentId, p).verdict)
  {
    VerdictIsExact(s, agentId, p);
    VerdictIsExact(t, agentId, p);
    if Undenied(t, agentId, p) {
      assert Undenied(s, agentId, p);
    }
  }

  // ---- Re-validation ----------------------------------------------------------------

  function Revalidate(current: Option<Snapshot>, req: ExecutionRequest): Decision {
    var d := Evaluate(current, req.agentId, req.proposal);
    if RequestHash(req.proposal) == req.requestHash then d
    else d.(verdict := Deny,
            reasons := (if d.verdict == Deny then d.reasons else []) + [RequestHashMismatch])
  }

  method RevalidateRequest(current: Option<Snapshot>, req: ExecutionRequest) returns (d: Decision)
    ensures d == Revalidate(current, req)
  {
    d := EvaluateProposal(current, req.agentId, req.proposal);
    var h := ComputeRequestHash(req.proposal);
    if h != req.requestHash {
      if d.verdict != Deny {
        d := d.(reasons := []);
      }
      d := d.(verdict := Deny);
      d := d.(reasons := d.reasons + [RequestHashMismatch]);
    }
  }

  /** Without a loaded policy everything is denied, for that reason alone. */
  lemma NoPolicyDenies(agentId: string, p: AgentProposal)
    ensures var d := Evaluate(None, agentId, p);
            d.verdict == Deny && d.reasons == [PolicyUnavailable] && d.environment == d.policyVersion == d.policyDigest == ""
  {
  }

  /** An ALLOW, at ingress or at re-validation, comes from a loaded policy. */
  lemma AllowNeedsPolicy(current: Option<Snapshot>, req: ExecutionRequest)
    ensures Evaluate(current, req.agentId, req.proposal).verdict == Allow ==> current.Some?
    ensures Revalidate(current, req).verdict == Allow ==> current.Some?
    ensures current.None? ==> Revalidate(current, req).verdict == Deny && PolicyUnavailable in Revalidate(current, req).reasons
  {
    NoPolicyDenies(req.agentId, req.proposal);
  }

  /** A request whose hash is not that of its proposal is denied, whatever the policy says: the deny
      reasons of the evaluation, if it denies, and then the mismatch. */
  lemma MismatchDenies(current: Option<Snapshot>, req: ExecutionRequest)
    ensures var d, e := Revalidate(current, req), Evaluate(current, req.agentId, req.proposal);
            && (req.requestHash == Sha256Hex(Canonical(req.proposal)) ==> d == e)
            && (req.requestHash != Sha256Hex(Canonical(req.proposal)) ==>
                  && d.verdict == Deny && |d.reasons| >= 1 && d.reasons[|d.reasons| - 1] == RequestHashMismatch
                  && d.reasons[..|d.reasons| - 1] == (if e.verdict == Deny then e.reasons else [])
                  && d.environment == e.environment && d.policyVersion == e.policyVersion && d.policyDigest == e.policyDigest)
  {
  }

  /** Re-validation is never weaker than evaluation, and allows exactly what evaluation allows
      for the proposal whose hash the request carries. */
  lemma RevalidationIsStricter(current: Option<Snapshot>, req: ExecutionRequest, hashed: AgentProposal)
    ensures Strictness(Evaluate(current, req.agentId, req.proposal).verdict) <= Strictness(Revalidate(current, req).verdict)
    ensures req.requestHash == RequestHash(hashed) ==>
              (Revalidate(current, req).verdict == Allow <==>
                 req.proposal == hashed && Evaluate(current, req.agentId, hashed).verdict == Allow)
  {
    RequestHashBinds(req.proposal, hashed);
  }
}

/** Binding an execution to the ingress decision that allowed it. */
module IngressBinding {
  import opened Contracts
  import opened RequestHashing

  /** The reason an execution is not backed by this record, or none. */
  function VerifyIngress(rec: DecisionRecord, req: ExecutionRequest, workflowId: string): Option<ReasonCode> {
    if rec.decisionId == "" || rec.decisionId != req.ingressDecisionId then Some(IngressNotFound)
    else if rec.stage != Ingress then Some(IngressWrongStage)
    else if rec.verdict != Allow then Some(IngressNotAllow)
    else if rec.agentId != req.agentId then Some(IngressAgentMismatch)
    else if rec.requestHash != RequestHash(req.proposal) then Some(IngressHashMismatch)
    else if rec.proposalId != req.proposal.id then Some(IngressIdentityMismatch)
    else if rec.workflowId == "" || rec.workflowId != workflowId then Some(IngressIdentityMismatch)
    else None
  }

  function CheckIngress(records: map<string, DecisionRecord>, req: ExecutionRequest, workflowId: string): Option<ReasonCode> {
    if req.ingressDecisionId == "" || req.ingressDecisionId !in records then Some(IngressNotFound)
    else VerifyIngress(records[req.ingressDecisionId], req, workflowId)
  }

  /** Verification succeeds exactly for an ingress ALLOW of this agent, this workflow and, field
      by field, the proposal that was hashed when the record was made. */
  lemma VerifyIngressIsExact(rec: DecisionRecord, req: ExecutionRequest, workflowId: string, hashed: AgentProposal)
    requires rec.requestHash == RequestHash(hashed)
    ensures VerifyIngress(rec, req, workflowId).None? <==>
              && rec.decisionId != "" && rec.decisionId == req.ingressDecisionId
              && rec.stage == Ingress && rec.verdict == Allow
              && rec.agentId == req.agentId
              && req.proposal == hashed && rec.proposalId == hashed.id
              && rec.workflowId != "" && rec.workflowId == workflowId
  {
    RequestHashBinds(hashed, req.proposal);
  }

  /** The checks of ingress verification, in the documented order. */
  function CheckNumber(reason: ReasonCode): nat {
    match reason
    case IngressNotFound => 1
    case IngressWrongStage => 2
    case IngressNotAllow => 3
    case IngressAgentMismatch => 4
    case IngressHashMismatch => 5
    case IngressIdentityMismatch => 6
    case _ => 7
  }

  /** The check with this reason fails. */
  predicate CheckFails(reason: ReasonCode, rec: DecisionRecord, req: ExecutionRequest, workflowId: string) {
    match reason
    case IngressNotFound => rec.decisionId == "" || rec.decisionId != req.ingressDecisionId
    case IngressWrongStage => rec.stage == WorkflowRevalidation
    case IngressNotAllow => rec.verdict == Deny || rec.verdict == RequireApproval
    case IngressAgentMismatch => rec.agentId != req.agentId
    case IngressHashMismatch => rec.requestHash != Sha256Hex(Canonical(req.proposal))
    case IngressIdentityMismatch => rec.proposalId != req.proposal.id || rec.workflowId == "" || rec.workflowId != workflowId
    case _ => false
  }

  /** Verification reports the first check that fails, and succeeds if none does. */
  lemma FirstFailedCheckIsReported(rec: DecisionRecord, req: ExecutionRequest, workflowId: string, reason: ReasonCode)
    ensures VerifyIngress(rec, req, workflowId) == Some(reason) <==>
              && CheckFails(reason, rec, req, workflowId)
              && forall q :: CheckNumber(q) < CheckNumber(reason) ==> !CheckFails(q, rec, req, workflowId)
    ensures VerifyIngress(rec, req, workflowId).None? <==> forall q :: !CheckFails(q, rec, req, workflowId)
  {
    var r := VerifyIngress(rec, req, workflowId);
    if r.Some? {
      assert CheckFails(r.value, rec, req, workflowId);
      forall q | CheckNumber(q) < CheckNumber(r.value) ensures !CheckFails(q, rec, req, workflowId) {
      }
      if CheckFails(reason, rec, req, workflowId) && reason != r.value {
        assert CheckNumber(r.value) < CheckNumber(reason);
      }
    }
  }

  /** A decision that is missing is reported as not found. */
  lemma MissingDecisionIsReported(records: map<string, DecisionRecord>, req: ExecutionRequest, workflowId: string)
    ensures var id := req.ingressDecisionId;
            && (id == "" || id !in records ==> CheckIngress(records, req, workflowId) == Some(IngressNotFound))
            && (id != "" && id in records ==>
                  CheckIngress(records, req, workflowId) == VerifyIngress(records[id], req, workflowId))
  {
  }
}
