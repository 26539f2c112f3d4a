/** What an infrastructure adapter must guarantee, as a relation on a ledger of idempotency
    keys, so that it covers adapters other than the simulated one.

    A key is open until the target settles it, once: the change was applied, was applied in
    part and then rejected, or the key is barred and can never take effect.  A request that
    left the adapter may settle its key later, after the call returned UNKNOWN. */
module AdapterContract {
  import opened Contracts

  datatype Effect = Applied | PartlyApplied | Barred

  /** `effects` holds the settled keys; `mutations` counts how often a key changed the target. */
  datatype Ledger = Ledger(effects: map<string, Effect>, mutations: map<string, nat>) {
    function Count(key: string): nat {
      if key in mutations then mutations[key] else 0
    }

    /** A key changed the target once if it settled as applied, in full or in part, and never
        otherwise. */
    ghost predicate Sound() {
      forall key :: Count(key) == if key in effects && effects[key] != Barred then 1 else 0
    }
  }

  const EmptyLedger := Ledger(map[], map[])

  /** Settles an open key; a settled key keeps its effect. */
  function Settled(l: Ledger, key: string, effect: Option<Effect>): Ledger {
    if effect.None? || key in l.effects then l
    else if effect.value == Barred then l.(effects := l.effects[key := Barred])
    else Ledger(l.effects[key := effect.value], l.mutations[key := l.Count(key) + 1])
  }

  /** SUCCESS and FAILURE are confirmed by the target: they name the settled effect. */
  predicate Truthful(l: Ledger, key: string, answer: DispatchOutcome) {
    match answer.status
    case Success => key in l.effects && l.effects[key] == Applied
    case Failure =>
      key in l.effects && l.effects[key] == (if answer.partiallyApplied then PartlyApplied else Barred)
    case _ => true
  }

  /** Dispatch may settle the key in any way, or leave it open, and answers truthfully. */
  predicate DispatchMay(l: Ledger, key: string, effect: Option<Effect>, answer: DispatchOutcome) {
    Truthful(Settled(l, key, effect), key, answer)
  }

  /** Reconcile applies nothing: it may only bar an open key. */
  predicate ReconcileMay(l: Ledger, key: string, effect: Option<Effect>, answer: DispatchOutcome) {
    && (effect.Some? ==> effect.value == Barred)
    && Truthful(Settled(l, key, effect), key, answer)
  }

  ghost predicate LedgerGrows(a: Ledger, b: Ledger) {
    && (forall key :: key in a.effects ==> key in b.effects && b.effects[key] == a.effects[key])
    && (forall key :: key in a.effects ==> b.Count(key) == a.Count(key))
  }

  lemma SettledIsSound(l: Ledger, key: string, effect: Option<Effect>)
    requires l.Sound()
    ensures Settled(l, key, effect).Sound()
    ensures LedgerGrows(l, Settled(l, key, effect))
  {
    var l' := Settled(l, key, effect);
    forall k ensures l'.Count(k) == if k in l'.effects && l'.effects[k] != Barred then 1 else 0 {
      assert l.Count(k) == if k in l.effects && l.effects[k] != Barred then 1 else 0;
    }
  }

  /** A truthful answer stays truthful. */
  lemma TruthLasts(a: Ledger, b: Ledger, key: string, answer: DispatchOutcome)
    requires LedgerGrows(a, b) && Truthful(a, key, answer)
    ensures Truthful(b, key, answer)
  {
  }
}

/** The deterministic in-memory adapter. */
module SimulatedTarget {
  import opened Contracts
  import opened AdapterContract

  const FAILING_NODE := "FAILING_NODE"
  const LOST_RESPONSE_NODE := "LOST_RESPONSE_NODE"
  const UNREACHABLE_NODE := "UNREACHABLE_NODE"
  const PARTITIONED_NODE := "PARTITIONED_NODE"

  datatype Sim = Sim(
    effects: map<string, DispatchOutcome>, mutations: map<string, nat>, compensations: map<string, nat>)

  const NewSim := Sim(map[], map[], map[])

  datatype SimCall =
    | DispatchCall(req: DispatchRequest, ended: bool)
    | ReconcileCall(req: DispatchRequest, ended: bool)
    | CompensateCall(req: DispatchRequest, ended: bool)
  {
    function Key(): string { req.idempotencyKey }
  }

  function Bump(counts: map<string, nat>, key: string): map<string, nat> {
    counts[key := (if key in counts then counts[key] else 0) + 1]
  }

  const AppliedOutcome := DispatchOutcome(Success, false, "simulated: change applied")
  const PartlyOutcome := DispatchOutcome(Failure, true, "simulated: change partly applied, then rejected by target")
  const NotSentOutcome :=
    DispatchOutcome(Failure, false, "simulated: not sent, context ended before dispatch; key fenced")
  const NoRecordOutcome :=
    DispatchOutcome(Failure, false, "simulated: target has no record of this key; key fenced so it cannot take effect later")

  /** What a call records for a key it has not seen, and whether it changes the target. */
  function Recorded(call: SimCall): Option<DispatchOutcome> {
    match call
    case DispatchCall(req, ended) =>
      if ended then Some(NotSentOutcome)
      else if req.proposal.targetId == FAILING_NODE then Some(PartlyOutcome)
      else if req.proposal.targetId == UNREACHABLE_NODE || req.proposal.targetId == PARTITIONED_NODE then None
      else Some(AppliedOutcome)
    case ReconcileCall(req, ended) =>
      if ended || req.proposal.targetId == PARTITIONED_NODE then None else Some(NoRecordOutcome)
    case CompensateCall(_, _) => None
  }

  function AfterCall(sim: Sim, call: SimCall): Sim {
    if call.CompensateCall? then
      if call.ended then sim else sim.(compensations := Bump(sim.compensations, call.Key()))
    else if call.Key() in sim.effects || Recorded(call).None? then sim
    else
      var effect := Recorded(call).value;
      var effects := sim.effects[call.Key() := effect];
      if EffectOf(effect) != Barred
      then sim.(effects := effects, mutations := Bump(sim.mutations, call.Key()))
      else sim.(effects := effects)
  }

  /** The outcome a dispatch or reconciliation returns. */
  function Answer(sim: Sim, call: SimCall): DispatchOutcome {
    if call.ReconcileCall? && call.ended then UnknownOutcome("simulated: reconciliation cancelled")
    else if call.Key() in sim.effects then sim.effects[call.Key()]
    else match Recorded(call)
      case None =>
        UnknownOutcome(if call.ReconcileCall? then "simulated: target not reachable for status queries"
                       else "simulated: no response from target")
      case Some(effect) =>
        if call.DispatchCall? && !call.ended && call.req.proposal.targetId == LOST_RESPONSE_NODE
        then UnknownOutcome("simulated: change applied but the response was lost")
        else effect
  }

  /** The ledger of settled keys behind the adapter's record. */
  function LedgerOf(sim: Sim): Ledger {
    Ledger(map key | key in sim.effects :: EffectOf(sim.effects[key]), sim.mutations)
  }

  function EffectOf(o: DispatchOutcome): Effect {
    if o.status.Success? then Applied else if o.partiallyApplied then PartlyApplied else Barred
  }

  /** A recorded effect is a confirmed outcome. */
  predicate Definite(o: DispatchOutcome) {
    o.status.Failure? || (o.status.Success? && !o.partiallyApplied)
  }

  ghost predicate SimValid(sim: Sim) {
    && LedgerOf(sim).Sound()
    && forall key :: key in sim.effects ==> Definite(sim.effects[key])
  }

  function Settles(call: SimCall): Option<Effect> {
    match Recorded(call)
    case None => None
    case Some(o) => Some(EffectOf(o))
  }

  lemma RecordedIsDefinite(call: SimCall)
    ensures Recorded(call).Some? ==> Definite(Recorded(call).value)
    ensures call.CompensateCall? ==> Recorded(call).None?
    ensures call.ReconcileCall? && Recorded(call).Some? ==> EffectOf(Recorded(call).value) == Barred
  {
  }

  lemma CallSettlesKey(sim: Sim, call: SimCall, recorded: Option<DispatchOutcome>)
    requires SimValid(sim)
    requires recorded == Recorded(call)
    requires recorded.Some? ==> Definite(recorded.value)
    requires call.CompensateCall? ==> recorded.None?
    ensures LedgerOf(AfterCall(sim, call)) == Settled(LedgerOf(sim), call.Key(), Settles(call))
    ensures SimValid(AfterCall(sim, call))
  {
    var l, l' := LedgerOf(sim), LedgerOf(AfterCall(sim, call));
    if recorded.Some? && call.Key() !in sim.effects {
      assert l'.effects == l.effects[call.Key() := EffectOf(recorded.value)];
    }
    assert l' == Settled(l, call.Key(), Settles(call));
    SettledIsSound(l, call.Key(), Settles(call));
  }

  /** Every call by the simulated adapter is one its contract allows: dispatch and reconcile
      settle a key as the ledger says, reconcile applies nothing, compensation settles nothing. */
  lemma SimulatedMeetsContract(sim: Sim, call: SimCall)
    requires SimValid(sim)
    ensures SimValid(AfterCall(sim, call))
    ensures LedgerOf(AfterCall(sim, call)) == Settled(LedgerOf(sim), call.Key(), Settles(call))
    ensures call.DispatchCall? ==> DispatchMay(LedgerOf(sim), call.Key(), Settles(call), Answer(sim, call))
    ensures call.ReconcileCall? ==> ReconcileMay(LedgerOf(sim), call.Key(), Settles(call), Answer(sim, call))
    ensures call.CompensateCall? ==> LedgerOf(AfterCall(sim, call)) == LedgerOf(sim)
  {
    RecordedIsDefinite(call);
    CallSettlesKey(sim, call, Recorded(call));
  }

  function AfterCalls(sim: Sim, calls: seq<SimCall>): Sim
    decreases |calls|
  {
    if calls == [] then sim else AfterCalls(AfterCall(sim, calls[0]), calls[1..])
  }

  lemma {:induction false} CallsKeepEffects(sim: Sim, calls: seq<SimCall>)
    requires SimValid(sim)
    ensures SimValid(AfterCalls(sim, calls))
    ensures forall key :: key in sim.effects ==>
              key in AfterCalls(sim, calls).effects && AfterCalls(sim, calls).effects[key] == sim.effects[key]
    decreases |calls|
  {
    if calls != [] {
      SimulatedMeetsContract(sim, calls[0]);
      CallsKeepEffects(AfterCall(sim, calls[0]), calls[1..]);
    }
  }

  /** Over every sequence of calls from a new adapter: a key changes the target at most once,
      exactly when its effect is SUCCESS or a partial FAILURE. */
  lemma EachKeyTakesEffectAtMostOnce(calls: seq<SimCall>, key: string)
    ensures var sim := AfterCalls(NewSim, calls);
            && LedgerOf(sim).Count(key) <= 1
            && (LedgerOf(sim).Count(key) == 1 <==>
                  key in sim.effects && (sim.effects[key].status.Success? || sim.effects[key].partiallyApplied))
  {
    CallsKeepEffects(NewSim, calls);
    var sim := AfterCalls(NewSim, calls);
    assert LedgerOf(sim).Count(key) == if key in LedgerOf(sim).effects && LedgerOf(sim).effects[key] != Barred then 1 else 0;
  }

  /** A confirmed answer is the key's effect after the call and after any later calls. */
  lemma ConfirmedAnswerIsFinal(before: seq<SimCall>, call: SimCall, after: seq<SimCall>)
    ensures var sim := AfterCalls(NewSim, before);
            var end := AfterCalls(AfterCall(sim, call), after);
            !call.CompensateCall? && Answer(sim, call).Confirmed() ==>
              && call.Key() in end.effects
              && end.effects[call.Key()] == Answer(sim, call)
  {
    CallsKeepEffects(NewSim, before);
    var sim := AfterCalls(NewSim, before);
    SimulatedMeetsContract(sim, call);
    CallsKeepEffects(AfterCall(sim, call), after);
  }

  // ---- What each target answers -----------------------------------------------------

  /** A target that none of the four fixed failures belongs to. */
  predicate Ordinary(target: string) {
    target != "FAILING_NODE" && target != "LOST_RESPONSE_NODE" && target != "UNREACHABLE_NODE" && target != "PARTITIONED_NODE"
  }

  /** A recorded key answers with its record, and nothing changes. */
  lemma SeenKeyAnswersItsRecord(sim: Sim, req: DispatchRequest, ended: bool)
    requires req.idempotencyKey in sim.effects
    ensures Answer(sim, DispatchCall(req, ended)) == sim.effects[req.idempotencyKey]
    ensures !ended ==> Answer(sim, ReconcileCall(req, ended)) == sim.effects[req.idempotencyKey]
    ensures ended ==> Answer(sim, ReconcileCall(req, ended)).status.Unknown?
    ensures AfterCall(sim, DispatchCall(req, ended)) == sim == AfterCall(sim, ReconcileCall(req, ended))
  {
  }

  /** The first dispatch of a key, target by target. */
  lemma FirstDispatch(sim: Sim, req: DispatchRequest)
    requires req.idempotencyKey !in sim.effects
    ensures var o, after, key := Answer(sim, DispatchCall(req, false)), AfterCall(sim, DispatchCall(req, false)), req.idempotencyKey;
            && (Ordinary(req.proposal.targetId) ==>
                  o.status.Success? && !o.partiallyApplied && key in after.effects && after.effects[key] == o)
            && (req.proposal.targetId == "FAILING_NODE" ==>
                  o.status.Failure? && o.partiallyApplied && key in after.effects && after.effects[key] == o)
            && (req.proposal.targetId == "LOST_RESPONSE_NODE" ==>
                  o.status.Unknown? && key in after.effects && after.effects[key].status.Success?)
            && (req.proposal.targetId == "UNREACHABLE_NODE" || req.proposal.targetId == "PARTITIONED_NODE" ==>
                  o.status.Unknown? && after == sim)
  {
  }

  lemma FirstEndedDispatch(sim: Sim, req: DispatchRequest)
    requires req.idempotencyKey !in sim.effects
    ensures var o, after, key := Answer(sim, DispatchCall(req, true)), AfterCall(sim, DispatchCall(req, true)), req.idempotencyKey;
            o.status.Failure? && !o.partiallyApplied && key in after.effects && after.effects[key] == o
  {
  }

  lemma FirstReconcile(sim: Sim, req: DispatchRequest, ended: bool)
    requires req.idempotencyKey !in sim.effects
    ensures var o, after, key := Answer(sim, ReconcileCall(req, ended)), AfterCall(sim, ReconcileCall(req, ended)), req.idempotencyKey;
            if ended || req.proposal.targetId == "PARTITIONED_NODE" then o.status.Unknown? && after == sim
            else o.status.Failure? && !o.partiallyApplied && key in after.effects && after.effects[key] == o
  {
  }

  /** Whatever calls follow, a recorded key keeps its record and its number of changes. */
  lemma RecordLasts(before: seq<SimCall>, call: SimCall, after: seq<SimCall>, key: string)
    requires key in AfterCall(AfterCalls(NewSim, before), call).effects
    ensures var at, end := AfterCall(AfterCalls(NewSim, before), call), AfterCalls(AfterCall(AfterCalls(NewSim, before), call), after);
            && key in end.effects && end.effects[key] == at.effects[key]
            && LedgerOf(end).Count(key) == if at.effects[key].status.Success? || at.effects[key].partiallyApplied then 1 else 0
  {
    CallsKeepEffects(NewSim, before);
    var sim := AfterCalls(NewSim, before);
    SimulatedMeetsContract(sim, call);
    CallsKeepEffects(AfterCall(sim, call), after);
    var end := AfterCalls(AfterCall(sim, call), after);
    assert LedgerOf(end).Count(key) == if key in LedgerOf(end).effects && LedgerOf(end).effects[key] != Barred then 1 else 0;
  }

  /** A dispatch of a new key, after any calls and before any others: what it answers, how often the
      key changes the target in the end, and what reconciliation reports later. */
  lemma DispatchByTarget(before: seq<SimCall>, req: DispatchRequest, after: seq<SimCall>)
    requires req.idempotencyKey !in AfterCalls(NewSim, before).effects
    ensures var sim := AfterCalls(NewSim, before);
            var o, next := Answer(sim, DispatchCall(req, false)), AfterCall(sim, DispatchCall(req, false));
            var end, key, target := AfterCalls(next, after), req.idempotencyKey, req.proposal.targetId;
            && (Ordinary(target) ==> o.status.Success? && LedgerOf(end).Count(key) == 1)
            && (target == "FAILING_NODE" ==> o.status.Failure? && o.partiallyApplied && LedgerOf(end).Count(key) == 1)
            && (target == "LOST_RESPONSE_NODE" ==>
                  o.status.Unknown? && LedgerOf(end).Count(key) == 1 && Answer(end, ReconcileCall(req, false)).status.Success?)
            && (target == "UNREACHABLE_NODE" || target == "PARTITIONED_NODE" ==> o.status.Unknown? && next == sim)
  {
    var sim, call := AfterCalls(NewSim, before), DispatchCall(req, false);
    FirstDispatch(sim, req);
    if req.idempotencyKey in AfterCall(sim, call).effects {
      RecordLasts(before, call, after, req.idempotencyKey);
      SeenKeyAnswersItsRecord(AfterCalls(AfterCall(sim, call), after), req, false);
    }
  }

  /** A dispatch of a new key whose context has ended is not sent: FAILURE, and no change ever. */
  lemma EndedDispatchNeverApplies(before: seq<SimCall>, req: DispatchRequest, after: seq<SimCall>)
    requires req.idempotencyKey !in AfterCalls(NewSim, before).effects
    ensures var sim := AfterCalls(NewSim, before);
            var o, end := Answer(sim, DispatchCall(req, true)), AfterCalls(AfterCall(sim, DispatchCall(req, true)), after);
            o.status.Failure? && !o.partiallyApplied && LedgerOf(end).Count(req.idempotencyKey) == 0
  {
    FirstEndedDispatch(AfterCalls(NewSim, before), req);
    RecordLasts(before, DispatchCall(req, true), after, req.idempotencyKey);
  }

  /** Reconciling a new key bars it, unless the target cannot be asked: FAILURE, and no later call,
      dispatch included, changes the target for it. */
  lemma ReconcileBarsNewKeys(before: seq<SimCall>, req: DispatchRequest, after: seq<SimCall>)
    requires req.idempotencyKey !in AfterCalls(NewSim, before).effects
    ensures var sim := AfterCalls(NewSim, before);
            var o, next := Answer(sim, ReconcileCall(req, false)), AfterCall(sim, ReconcileCall(req, false));
            if req.proposal.targetId == "PARTITIONED_NODE" then o.status.Unknown? && next == sim
            else o.status.Failure? && !o.partiallyApplied && LedgerOf(AfterCalls(next, after)).Count(req.idempotencyKey) == 0
  {
    FirstReconcile(AfterCalls(NewSim, before), req, false);
    if req.proposal.targetId != "PARTITIONED_NODE" {
      RecordLasts(before, ReconcileCall(req, false), after, req.idempotencyKey);
    }
  }

  function Tally(counts: map<string, nat>, key: string): nat {
    if key in counts then counts[key] else 0
  }

  /** Compensation adds one to its own key's count, and touches nothing else. */
  lemma CompensationCounts(sim: Sim, req: DispatchRequest, ended: bool, key: string)
    ensures var after := AfterCall(sim, CompensateCall(req, ended));
            && after.effects == sim.effects && after.mutations == sim.mutations
            && Tally(after.compensations, key) ==
               Tally(sim.compensations, key) + if key == req.idempotencyKey && !ended then 1 else 0
  {
  }

  /** The adapter itself: three maps updated call by call. */
  class SimulatedAdapter {
    var effects: map<string, DispatchOutcome>
    var mutations: map<string, nat>
    var compensations: map<string, nat>

    function State(): Sim
      reads this
    {
      Sim(effects, mutations, compensations)
    }

    constructor ()
      ensures State() == NewSim
    {
      effects, mutations, compensations := map[], map[], map[];
    }

    method Apply(key: string, effect: DispatchOutcome) returns (o: DispatchOutcome)
      modifies this
      ensures o == effect
      ensures State() == Sim(old(effects)[key := effect], Bump(old(mutations), key), old(compensations))
    {
      effects := effects[key := effect];
      mutations := mutations[key := (if key in mutations then mutations[key] else 0) + 1];
      o := effect;
    }

    method Fence(key: string, detail: string) returns (o: DispatchOutcome)
      modifies this
      ensures o == DispatchOutcome(Failure, false, detail)
      ensures State() == Sim(old(effects)[key := o], old(mutations), old(compensations))
    {
      o := DispatchOutcome(Failure, false, detail);
      effects := effects[key := o];
    }

    method Dispatch(req: DispatchRequest, ended: bool) returns (o: DispatchOutcome)
      modifies this
      ensures State() == AfterCall(old(State()), DispatchCall(req, ended))
      ensures o == Answer(old(State()), DispatchCall(req, ended))
      // The first dispatch of a key, target by target.
      ensures compensations == old(compensations)
      ensures req.idempotencyKey in old(effects) ==> o == old(effects)[req.idempotencyKey] && State() == old(State())
      ensures req.idempotencyKey !in old(effects) && ended ==>
                && o.status.Failure? && !o.partiallyApplied
                && effects == old(effects)[req.idempotencyKey := o] && mutations == old(mutations)
      ensures req.idempotencyKey !in old(effects) && !ended && Ordinary(req.proposal.targetId) ==>
                && o.status.Success? && effects == old(effects)[req.idempotencyKey := o]
                && Tally(mutations, req.idempotencyKey) == Tally(old(mutations), req.idempotencyKey) + 1
      ensures req.idempotencyKey !in old(effects) && !ended && req.proposal.targetId == "FAILING_NODE" ==>
                && o.status.Failure? && o.partiallyApplied && effects == old(effects)[req.idempotencyKey := o]
                && Tally(mutations, req.idempotencyKey) == Tally(old(mutations), req.idempotencyKey) + 1
      ensures req.idempotencyKey !in old(effects) && !ended && req.proposal.targetId == "LOST_RESPONSE_NODE" ==>
                && o.status.Unknown? && req.idempotencyKey in effects && effects[req.idempotencyKey].status.Success?
                && Tally(mutations, req.idempotencyKey) == Tally(old(mutations), req.idempotencyKey) + 1
      ensures req.idempotencyKey !in old(effects) && !ended
              && (req.proposal.targetId == "UNREACHABLE_NODE" || req.proposal.targetId == "PARTITIONED_NODE") ==>
                o.status.Unknown? && State() == old(State())
    {
      var key, target := req.idempotencyKey, req.proposal.targetId;
      if key in effects {
        return effects[key];
      }
      if ended {
        o := Fence(key, "simulated: not sent, context ended before dispatch; key fenced");
        return;
      }
      if target == FAILING_NODE {
        o := Apply(key, DispatchOutcome(Failure, true, "simulated: change partly applied, then rejected by target"));
      } else if target == LOST_RESPONSE_NODE {
        var _ := Apply(key, DispatchOutcome(Success, false, "simulated: change applied"));
        o := UnknownOutcome("simulated: change applied but the response was lost");
      } else if target == UNREACHABLE_NODE || target == PARTITIONED_NODE {
        o := UnknownOutcome("simulated: no response from target");
      } else {
        o := Apply(key, DispatchOutcome(Success, false, "simulated: change applied"));
      }
    }

    method Reconcile(req: DispatchRequest, ended: bool) returns (o: DispatchOutcome)
      modifies this
      ensures State() == AfterCall(old(State()), ReconcileCall(req, ended))
      ensures o == Answer(old(State()), ReconcileCall(req, ended))
      // It changes nothing at the target, and bars a key it finds no record of.
      ensures mutations == old(mutations) && compensations == old(compensations)
      ensures ended ==> o.status.Unknown? && State() == old(State())
      ensures !ended && req.idempotencyKey in old(effects) ==> o == old(effects)[req.idempotencyKey] && State() == old(State())
      ensures !ended && req.idempotencyKey !in old(effects) && req.proposal.targetId == "PARTITIONED_NODE" ==>
                o.status.Unknown? && State() == old(State())
      ensures !ended && req.idempotencyKey !in old(effects) && req.proposal.targetId != "PARTITIONED_NODE" ==>
                o.status.Failure? && !o.partiallyApplied && effects == old(effects)[req.idempotencyKey := o]
    {
      if ended {
        return UnknownOutcome("simulated: reconciliation cancelled");
      }
      if req.idempotencyKey in effects {
        return effects[req.idempotencyKey];
      }
      if req.proposal.targetId == PARTITIONED_NODE {
        return UnknownOutcome("simulated: target not reachable for status queries");
      }
      o := Fence(req.idempotencyKey,
                 "simulated: target has no record of this key; key fenced so it cannot take effect later");
    }

    method Compensate(req: DispatchRequest, ended: bool) returns (ok: bool)
      modifies this
      ensures State() == AfterCall(old(State()), CompensateCall(req, ended))
      ensures ok == !ended
      ensures effects == old(effects) && mutations == old(mutations)
      ensures forall key :: Tally(compensations, key) ==
                              Tally(old(compensations), key) + if key == req.idempotencyKey && ok then 1 else 0
    {
      if ended {
        return false;
      }
      compensations := Bump(compensations, req.idempotencyKey);
      ok := true;
    }
  }
}
