/** The running system: decision records, execution claims, the adapter's ledger, the audit
    table, the active policy, and any number of workflow runs with their activity attempts.

    One step is one SQL statement, one adapter call, one event delivered to a workflow, or one
    move of the environment.  Attempts of a scheduled activity may run at any later time, also
    after the workflow gave up waiting; a write may commit while its answer is lost; a reset
    creates a run that replays a prefix of another run's history; workflows may be started
    with any request under any ID; and the policy may change at any step. */
module GateSystem {
  import opened Contracts
  import opened PolicySchema
  import opened RequestHashing
  import opened Evaluation
  import opened IngressBinding
  import opened ClaimTable
  import opened AdapterContract
  import opened SagaWorkflow

  /** One attempt of the dispatch activity, from its fence write on. */
  datatype Attempt =
    | NeedsRead                       // the fence was refused; the claim is about to be read
    | Acquired                        // the fence committed; the adapter is about to be called
    | Called(outcome: DispatchOutcome)
    | Over(answer: Answer)            // ended without calling the adapter

  /** A workflow run.  `base` is the state it was created in: the start, or the replay of the
      prefix it inherited.  `scheduled` counts how often it scheduled each activity; `closed`
      holds the activities that have no attempt left; `answers` what its own attempts reported.
      `took` says that a claim statement of the run changed the row and that no release
      statement of it has run since; it steers nothing.  `reverts` counts the attempts of its
      compensation. */
  datatype Run = Run(
    wid: string, token: string, req: ExecutionRequest,
    base: Local, history: seq<Event>, w: Local,
    scheduled: multiset<Op>, closed: set<Op>, answers: set<Receipt>,
    claimReads: nat, took: bool, attempts: seq<Attempt>, reverts: nat)

  datatype FenceEntry = FenceEntry(run: string, attempt: nat)

  datatype AdapterCall = AdapterCall(
    run: string, attempt: nat, decisionId: string, agentId: string, request: DispatchRequest)

  /** What the ingress handler evaluated when it stored a record. */
  datatype IngressEntry = IngressEntry(agentId: string, proposal: AgentProposal, epoch: nat)

  datatype AuditKey = AuditKey(proposalId: string, runId: string, phase: AuditPhase, sequence: nat)

  datatype AuditRow = AuditRow(workflowId: string, verdict: AuditVerdict, targetId: string, command: string)

  /** `limit` bounds the attempts of one scheduled dispatch activity.  `fences`, `calls`,
      `compensations` and `ingress` record what happened and steer nothing. */
  datatype State = State(
    limit: nat,
    records: map<string, DecisionRecord>,
    claims: Claims,
    ledger: Ledger,
    audits: map<AuditKey, AuditRow>,
    policies: seq<Option<Snapshot>>,
    runs: map<string, Run>,
    ingress: map<string, IngressEntry>,
    fences: map<string, FenceEntry>,
    calls: seq<AdapterCall>,
    compensations: seq<string>)

  function Initial(limit: nat): State {
    State(limit, map[], map[], EmptyLedger, map[], [None], map[], map[], map[], [], [])
  }

  datatype WriteFate = Delivered | LostAfterCommit | LostBeforeCommit

  datatype Step =
    | ChangePolicy(policy: Option<Snapshot>)
    | Intercept(agentId: string, proposal: AgentProposal, decisionId: string, epoch: nat)
    | StartRun(rid: string, wid: string, token: string, req: ExecutionRequest)
    | ResetRun(rid: string, from: string, length: nat, token: string)
    | Deliver(rid: string, event: Event)
    | CloseOp(rid: string, op: Op)
    | VerifyAttempt(rid: string)
    | EvaluateAttempt(rid: string)
    | RecordAttempt(rid: string, decision: Decision, reply: bool)
    | AuditAttempt(rid: string, index: nat, entry: AuditEntry, reply: bool)
    | ClaimStatement(rid: string, reply: bool)
    | ClaimReadBack(rid: string, reply: bool)
    | AdvanceAttempt(rid: string, op: Op, reply: bool)
    | FenceWrite(rid: string, fate: WriteFate)
    | FenceReadBack(rid: string, attempt: nat, readable: bool)
    | AdapterDispatch(rid: string, attempt: nat, effect: Option<Effect>, answer: DispatchOutcome)
    | AdapterReconcile(rid: string, round: nat, effect: Option<Effect>, answer: DispatchOutcome)
    | AdapterCompensate(rid: string, reply: bool)
    | LateEffect(key: string, late: Effect)

  // ---- Identities -------------------------------------------------------------------

  function Owner(rid: string, run: Run): ClaimOwner {
    ClaimOwner(run.wid, rid, run.token)
  }

  function DecisionOf(run: Run): string {
    run.req.ingressDecisionId
  }

  function KeyOf(run: Run): string {
    ExecutionKey(DecisionOf(run))
  }

  /** The record of an ingress decision. */
  function IngressRecord(id: string, agentId: string, p: AgentProposal, d: Decision): DecisionRecord {
    DecisionRecord(id, Ingress, p.id, agentId, RequestHash(p), p.command, p.targetId, d.environment,
                   d.verdict, d.reasons, d.policyVersion, d.policyDigest,
                   if d.verdict == Allow then "saga-" + p.id else "")
  }

  /** The record a run writes for its own re-validation or rejection. */
  function RunRecord(rid: string, run: Run, d: Decision): DecisionRecord {
    var p := run.req.proposal;
    DecisionRecord("wf_" + run.wid + "_" + rid, WorkflowRevalidation, p.id, run.req.agentId, RequestHash(p),
                   p.command, p.targetId, d.environment, d.verdict, d.reasons, d.policyVersion, d.policyDigest,
                   run.wid)
  }

  function RunAuditKey(rid: string, run: Run, index: nat, entry: AuditEntry): AuditKey {
    AuditKey(run.req.proposal.id, rid, entry.phase, index + 1)
  }

  function RunAuditRow(run: Run, entry: AuditEntry): AuditRow {
    AuditRow(run.wid, entry.verdict, run.req.proposal.targetId, run.req.proposal.command)
  }

  /** The columns of a record, one by one: who asked for what, and what was decided. */
  predicate RecordSays(rec: DecisionRecord, agentId: string, p: AgentProposal, d: Decision) {
    && rec.proposalId == p.id && rec.agentId == agentId && rec.requestHash == RequestHash(p)
    && rec.command == p.command && rec.targetId == p.targetId
    && rec.environment == d.environment && rec.verdict == d.verdict && rec.reasons == d.reasons
    && rec.policyVersion == d.policyVersion && rec.policyDigest == d.policyDigest
  }

  /** The record of an ingress decision is stored; it names a workflow exactly for an ALLOW. */
  predicate IngressStored(records: map<string, DecisionRecord>, id: string, agentId: string, p: AgentProposal, d: Decision) {
    && id in records && records[id].decisionId == id && records[id].stage == Ingress
    && RecordSays(records[id], agentId, p, d)
    && records[id].workflowId == if d.verdict == Allow then "saga-" + p.id else ""
  }

  /** The run's record of a decision is stored. */
  predicate RunStored(records: map<string, DecisionRecord>, rid: string, run: Run, d: Decision) {
    var id := "wf_" + run.wid + "_" + rid;
    && id in records && records[id].decisionId == id && records[id].stage == WorkflowRevalidation
    && RecordSays(records[id], run.req.agentId, run.req.proposal, d) && records[id].workflowId == run.wid
  }

  /** The columns of an audit row, one by one; sequence numbers start at 1. */
  predicate RowSays(key: AuditKey, row: AuditRow, rid: string, run: Run, index: nat, entry: AuditEntry) {
    && key.proposalId == run.req.proposal.id && key.runId == rid && key.phase == entry.phase && key.sequence == index + 1
    && row.workflowId == run.wid && row.verdict == entry.verdict
    && row.targetId == run.req.proposal.targetId && row.command == run.req.proposal.command
  }

  /** The run's audit row is stored, with its verdict. */
  predicate RowStored(s: State, rid: string, run: Run, index: nat, entry: AuditEntry) {
    var key := AuditKey(run.req.proposal.id, rid, entry.phase, index + 1);
    key in s.audits && RowSays(key, s.audits[key], rid, run, index, entry)
  }

  // ---- Small moves ------------------------------------------------------------------

  /** Inserts a record unless its ID is taken; an identical record is accepted. */
  function Appended(records: map<string, DecisionRecord>, rec: DecisionRecord): map<string, DecisionRecord> {
    if rec.WellFormed() && rec.decisionId !in records then records[rec.decisionId := rec] else records
  }

  predicate Stored(records: map<string, DecisionRecord>, rec: DecisionRecord) {
    rec.decisionId in records && records[rec.decisionId] == rec
  }

  function AuditAppended(audits: map<AuditKey, AuditRow>, key: AuditKey, row: AuditRow): map<AuditKey, AuditRow> {
    if key.proposalId != "" && key !in audits then audits[key := row] else audits
  }

  function Epoch(s: State): nat {
    if s.policies == [] then 0 else |s.policies| - 1
  }

  function CurrentPolicy(s: State): Option<Snapshot> {
    if s.policies == [] then None else s.policies[Epoch(s)]
  }

  function Created(wid: string, token: string, req: ExecutionRequest, history: seq<Event>): Run {
    var w := Replay(history);
    Run(wid, token, req, w, history, w, multiset{Awaits(w)}, {}, {}, 0, false, [], 0)
  }

  /** How a refused fence is classified after reading the claim back. */
  function FenceVerdict(claims: Claims, id: string, owner: ClaimOwner, readable: bool): Answer {
    if !readable then FenceUnknown
    else if id in claims && claims[id].owner == owner && claims[id].state != Released then FenceUnknown
    else FenceRejected
  }

  predicate Runnable(s: State, rid: string, op: Op) {
    rid in s.runs && op in s.runs[rid].scheduled && op !in s.runs[rid].closed
  }

  /** The state that a claim transition asks for; EXECUTING is reserved for dispatch and RELEASED
      for the release. */
  function Destination(op: Op): Option<ClaimState> {
    match op
    case ReleaseOp => Some(Released)
    case MarkOp(to) => if to == Executing || to == Released then None else Some(to)
    case _ => None
  }

  predicate Deliverable(run: Run, e: Event) {
    match e
    case Answered(a) => Awaits(run.w) != NoOp && Receipt(Awaits(run.w), a) in run.answers
    case NoAnswer => Awaits(run.w) != NoOp
    case TokenIssued => run.w.pc.AwaitingToken?
    case TokenFailed => run.w.pc.AwaitingToken?
    case TimerFired => run.w.pc.ReconcileWaiting?
    case ReconciliationStopped => run.w.pc.ReconcileWaiting?
  }

  // ---- Steps ------------------------------------------------------------------------

  predicate Enabled(s: State, step: Step) {
    match step
    case ChangePolicy(_) => true
    case Intercept(_, _, _, epoch) => epoch < |s.policies|
    case StartRun(rid, _, _, _) => rid !in s.runs
    case ResetRun(rid, from, length, token) =>
      && rid !in s.runs && from in s.runs && length <= |s.runs[from].history|
      && (TokenIssued in s.runs[from].history[..length] ==> token == s.runs[from].token)
    case Deliver(rid, e) => rid in s.runs && Deliverable(s.runs[rid], e)
    case CloseOp(rid, _) => rid in s.runs
    case VerifyAttempt(rid) => Runnable(s, rid, VerifyOp)
    case EvaluateAttempt(rid) => Runnable(s, rid, EvaluateOp)
    case RecordAttempt(rid, d, _) => Runnable(s, rid, RecordOp(d))
    case AuditAttempt(rid, index, entry, _) => Runnable(s, rid, AuditOp(index, entry))
    case ClaimStatement(rid, _) => Runnable(s, rid, ClaimOp)
    case ClaimReadBack(rid, _) =>
      rid in s.runs && s.runs[rid].claimReads > 0 && DecisionOf(s.runs[rid]) in s.claims
    case AdvanceAttempt(rid, op, _) => Runnable(s, rid, op) && Destination(op).Some?
    case FenceWrite(rid, _) =>
      Runnable(s, rid, DispatchOp) && |s.runs[rid].attempts| < s.limit * s.runs[rid].scheduled[DispatchOp]
    case FenceReadBack(rid, i, _) =>
      rid in s.runs && i < |s.runs[rid].attempts| && s.runs[rid].attempts[i] == NeedsRead
    case AdapterDispatch(rid, i, effect, answer) =>
      && rid in s.runs && i < |s.runs[rid].attempts| && s.runs[rid].attempts[i] == Acquired
      && DispatchMay(s.ledger, KeyOf(s.runs[rid]), effect, answer)
    case AdapterReconcile(rid, round, effect, answer) =>
      Runnable(s, rid, ReconcileOp(round)) && ReconcileMay(s.ledger, KeyOf(s.runs[rid]), effect, answer)
    case AdapterCompensate(rid, _) =>
      Runnable(s, rid, CompensateOp) && s.runs[rid].reverts < s.runs[rid].scheduled[CompensateOp]
    case LateEffect(key, _) => exists i :: 0 <= i < |s.calls| && s.calls[i].request.idempotencyKey == key
  }

  /** The run a step is about, if it is about an existing one. */
  function Subject(step: Step): Option<string> {
    match step
    case ChangePolicy(_) => None
    case Intercept(_, _, _, _) => None
    case StartRun(_, _, _, _) => None
    case ResetRun(_, _, _, _) => None
    case LateEffect(_, _) => None
    case _ => Some(step.rid)
  }

  /** A step, table by table. */
  function After(s: State, step: Step): State
    requires Enabled(s, step)
  {
    State(
      s.limit,
      RecordsAfter(s, step),
      ClaimsAfter(s, step),
      LedgerAfter(s, step),
      AuditsAfter(s, step),
      if step.ChangePolicy? then s.policies + [step.policy] else s.policies,
      RunsAfter(s, step),
      if step.Intercept? && Records(s, step)
      then s.ingress[step.decisionId := IngressEntry(step.agentId, step.proposal, step.epoch)] else s.ingress,
      if step.FenceWrite? && Commits(s, step.rid, step.fate)
      then s.fences[DecisionOf(s.runs[step.rid]) := FenceEntry(step.rid, |s.runs[step.rid].attempts|)] else s.fences,
      if step.AdapterDispatch? then s.calls + [CallOf(s, step.rid, step.attempt)] else s.calls,
      if step.AdapterCompensate? then s.compensations + [step.rid] else s.compensations)
  }

  // ---- Records: ingress decisions and the runs' own decisions -----------------------

  /** The record the ingress handler writes: evaluated first, under a policy that was active
      then, and recorded before anything is started. */
  function Intercepted(s: State, step: Step): DecisionRecord
    requires step.Intercept? && Enabled(s, step)
  {
    IngressRecord(step.decisionId, step.agentId, step.proposal,
                  Evaluate(s.policies[step.epoch], step.agentId, step.proposal))
  }

  predicate Records(s: State, step: Step)
    requires step.Intercept? && Enabled(s, step)
  {
    Intercepted(s, step).WellFormed() && step.decisionId !in s.records
  }

  function RecordsAfter(s: State, step: Step): map<string, DecisionRecord>
    requires Enabled(s, step)
  {
    match step
    case Intercept(_, _, _, _) => Appended(s.records, Intercepted(s, step))
    case RecordAttempt(rid, d, _) => Appended(s.records, RunRecord(rid, s.runs[rid], d))
    case _ => s.records
  }

  function AuditsAfter(s: State, step: Step): map<AuditKey, AuditRow>
    requires Enabled(s, step)
  {
    match step
    case AuditAttempt(rid, index, entry, _) =>
      AuditAppended(s.audits, RunAuditKey(rid, s.runs[rid], index, entry), RunAuditRow(s.runs[rid], entry))
    case _ => s.audits
  }

  // ---- Claims -----------------------------------------------------------------------

  /** The fence write of a dispatch attempt commits. */
  predicate Commits(s: State, rid: string, fate: WriteFate)
    requires rid in s.runs
  {
    var run := s.runs[rid];
    && DecisionOf(run) != "" && run.token != "" && fate != LostBeforeCommit
    && MayAdvance(s.claims, DecisionOf(run), Owner(rid, run), Executing)
  }

  function ClaimsAfter(s: State, step: Step): Claims
    requires Enabled(s, step)
  {
    match step
    case ClaimStatement(rid, _) =>
      Upserted(s.records.Keys, s.claims, DecisionOf(s.runs[rid]), Owner(rid, s.runs[rid]))
    case AdvanceAttempt(rid, op, _) =>
      Advanced(s.claims, DecisionOf(s.runs[rid]), Owner(rid, s.runs[rid]), Destination(op).value)
    case FenceWrite(rid, fate) =>
      if Commits(s, rid, fate) then Advanced(s.claims, DecisionOf(s.runs[rid]), Owner(rid, s.runs[rid]), Executing)
      else s.claims
    case _ => s.claims
  }

  // ---- The adapter ------------------------------------------------------------------

  function LedgerAfter(s: State, step: Step): Ledger
    requires Enabled(s, step)
  {
    match step
    case AdapterDispatch(rid, _, effect, _) => Settled(s.ledger, KeyOf(s.runs[rid]), effect)
    case AdapterReconcile(rid, _, effect, _) => Settled(s.ledger, KeyOf(s.runs[rid]), effect)
    case LateEffect(key, late) => Settled(s.ledger, key, Some(late))
    case _ => s.ledger
  }

  function CallOf(s: State, rid: string, attempt: nat): AdapterCall
    requires rid in s.runs
  {
    var run := s.runs[rid];
    AdapterCall(rid, attempt, DecisionOf(run), run.req.agentId, DispatchRequest(KeyOf(run), run.req.proposal))
  }

  // ---- Runs -------------------------------------------------------------------------

  function RunsAfter(s: State, step: Step): map<string, Run>
    requires Enabled(s, step)
  {
    match step
    case StartRun(rid, wid, token, req) => s.runs[rid := Created(wid, token, req, [])]
    case ResetRun(rid, from, length, token) =>
      s.runs[rid := Created(s.runs[from].wid, token, s.runs[from].req, s.runs[from].history[..length])]
    case Deliver(rid, e) => s.runs[rid := Delivering(s.runs[rid], e)]
    case _ => if Subject(step).Some? then s.runs[step.rid := Attempted(s, step)] else s.runs
  }

  /** The workflow takes in one event and schedules what it waits for next. */
  function Delivering(run: Run, e: Event): Run {
    var w := Advance(run.w, e);
    run.(history := run.history + [e], w := w, scheduled := run.scheduled + multiset{Awaits(w)})
  }

  /** An attempt of one of the run's activities moves. */
  function Attempted(s: State, step: Step): Run
    requires Enabled(s, step) && Subject(step).Some?
  {
    var run := s.runs[step.rid];
    run.(
      closed := if step.CloseOp? then run.closed + {step.op} else run.closed,
      answers := (match NewAnswer(s, step) case Some(r) => run.answers + {r} case None => run.answers),
      claimReads :=
        if step.ClaimReadBack? then run.claimReads - 1
        else if step.ClaimStatement? && ReadsBack(s, step.rid) then run.claimReads + 1
        else run.claimReads,
      took := TookAfter(s, step),
      attempts := AttemptsAfter(s, step),
      reverts := if step.AdapterCompensate? then run.reverts + 1 else run.reverts)
  }

  function TookAfter(s: State, step: Step): bool
    requires Enabled(s, step) && Subject(step).Some?
  {
    var run := s.runs[step.rid];
    match step
    case ClaimStatement(rid, _) => run.took || UpsertChanges(s.records.Keys, s.claims, DecisionOf(run), Owner(rid, run))
    case AdvanceAttempt(_, op, _) => run.took && op != ReleaseOp
    case _ => run.took
  }

  /** The upsert changed no row of an existing decision, so the claim is read back. */
  predicate ReadsBack(s: State, rid: string)
    requires rid in s.runs
  {
    var id, owner := DecisionOf(s.runs[rid]), Owner(rid, s.runs[rid]);
    id != "" && owner.Valid() && id in s.records && !UpsertChanges(s.records.Keys, s.claims, id, owner)
  }

  /** The state of a dispatch attempt right after its fence write. */
  function Fencing(s: State, rid: string, fate: WriteFate): Attempt
    requires rid in s.runs
  {
    if DecisionOf(s.runs[rid]) == "" || s.runs[rid].token == "" then Over(FenceRejected)
    else if fate != Delivered then Over(FenceUnknown)
    else if Commits(s, rid, fate) then Acquired
    else NeedsRead
  }

  function AttemptsAfter(s: State, step: Step): seq<Attempt>
    requires Enabled(s, step) && Subject(step).Some?
  {
    var attempts := s.runs[step.rid].attempts;
    match step
    case FenceWrite(rid, fate) => attempts + [Fencing(s, rid, fate)]
    case FenceReadBack(rid, i, readable) => attempts[i := Over(ReadVerdict(s, rid, readable))]
    case AdapterDispatch(rid, i, _, answer) => attempts[i := Called(answer.Checked())]
    case _ => attempts
  }

  function ReadVerdict(s: State, rid: string, readable: bool): Answer
    requires rid in s.runs
  {
    FenceVerdict(s.claims, DecisionOf(s.runs[rid]), Owner(rid, s.runs[rid]), readable)
  }

  /** What the attempt reports, unless the answer is lost. */
  function NewAnswer(s: State, step: Step): Option<Receipt>
    requires Enabled(s, step) && Subject(step).Some?
  {
    var rid, run := step.rid, s.runs[step.rid];
    var id, owner := DecisionOf(run), Owner(step.rid, run);
    match step
    case VerifyAttempt(_) =>
      var reason := CheckIngress(s.records, run.req, run.wid);
      Some(Receipt(VerifyOp, if reason.None? then IngressValid else IngressInvalid(reason.value)))
    case EvaluateAttempt(_) => Some(Receipt(EvaluateOp, Evaluated(Revalidate(CurrentPolicy(s), run.req), Epoch(s))))
    case RecordAttempt(_, d, reply) =>
      if reply && Stored(RecordsAfter(s, step), RunRecord(rid, run, d)) then Some(Receipt(RecordOp(d), Done)) else None
    case AuditAttempt(_, index, entry, reply) =>
      var key, audits := RunAuditKey(rid, run, index, entry), AuditsAfter(s, step);
      if reply && key in audits && audits[key] == RunAuditRow(run, entry) then Some(Receipt(AuditOp(index, entry), Done))
      else None
    case ClaimStatement(_, reply) =>
      if reply && UpsertChanges(s.records.Keys, s.claims, id, owner) then Some(Receipt(ClaimOp, ClaimGranted(Epoch(s))))
      else None
    case ClaimReadBack(_, reply) =>
      var granted := ReadReply(s.claims, id, owner) == Granted;
      if reply then Some(Receipt(ClaimOp, if granted then ClaimGranted(Epoch(s)) else ClaimHeld)) else None
    case AdvanceAttempt(_, op, reply) =>
      var ok := MayAdvance(s.claims, id, owner, Destination(op).value);
      if reply then Some(Receipt(op, if ok then Done else Refused)) else None
    case FenceWrite(_, fate) =>
      var attempt := Fencing(s, rid, fate);
      if attempt.Over? then Some(Receipt(DispatchOp, attempt.answer)) else None
    case FenceReadBack(_, _, readable) => Some(Receipt(DispatchOp, ReadVerdict(s, rid, readable)))
    case AdapterDispatch(_, _, _, answer) => Some(Receipt(DispatchOp, Reported(answer.Checked())))
    case AdapterReconcile(_, round, _, answer) => Some(Receipt(ReconcileOp(round), Reported(answer.Checked())))
    case AdapterCompensate(_, reply) => if reply then Some(Receipt(CompensateOp, Done)) else None
    case _ => None
  }

  // ---- Executions -------------------------------------------------------------------

  /** The state after a sequence of steps, if each was enabled in turn. */
  function Exec(limit: nat, steps: seq<Step>): Option<State> {
    if steps == [] then Some(Initial(limit))
    else
      var before := Exec(limit, steps[..|steps| - 1]);
      var step := steps[|steps| - 1];
      if before.Some? && Enabled(before.value, step) then Some(After(before.value, step)) else None
  }

  /** `s` is reached by `steps` from an empty system. */
  ghost predicate Reaches(limit: nat, steps: seq<Step>, s: State) {
    Exec(limit, steps) == Some(s)
  }
}
