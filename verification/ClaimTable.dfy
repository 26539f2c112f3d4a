/** The execution-claim table: the transition table, the owner-checked compare-and-set, and
    claiming in its two forms.  The in-memory store claims in one atomic step; the SQL store
    runs one conditional upsert and, when that changed no row, a later read. */
module ClaimTable {
  import opened Contracts

  type Claims = map<string, ExecutionClaim>

  function ClaimSources(to: ClaimState): Option<seq<ClaimState>> {
    match to
    case Executing => Some([Claimed])
    case ReconciliationRequired => Some([Executing, ReconciliationRequired])
    case Completed => Some([Executing, ReconciliationRequired, Completed])
    case Failed => Some([Executing, ReconciliationRequired, Failed])
    case Released => Some([Claimed, Released])
    case _ => None
  }

  /** The arrows of the documented state diagram, claiming apart. */
  predicate DiagramArrow(from: ClaimState, to: ClaimState) {
    || (from, to) == (Claimed, Executing)
    || (from, to) == (Claimed, Released)
    || (from, to) == (Executing, Completed)
    || (from, to) == (Executing, Failed)
    || (from, to) == (Executing, ReconciliationRequired)
    || (from, to) == (ReconciliationRequired, Completed)
    || (from, to) == (ReconciliationRequired, Failed)
  }

  /** The states an owner may ask for; CLAIMED is entered only by claiming. */
  predicate Target(to: ClaimState) {
    to in {Executing, ReconciliationRequired, Completed, Failed, Released}
  }

  /** A row that has passed the fence: the adapter call may have started. */
  predicate Fenced(state: ClaimState) {
    state in {Executing, ReconciliationRequired, Completed, Failed}
  }

  /** Past EXECUTING: the outcome is being found out or is recorded. */
  predicate Resolving(state: ClaimState) {
    state == ReconciliationRequired || Final(state)
  }

  predicate Final(state: ClaimState) {
    state == Completed || state == Failed
  }

  predicate Permits(to: ClaimState, from: ClaimState) {
    ClaimSources(to).Some? && from in ClaimSources(to).value
  }

  /** The table is the documented diagram plus, for every target except the fence, a repeat
      of the transition that produced the state. */
  lemma SourcesMatchDiagram(from: ClaimState, to: ClaimState)
    ensures Permits(to, from) <==> DiagramArrow(from, to) || (from == to && Target(to) && to != Executing)
  {
    match to
    case Executing => assert ClaimSources(to).value == [Claimed];
    case ReconciliationRequired => assert ClaimSources(to).value == [Executing, ReconciliationRequired];
    case Completed => assert ClaimSources(to).value == [Executing, ReconciliationRequired, Completed];
    case Failed => assert ClaimSources(to).value == [Executing, ReconciliationRequired, Failed];
    case Released => assert ClaimSources(to).value == [Claimed, Released];
    case _ => assert ClaimSources(to).None?;
  }

  function ExecutionKey(decisionId: string): string {
    "sentrygate.exec.v1:" + decisionId
  }

  lemma ExecutionKeyInjective(a: string, b: string)
    requires ExecutionKey(a) == ExecutionKey(b)
    ensures a == b
  {
    var n := |"sentrygate.exec.v1:"|;
    assert a == ExecutionKey(a)[n..] && b == ExecutionKey(b)[n..];
  }

  /** The key is the versioned prefix, then the decision ID. */
  lemma ExecutionKeyText(decisionId: string)
    ensures ExecutionKey(decisionId)[..19] == "sentrygate.exec.v1:" && ExecutionKey(decisionId)[19..] == decisionId
  {
  }

  // ---- AdvanceClaim -----------------------------------------------------------------

  predicate MayAdvance(claims: Claims, id: string, owner: ClaimOwner, to: ClaimState) {
    id in claims && claims[id].owner == owner && Permits(to, claims[id].state)
  }

  /** The compare-and-set of AdvanceClaim. */
  function Advanced(claims: Claims, id: string, owner: ClaimOwner, to: ClaimState): Claims {
    if MayAdvance(claims, id, owner, to) then claims[id := claims[id].(state := to)] else claims
  }

  /** A permitted transition moves the caller's own row to the new state and nothing else; any other
      leaves the table as it is. */
  lemma AdvanceIsExact(claims: Claims, id: string, owner: ClaimOwner, to: ClaimState)
    ensures var after := Advanced(claims, id, owner, to);
            && after.Keys == claims.Keys
            && (forall d :: d in claims && d != id ==> after[d] == claims[d])
            && (id in claims ==> after[id].owner == claims[id].owner && after[id].decisionId == claims[id].decisionId)
            && (id in claims ==>
                  after[id].state == if MayAdvance(claims, id, owner, to) then to else claims[id].state)
  {
  }

  // ---- ClaimExecution, one atomic step ----------------------------------------------

  datatype ClaimReply = Granted | Held(claim: ExecutionClaim) | DecisionNotFound | InvalidClaim

  predicate Takeable(claims: Claims, id: string) {
    id !in claims || claims[id].state == Released
  }

  predicate HeldInClaimedBy(claims: Claims, id: string, owner: ClaimOwner) {
    id in claims && claims[id].owner == owner && claims[id].state == Claimed
  }

  function AtomicReply(known: set<string>, claims: Claims, id: string, owner: ClaimOwner): ClaimReply {
    if id == "" || !owner.Valid() then InvalidClaim
    else if id !in known then DecisionNotFound
    else if Takeable(claims, id) then Granted
    else if HeldInClaimedBy(claims, id, owner) then Granted
    else Held(claims[id])
  }

  // ---- ClaimExecution, one statement and a later read -------------------------------

  /** The upsert changes the row: insert, or conflict update of a RELEASED row. */
  predicate UpsertChanges(known: set<string>, claims: Claims, id: string, owner: ClaimOwner) {
    id != "" && owner.Valid() && id in known && Takeable(claims, id)
  }

  function Upserted(known: set<string>, claims: Claims, id: string, owner: ClaimOwner): Claims {
    if UpsertChanges(known, claims, id, owner) then claims[id := ExecutionClaim(id, owner, Claimed)] else claims
  }

  /** How the follow-up read reports a claim that the statement did not acquire. */
  function ReadReply(claims: Claims, id: string, owner: ClaimOwner): ClaimReply
    requires id in claims
  {
    if HeldInClaimedBy(claims, id, owner) then Granted else Held(claims[id])
  }

  /** The reply of the SQL form when other callers turn the table into `later` between the
      statement and the read. */
  function TwoStepReply(known: set<string>, claims: Claims, later: Claims, id: string, owner: ClaimOwner): ClaimReply
    requires forall d :: d in claims ==> d in later
  {
    if id == "" || !owner.Valid() then InvalidClaim
    else if id !in known then DecisionNotFound
    else if UpsertChanges(known, claims, id, owner) then Granted
    else ReadReply(later, id, owner)
  }

  /** Whatever runs between statement and read: a grant means the row was CLAIMED by the
      caller right after the statement or at the read, "held" means the call changed nothing
      and the reported claim blocks the caller, and an error reply means nothing changed. */
  lemma TwoStepClaimIsSafe(known: set<string>, claims: Claims, later: Claims, id: string, owner: ClaimOwner)
    requires forall d :: d in claims ==> d in later
    ensures var reply := TwoStepReply(known, claims, later, id, owner);
            && (reply == Granted ==> HeldInClaimedBy(Upserted(known, claims, id, owner), id, owner)
                                     || HeldInClaimedBy(later, id, owner))
            && (reply.Held? ==> Upserted(known, claims, id, owner) == claims
                                && reply.claim == later[id] && !HeldInClaimedBy(later, id, owner))
            && (reply == DecisionNotFound ==> Upserted(known, claims, id, owner) == claims && id !in known)
            && (reply == InvalidClaim ==> Upserted(known, claims, id, owner) == claims)
  {
  }

  /** The same reply, up to the claim that is reported. */
  predicate Alike(a: ClaimReply, b: ClaimReply) {
    a == b || (a.Held? && b.Held?)
  }

  /** The two-step reply is what one atomic call would have answered at the statement or at the
      read, except exactly when the caller already held the row CLAIMED at the statement and the
      row was RELEASED by the read: both atomic calls grant, and this one reports a held claim. */
  lemma TwoStepClaimIsAtomicUnlessReleased(known: set<string>, claims: Claims, later: Claims, id: string, owner: ClaimOwner)
    requires forall d :: d in claims ==> d in later
    ensures var reply := TwoStepReply(known, claims, later, id, owner);
            Alike(reply, AtomicReply(known, claims, id, owner)) || Alike(reply, AtomicReply(known, later, id, owner))
            <==> !(id != "" && owner.Valid() && id in known
                   && HeldInClaimedBy(claims, id, owner) && later[id].state == Released)
  {
  }

  /** With nothing between statement and read the two forms give one answer and one table. */
  lemma TwoStepClaimRefinesAtomic(known: set<string>, claims: Claims, id: string, owner: ClaimOwner)
    ensures TwoStepReply(known, claims, Upserted(known, claims, id, owner), id, owner)
            == AtomicReply(known, claims, id, owner)
    ensures AtomicReply(known, claims, id, owner).Held? ==> Upserted(known, claims, id, owner) == claims
    ensures AtomicReply(known, claims, id, owner) == Granted ==>
              HeldInClaimedBy(Upserted(known, claims, id, owner), id, owner)
  {
  }

  // ---- What every write keeps -------------------------------------------------------

  /** One row never loses what it has reached: rows are never removed, a fenced row keeps its
      owner and stays fenced, a row past EXECUTING does not return to it, and a final row keeps
      its state. */
  predicate RowsKeep(before: Claims, after: Claims) {
    forall d :: d in before ==>
      && d in after
      && (Fenced(before[d].state) ==> after[d].owner == before[d].owner && Fenced(after[d].state))
      && (Resolving(before[d].state) ==> Resolving(after[d].state))
      && (Final(before[d].state) ==> after[d] == before[d])
  }

  lemma RowsKeepTransitive(a: Claims, b: Claims, c: Claims)
    requires RowsKeep(a, b) && RowsKeep(b, c)
    ensures RowsKeep(a, c)
  {
  }

  lemma AdvanceKeepsRows(claims: Claims, id: string, owner: ClaimOwner, to: ClaimState)
    ensures RowsKeep(claims, Advanced(claims, id, owner, to))
    ensures forall d :: d in claims && (d != id || claims[d].owner != owner) ==>
              Advanced(claims, id, owner, to)[d] == claims[d]
    ensures Advanced(claims, id, owner, to).Keys == claims.Keys
  {
    if id in claims {
      SourcesMatchDiagram(claims[id].state, to);
    }
  }

  lemma UpsertKeepsRows(known: set<string>, claims: Claims, id: string, owner: ClaimOwner)
    ensures RowsKeep(claims, Upserted(known, claims, id, owner))
    ensures forall d :: d in claims && d != id ==> Upserted(known, claims, id, owner)[d] == claims[d]
  {
  }

  // ---- Every sequence of store writes -----------------------------------------------

  datatype StoreWrite =
    | ClaimWrite(id: string, owner: ClaimOwner)
    | AdvanceWrite(id: string, owner: ClaimOwner, to: ClaimState)

  function AfterWrite(known: set<string>, claims: Claims, op: StoreWrite): Claims {
    match op
    case ClaimWrite(id, owner) => Upserted(known, claims, id, owner)
    case AdvanceWrite(id, owner, to) => Advanced(claims, id, owner, to)
  }

  lemma WriteKeepsRows(known: set<string>, claims: Claims, op: StoreWrite)
    ensures RowsKeep(claims, AfterWrite(known, claims, op))
    ensures forall d :: d in claims && d != op.id ==> AfterWrite(known, claims, op)[d] == claims[d]
  {
    match op
    case ClaimWrite(id, owner) => UpsertKeepsRows(known, claims, id, owner);
    case AdvanceWrite(id, owner, to) => AdvanceKeepsRows(claims, id, owner, to);
  }

  function AfterWrites(known: set<string>, claims: Claims, ops: seq<StoreWrite>): Claims
    decreases |ops|
  {
    if ops == [] then claims else AfterWrites(known, AfterWrite(known, claims, ops[0]), ops[1..])
  }

  predicate AcquiresFence(claims: Claims, id: string, op: StoreWrite) {
    op.AdvanceWrite? && op.id == id && op.to == Executing && MayAdvance(claims, id, op.owner, Executing)
  }

  /** How many of the writes moved decision `id` through the fence. */
  function FenceCount(known: set<string>, claims: Claims, id: string, ops: seq<StoreWrite>): nat
    decreases |ops|
  {
    if ops == [] then 0
    else (if AcquiresFence(claims, id, ops[0]) then 1 else 0)
         + FenceCount(known, AfterWrite(known, claims, ops[0]), id, ops[1..])
  }

  /** A caller that holds a claim, asks again, and whose release commits before the read is told
      that the claim is held, although an atomic call would have been granted at either moment. */
  lemma TwoStepClaimCanDiffer(known: set<string>, id: string, owner: ClaimOwner)
    requires id != "" && id in known && owner.Valid()
    ensures var claims: Claims := map[id := ExecutionClaim(id, owner, Claimed)];
            var later := AfterWrites(known, claims, [AdvanceWrite(id, owner, Released)]);
            && id in later && TwoStepReply(known, claims, later, id, owner) == Held(later[id])
            && AtomicReply(known, claims, id, owner) == Granted && AtomicReply(known, later, id, owner) == Granted
  {
    SourcesMatchDiagram(Claimed, Released);
    var claims: Claims := map[id := ExecutionClaim(id, owner, Claimed)];
    var ops := [AdvanceWrite(id, owner, Released)];
    var after := AfterWrite(known, claims, ops[0]);
    assert ops[1..] == [] && AfterWrites(known, after, ops[1..]) == after;
  }

  /** Over any sequence of writes by any callers, rows keep what they reached and writes on
      other decisions leave a row alone. */
  lemma {:induction false} WritesKeepRows(known: set<string>, claims: Claims, ops: seq<StoreWrite>, id: string)
    ensures RowsKeep(claims, AfterWrites(known, claims, ops))
    ensures id in claims && (forall op :: op in ops ==> op.id != id) ==>
              id in AfterWrites(known, claims, ops) && AfterWrites(known, claims, ops)[id] == claims[id]
    decreases |ops|
  {
    if ops != [] {
      var next := AfterWrite(known, claims, ops[0]);
      WriteKeepsRows(known, claims, ops[0]);
      WritesKeepRows(known, next, ops[1..], id);
      RowsKeepTransitive(claims, next, AfterWrites(known, next, ops[1..]));
    }
  }

  /** The fence of one decision is acquired at most once over any sequence of writes, and
      never once the row is past it. */
  lemma {:induction false} FenceAcquiredAtMostOnce(known: set<string>, claims: Claims, id: string, ops: seq<StoreWrite>)
    ensures FenceCount(known, claims, id, ops) <= 1
    ensures id in claims && Fenced(claims[id].state) ==> FenceCount(known, claims, id, ops) == 0
    decreases |ops|
  {
    if ops != [] {
      var next := AfterWrite(known, claims, ops[0]);
      WriteKeepsRows(known, claims, ops[0]);
      if id in claims {
        SourcesMatchDiagram(claims[id].state, Executing);
      }
      FenceAcquiredAtMostOnce(known, next, id, ops[1..]);
    }
  }
}
