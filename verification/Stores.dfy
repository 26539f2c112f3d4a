/** The two stores as they are written: the in-process one, whose operations are atomic, and the
    SQL one, whose claim is a statement followed by a read. */
module Stores {
  import opened Contracts
  import opened ClaimTable
  import opened GateSystem

  datatype AppendReply = Appended' | InvalidRecord | Conflict

  datatype AdvanceReply = Moved' | NotHeld

  /** The index points every decision ID to its one record. */
  ghost predicate Indexed(records: seq<DecisionRecord>, byId: map<string, nat>) {
    && (forall d :: d in byId ==> byId[d] < |records| && records[byId[d]].decisionId == d)
    && (forall i :: 0 <= i < |records| ==> records[i].decisionId in byId && byId[records[i].decisionId] == i)
  }

  ghost function TableOf(records: seq<DecisionRecord>, byId: map<string, nat>): map<string, DecisionRecord>
    requires Indexed(records, byId)
  {
    map d | d in byId :: records[byId[d]]
  }

  lemma IndexExtends(records: seq<DecisionRecord>, byId: map<string, nat>, rec: DecisionRecord)
    requires Indexed(records, byId) && rec.decisionId !in byId
    ensures Indexed(records + [rec], byId[rec.decisionId := |records|])
    ensures TableOf(records + [rec], byId[rec.decisionId := |records|]) == TableOf(records, byId)[rec.decisionId := rec]
  {
  }

  class MemoryStore {
    var records: seq<DecisionRecord>
    var byId: map<string, nat>
    var claims: Claims

    ghost predicate Valid()
      reads this
    {
      && Indexed(records, byId)
      && (forall d :: d in claims ==> d in byId && claims[d].decisionId == d)
    }

    /** The decision table behind the list and its index. */
    ghost function Table(): map<string, DecisionRecord>
      reads this
      requires Valid()
    {
      TableOf(records, byId)
    }

    constructor ()
      ensures Valid() && Table() == map[] && claims == map[]
    {
      records, byId, claims := [], map[], map[];
    }

    /** Writes a record once: an identical record is accepted, another one with its ID is not. */
    method AppendDecision(rec: DecisionRecord) returns (reply: AppendReply)
      requires Valid()
      modifies this`records, this`byId
      ensures Valid()
      ensures Table() == GateSystem.Appended(old(Table()), rec)
      ensures reply == Appended' <==> rec.WellFormed() && Stored(Table(), rec)
      ensures reply == InvalidRecord <==> rec.decisionId == "" || rec.proposalId == "" || rec.requestHash == PlainText("")
      ensures reply == Conflict <==>
                && rec.decisionId != "" && rec.proposalId != "" && rec.requestHash != PlainText("")
                && rec.decisionId in old(Table()) && old(Table())[rec.decisionId] != rec
      ensures reply == Appended' ==> records == old(records) || records == old(records) + [rec]
      ensures old(records) <= records
    {
      if !rec.WellFormed() {
        return InvalidRecord;
      }
      if rec.decisionId in byId {
        if records[byId[rec.decisionId]] == rec {
          return Appended';
        }
        return Conflict;
      }
      IndexExtends(records, byId, rec);
      byId := byId[rec.decisionId := |records|];
      records := records + [rec];
      reply := Appended';
    }

    method GetDecision(id: string) returns (rec: Option<DecisionRecord>)
      requires Valid()
      ensures rec == if id in Table() then Some(Table()[id]) else None
    {
      if id !in byId {
        return None;
      }
      rec := Some(records[byId[id]]);
    }

    method ClaimExecution(id: string, owner: ClaimOwner) returns (reply: ClaimReply)
      requires Valid()
      modifies this`claims
      ensures Valid()
      ensures reply == AtomicReply(Table().Keys, old(claims), id, owner)
      ensures claims == Upserted(Table().Keys, old(claims), id, owner)
      ensures reply == Granted <==> HeldInClaimedBy(claims, id, owner) && id != "" && owner.Valid()
    {
      if id == "" || !owner.Valid() {
        return InvalidClaim;
      }
      if id !in byId {
        return DecisionNotFound;
      }
      if id !in claims || claims[id].state == Released {
        claims := claims[id := ExecutionClaim(id, owner, Claimed)];
        return Granted;
      }
      if claims[id].owner == owner && claims[id].state == Claimed {
        return Granted;
      }
      reply := Held(claims[id]);
    }

    method AdvanceClaim(id: string, owner: ClaimOwner, to: ClaimState) returns (reply: AdvanceReply)
      requires Valid()
      modifies this`claims
      ensures Valid()
      ensures reply == Moved' <==> MayAdvance(old(claims), id, owner, to)
      ensures claims == Advanced(old(claims), id, owner, to)
      ensures RowsKeep(old(claims), claims)
      ensures reply == Moved' ==> claims == old(claims)[id := ExecutionClaim(id, owner, to)]
      ensures reply == NotHeld ==> claims == old(claims)
    {
      AdvanceKeepsRows(claims, id, owner, to);
      var from := ClaimSources(to);
      if from.None? {
        return NotHeld;
      }
      if id !in claims || claims[id].owner != owner || claims[id].state !in from.value {
        return NotHeld;
      }
      claims := claims[id := claims[id].(state := to)];
      reply := Moved';
    }

    method GetClaim(id: string) returns (claim: Option<ExecutionClaim>)
      ensures claim == if id in claims then Some(claims[id]) else None
    {
      claim := if id in claims then Some(claims[id]) else None;
    }
  }

  /** The SQL store.  `known` is the decision table's key column; each method named after a
      statement is one statement. */
  class SqlStore {
    var known: set<string>
    var rows: Claims

    ghost predicate Valid()
      reads this
    {
      forall d :: d in rows ==> d in known
    }

    constructor (decisions: set<string>)
      ensures Valid() && known == decisions && rows == map[]
    {
      known, rows := decisions, map[];
    }

    /** INSERT ... ON CONFLICT DO UPDATE ... WHERE state = 'RELEASED'.  A foreign key that does
        not resolve is an error; otherwise the number of rows changed. */
    method UpsertStatement(id: string, owner: ClaimOwner) returns (changed: Option<nat>)
      requires Valid() && id != "" && owner.Valid()
      modifies this`rows
      ensures Valid()
      ensures changed.None? <==> id !in known
      ensures changed.Some? ==> changed.value == if UpsertChanges(known, old(rows), id, owner) then 1 else 0
      ensures rows == Upserted(known, old(rows), id, owner)
    {
      if id !in known {
        return None;
      }
      if id in rows && rows[id].state != Released {
        return Some(0);
      }
      rows := rows[id := ExecutionClaim(id, owner, Claimed)];
      changed := Some(1);
    }

    /** Statements of other callers, in some order. */
    method Interfere(ops: seq<StoreWrite>)
      requires Valid()
      modifies this`rows
      ensures Valid()
      ensures rows == AfterWrites(known, old(rows), ops)
      ensures RowsKeep(old(rows), rows)
    {
      WritesKeepRows(known, rows, ops, "");
      WritesStayKnown(known, rows, ops);
      rows := AfterWrites(known, rows, ops);
    }

    /** Claims with any writes of other callers between the statement and the read. */
    method ClaimExecution(id: string, owner: ClaimOwner, others: seq<StoreWrite>) returns (reply: ClaimReply)
      requires Valid()
      modifies this`rows
      ensures Valid()
      ensures id == "" || !owner.Valid() ==> reply == InvalidClaim && rows == old(rows)
      ensures id != "" && owner.Valid() && id !in known ==> reply == DecisionNotFound && rows == old(rows)
      ensures id != "" && owner.Valid() && id in known ==>
                && rows == AfterWrites(known, Upserted(known, old(rows), id, owner), others)
                && RowsKeep(old(rows), rows)
                && reply == TwoStepReply(known, old(rows), rows, id, owner)
      ensures reply == Granted ==> HeldInClaimedBy(Upserted(known, old(rows), id, owner), id, owner) || HeldInClaimedBy(rows, id, owner)
      ensures reply.Held? ==> Upserted(known, old(rows), id, owner) == old(rows)
    {
      if id == "" || !owner.Valid() {
        return InvalidClaim;
      }
      UpsertKeepsRows(known, rows, id, owner);
      var changed := UpsertStatement(id, owner);
      if changed.None? {
        return DecisionNotFound;
      }
      Interfere(others);
      TwoStepClaimIsSafe(known, old(rows), rows, id, owner);
      if changed.value == 1 {
        return Granted;
      }
      var claim := rows[id];
      if claim.owner == owner && claim.state == Claimed {
        return Granted;
      }
      reply := Held(claim);
    }

    /** UPDATE ... WHERE owner AND state IN (...). */
    method AdvanceClaim(id: string, owner: ClaimOwner, to: ClaimState) returns (reply: AdvanceReply)
      requires Valid()
      modifies this`rows
      ensures Valid()
      ensures reply == Moved' <==> MayAdvance(old(rows), id, owner, to)
      ensures rows == Advanced(old(rows), id, owner, to)
      ensures reply == Moved' ==> id in rows && rows[id].owner == owner && rows[id].state == to
      ensures reply == NotHeld ==> rows == old(rows)
    {
      var from := ClaimSources(to);
      if from.None? {
        return NotHeld;
      }
      var changed := 0;
      if id in rows && rows[id].owner == owner && rows[id].state in from.value {
        rows := rows[id := rows[id].(state := to)];
        changed := 1;
      }
      if changed != 1 {
        return NotHeld;
      }
      reply := Moved';
    }
  }

  /** Rows exist only for known decisions, whoever writes. */
  lemma {:induction false} WritesStayKnown(known: set<string>, claims: Claims, ops: seq<StoreWrite>)
    requires claims.Keys <= known
    ensures AfterWrites(known, claims, ops).Keys <= known
    decreases |ops|
  {
    if ops != [] {
      WritesStayKnown(known, AfterWrite(known, claims, ops[0]), ops[1..]);
    }
  }
}
