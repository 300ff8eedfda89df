/** The tables as the services see them: the repositories and the unit of work. */
module Database {
  import opened Domain
  import opened Usage
  import opened Tables
  import opened Protocol

  class WalletDatabase {
    var transfers: map<Id, TransferOperation>
    var reservations: ReservationTable
    var policies: map<LimitKey, AssetLimitPolicy>
    var audits: seq<AuditLog>

    ghost function Contents(): Store
      reads this
    {
      Store(transfers, reservations, policies, audits)
    }

    /** Rows are stored under their own ids. */
    ghost predicate Valid()
      reads this
    {
      && Keyed(reservations)
      && forall id | id in transfers :: transfers[id].operationId == id
    }

    constructor ()
      ensures Valid() && Contents() == Store(map[], map[], map[], [])
    {
      transfers, reservations, policies, audits := map[], map[], map[], [];
    }

    method SaveTransfer(op: TransferOperation)
      requires Valid()
      modifies this`transfers
      ensures Valid() && Contents() == Tables.SaveTransfer(old(Contents()), op)
      ensures transfers == old(transfers)[op.operationId := op]
    {
      transfers := transfers[op.operationId := op];
    }

    method SaveReservation(r: AssetLimitReservation)
      requires Valid()
      modifies this`reservations
      ensures Valid() && Contents() == Tables.SaveReservation(old(Contents()), r)
      ensures reservations == old(reservations)[r.operationId := r]
    {
      reservations := reservations[r.operationId := r];
    }

    method SavePolicy(policy: AssetLimitPolicy)
      requires Valid()
      modifies this`policies
      ensures Valid() && Contents() == old(Contents()).(policies := old(policies)[policy.key := policy])
    {
      policies := policies[policy.key := policy];
    }

    method SaveAudit(log: AuditLog)
      requires Valid()
      modifies this`audits
      ensures Valid() && Contents() == old(Contents()).(audits := old(audits) + [log])
    {
      audits := audits + [log];
    }

    /** The transaction that saves an operation with its audit record. */
    method CommitTransfer(op: TransferOperation, actor: ActorRole, action: string, result: AuditResult)
      requires Valid()
      modifies this`transfers, this`audits
      ensures Valid() && Contents() == Tables.CommitTransfer(old(Contents()), op, actor, action, result)
      ensures transfers == old(transfers)[op.operationId := op]
      ensures audits == old(audits) + [TransferAudit(actor, action, result, op.operationId)]
    {
      SaveTransfer(op);
      SaveAudit(TransferAudit(actor, action, result, op.operationId));
    }

    /** All reservations of a key. The query orders them; sums do not depend on the order. */
    method ListByChainAsset(key: LimitKey) returns (rows: seq<AssetLimitReservation>)
      requires Valid()
      ensures Lists(rows, reservations, key)
      ensures forall r | r in rows :: r.key == key
    {
      rows := [];
      var remaining := reservations.Keys;
      while remaining != {}
        invariant remaining <= reservations.Keys
        invariant forall i | 0 <= i < |rows| ::
          rows[i].operationId in reservations && reservations[rows[i].operationId] == rows[i] && rows[i].key == key
        invariant forall i | 0 <= i < |rows| :: rows[i].operationId !in remaining
        invariant forall i, j | 0 <= i < j < |rows| :: rows[i].operationId != rows[j].operationId
        invariant forall id | id in reservations && id !in remaining && reservations[id].key == key :: reservations[id] in rows
        decreases remaining
      {
        var id :| id in remaining;
        remaining := remaining - {id};
        if reservations[id].key == key {
          ghost var before := rows;
          rows := rows + [reservations[id]];
          assert reservations[id] == rows[|rows| - 1];
          assert forall r | r in before :: r in rows;
        }
      }
    }

    /** A row of `ids` that was updated first. */
    method Oldest(ids: set<Id>) returns (oldest: Id)
      requires ids != {} && ids <= transfers.Keys
      ensures oldest in ids && forall id | id in ids :: transfers[oldest].updatedAt <= transfers[id].updatedAt
    {
      oldest :| oldest in ids;
      var remaining := ids - {oldest};
      while remaining != {}
        invariant remaining <= ids && oldest in ids
        invariant forall id | id in ids - remaining :: transfers[oldest].updatedAt <= transfers[id].updatedAt
        decreases remaining
      {
        var id :| id in remaining;
        if transfers[id].updatedAt < transfers[oldest].updatedAt {
          oldest := id;
        }
        remaining := remaining - {id};
      }
    }

    method ListByStatuses(limit: nat) returns (listed: seq<TransferOperation>)
      requires Valid()
      ensures ListedByStatuses(transfers, limit, listed)
      ensures forall op | op in listed :: op.operationId in transfers && transfers[op.operationId] == op && op.status in {RESERVED, SUBMITTED}
      ensures forall id | id in transfers && transfers[id].status in {RESERVED, SUBMITTED} && transfers[id] !in listed ::
                |listed| == limit && forall op | op in listed :: op.updatedAt <= transfers[id].updatedAt
      ensures |listed| == if limit < |PendingIds(transfers)| then limit else |PendingIds(transfers)|
      ensures IdsOf(listed) <= PendingIds(transfers)
    {
      listed := [];
      var remaining := set id | id in transfers && transfers[id].Pending();
      while |listed| < limit && remaining != {}
        invariant |listed| <= limit && remaining <= PendingIds(transfers)
        invariant ListedSoFar(transfers, listed, remaining)
        invariant |listed| + |remaining| == |PendingIds(transfers)|
        decreases remaining
      {
        var id := Oldest(remaining);
        ListingGrows(transfers, listed, remaining, id);
        hide ListedSoFar;
        listed := listed + [transfers[id]];
        remaining := remaining - {id};
      }
    }
  }

  /** Pending rows by time of last update, none of them older than what remains. */
  ghost predicate ListedSoFar(transfers: map<Id, TransferOperation>, listed: seq<TransferOperation>, remaining: set<Id>) {
    && (forall j | 0 <= j < |listed| :: IsPendingRow(transfers, listed[j]) && listed[j].operationId !in remaining)
    && Distinct(listed)
    && (forall i, j | 0 <= i < j < |listed| :: listed[i].updatedAt <= listed[j].updatedAt)
    && (forall j, id | 0 <= j < |listed| && id in remaining && id in transfers :: listed[j].updatedAt <= transfers[id].updatedAt)
    && (forall id | id in PendingIds(transfers) && id !in remaining :: transfers[id] in listed)
  }

  lemma ListingGrows(transfers: map<Id, TransferOperation>, listed: seq<TransferOperation>, remaining: set<Id>, id: Id)
    requires (forall k | k in transfers :: transfers[k].operationId == k) && remaining <= PendingIds(transfers)
    requires ListedSoFar(transfers, listed, remaining)
    requires id in remaining && forall other | other in remaining :: transfers[id].updatedAt <= transfers[other].updatedAt
    ensures ListedSoFar(transfers, listed + [transfers[id]], remaining - {id})
  {
    var longer := listed + [transfers[id]];
    assert longer[|listed|] == transfers[id];
    forall other | other in PendingIds(transfers) && other !in remaining - {id} ensures transfers[other] in longer {
      if other != id { assert transfers[other] in listed; }
    }
    hide PendingIds;
  }

  ghost function IdsOf(ops: seq<TransferOperation>): set<Id> {
    set op | op in ops :: op.operationId
  }
}
