/** The settlement pass as the timer runs it, and how fast passes drain the pending operations. */
module Settlement {
  import opened Wrappers
  import opened Domain
  import opened Usage
  import opened Tables
  import opened Protocol
  import opened Interleavings
  import opened Discipline
  import opened Database
  import opened Provenance
  import opened Services

  datatype Outcome = NOOP | CONFIRMED_NOW | FAILED_NOW

  datatype PassCounts = PassCounts(processed: nat, confirmed: nat, failed: nat)

  function OutcomeOf(decision: Decision): Outcome {
    match decision
    case Noop => NOOP
    case Confirm => CONFIRMED_NOW
    case Fail(_, _) => FAILED_NOW
  }

  /** Both writes of one settled operation. */
  function SettledStore(s: Store, op: TransferOperation, decision: Decision, now: Instant): Store {
    match decision
    case Noop => s
    case Confirm => ConsumeReservation(CommitConfirmed(s, op, now), op.operationId, now)
    case Fail(message, reason) => ReleaseReservation(CommitFailed(s, op, message, now), op.operationId, reason, now)
  }

  /** Only a submitted operation with a hash is looked up on the chain. */
  predicate NeedsLookup(op: TransferOperation) {
    op.status != RESERVED && op.txHash.GetOr("") != ""
  }

  /** A lookup that throws gives no answer. */
  type ChainLookup = (ChainKind, string) -> Option<ChainAnswer>

  function AnswerFor(op: TransferOperation, lookup: ChainLookup): Option<ChainAnswer> {
    if NeedsLookup(op) then lookup(op.key.chain, op.txHash.GetOr("")) else Some(NotFound)
  }

  /** How many of the operations are stored in the given status. */
  ghost function CountIn(ops: seq<TransferOperation>, transfers: map<Id, TransferOperation>, status: TransferStatus): nat {
    if ops == [] then 0
    else
      var id := ops[|ops| - 1].operationId;
      var last := if id in transfers && transfers[id].status == status then 1 else 0;
      CountIn(ops[..|ops| - 1], transfers, status) + last
  }

  lemma {:induction false} CountStable(ops: seq<TransferOperation>, a: map<Id, TransferOperation>, b: map<Id, TransferOperation>,
                                       status: TransferStatus)
    requires forall j | 0 <= j < |ops| ::
      ops[j].operationId in a && ops[j].operationId in b && a[ops[j].operationId] == b[ops[j].operationId]
    ensures CountIn(ops, a, status) == CountIn(ops, b, status)
    decreases |ops|
  {
    if ops != [] {
      CountStable(ops[..|ops| - 1], a, b, status);
    }
  }

  lemma CountNext(ops: seq<TransferOperation>, i: nat, a: map<Id, TransferOperation>, b: map<Id, TransferOperation>, status: TransferStatus)
    requires i < |ops| && ops[i].operationId in b
    requires forall j | 0 <= j < i ::
      ops[j].operationId in a && ops[j].operationId in b && a[ops[j].operationId] == b[ops[j].operationId]
    ensures CountIn(ops[..i + 1], b, status)
         == CountIn(ops[..i], a, status) + if b[ops[i].operationId].status == status then 1 else 0
  {
    assert ops[..i + 1][..i] == ops[..i];
    CountStable(ops[..i], a, b, status);
  }

  /** A pass alone in the system, at a given place in its list. */
  function Alone(s: State, store: Store, listed: seq<TransferOperation>, next: nat): State {
    s.(store := store, passes := map[0 := Pass(listed, next, Examining, {})])
  }

  lemma AloneMoves(s: State, store: Store, listed: seq<TransferOperation>, i: nat, decision: Decision, now: Instant)
    requires i < |listed|
    requires decision == Confirm && listed[i].operationId in store.reservations ==>
               store.reservations[listed[i].operationId].status != RELEASED
    ensures var m := CarryOut(Alone(s, store, listed, i), 0, decision, now);
            var t := Alone(s, SettledStore(store, listed[i], decision, now), listed, i + 1);
            && 0 in m.passes && m.passes[0].next < |m.passes[0].listed| + 1
            && (decision == Noop ==> m == t)
            && (decision != Noop ==> m.passes[0].next < |m.passes[0].listed| && MidOperation(m.passes[0]) && Settle(m, 0, now) == t)
  {
    var m := CarryOut(Alone(s, store, listed, i), 0, decision, now);
    hide CommitTransfer, MarkTransferConfirmed, MarkTransferFailed, ReleaseAssetLimitReservation, ConsumeAssetLimitReservation;
    if decision != Noop {
      assert m.passes[0 := Forward(m.passes[0])] == map[0 := Pass(listed, i + 1, Examining, {})];
    } else {
      assert m.passes == map[0 := Pass(listed, i + 1, Examining, {})];
    }
  }

  /** Settling the operation a lone pass has reached is one or two events of the system. */
  lemma SettledByEvents(cfg: Config, s: State, before: seq<Event>, store: Store, listed: seq<TransferOperation>,
                        i: nat, now: Instant, answer: ChainAnswer) returns (events: seq<Event>)
    requires i < |listed| && s.calls == map[] && s.passes == map[]
    requires DisciplinedRun(cfg, s, before, Alone(s, store, listed, i))
    requires Decide(cfg, listed[i], now, answer) == Confirm && listed[i].operationId in store.reservations ==>
               store.reservations[listed[i].operationId].status != RELEASED
    ensures DisciplinedRun(cfg, s, events,
              Alone(s, SettledStore(store, listed[i], Decide(cfg, listed[i], now, answer), now), listed, i + 1))
  {
    hide Decide, DisciplinedRun, CarryOut, Settle, SettledStore;
    var m := Alone(s, store, listed, i);
    var decision := Decide(cfg, listed[i], now, answer);
    DisciplinedThen(cfg, s, before, m, Examine(0, now, answer));
    events := before + [Examine(0, now, answer)];
    AloneMoves(s, store, listed, i, decision, now);
    if decision != Noop {
      var next := CarryOut(m, 0, decision, now);
      DisciplinedThen(cfg, s, events, next, SettleReservation(0, now));
      events := events + [SettleReservation(0, now)];
    }
  }

  lemma PassBegins(cfg: Config, s: State, limit: nat, listed: seq<TransferOperation>)
    requires s.calls == map[] && s.passes == map[] && ListedByStatuses(s.store.transfers, limit, listed)
    ensures DisciplinedRun(cfg, s, [BeginPass(0, limit, listed)], Alone(s, s.store, listed, 0))
  {
    var e := BeginPass(0, limit, listed);
    assert s.calls.Keys == {};
    assert Apply(cfg, s, e) == Alone(s, s.store, listed, 0);
    DisciplinedThen(cfg, s, [], s, e);
    assert [] + [e] == [e];
  }

  lemma PassLeaves(cfg: Config, s: State, before: seq<Event>, store: Store, listed: seq<TransferOperation>, i: nat)
    requires i <= |listed| && s.calls == map[] && s.passes == map[]
    requires DisciplinedRun(cfg, s, before, Alone(s, store, listed, i))
    ensures DisciplinedRun(cfg, s, before + [StopPass(0)], s.(store := store))
    ensures i == |listed| ==> DisciplinedRun(cfg, s, before + [EndPass(0)], s.(store := store))
  {
    var m := Alone(s, store, listed, i);
    hide DisciplinedRun;
    var gone: map<nat, Pass> := m.passes - {0};
    assert forall p :: p !in gone;
    assert gone == map[];
    assert Stopped(m.passes[0]) == {} && s.interrupted + {} == s.interrupted;
    assert Apply(cfg, m, StopPass(0)) == s.(store := store);
    DisciplinedThen(cfg, s, before, m, StopPass(0));
    if i == |listed| {
      DisciplinedThen(cfg, s, before, m, EndPass(0));
    }
  }

  function StatusAfter(op: TransferOperation, decision: Decision): TransferStatus {
    match decision
    case Noop => op.status
    case Confirm => CONFIRMED
    case Fail(_, _) => FAILED
  }

  /** What settling one operation does to the tables. */
  lemma SettledWrites(s: Store, op: TransferOperation, decision: Decision, now: Instant)
    requires op.operationId in s.transfers && s.transfers[op.operationId] == op
    ensures var t := SettledStore(s, op, decision, now);
            && OnlyAt(s, t, op.operationId) && t.policies == s.policies
            && t.transfers.Keys == s.transfers.Keys
            && t.transfers[op.operationId].status == StatusAfter(op, decision)
            && (decision == Noop ==> t == s)
  {
  }

  // ------------------------------------------------------------------- a pass in progress

  predicate RowKept(a: Store, b: Store, id: Id) {
    && (id in a.transfers <==> id in b.transfers)
    && (id in a.transfers ==> b.transfers[id] == a.transfers[id])
    && (id in a.reservations <==> id in b.reservations)
    && (id in a.reservations ==> b.reservations[id] == a.reservations[id])
  }

  /** After `i` operations: each of them is finished or still stored as it was listed, and no
      other row has changed. */
  ghost predicate Progress(listed: seq<TransferOperation>, i: nat, a: Store, b: Store)
    requires i <= |listed|
  {
    && (forall id | id !in IdsOf(listed[..i]) :: RowKept(a, b, id))
    && (forall j | 0 <= j < i :: listed[j].operationId in b.transfers
          && (b.transfers[listed[j].operationId].Terminal() || b.transfers[listed[j].operationId] == listed[j]))
  }

  lemma OneMoreId(listed: seq<TransferOperation>, i: nat)
    requires i < |listed|
    ensures IdsOf(listed[..i + 1]) == IdsOf(listed[..i]) + {listed[i].operationId}
  {
    assert listed[..i + 1] == listed[..i] + [listed[i]];
    assert listed[i] in listed[..i + 1];
  }

  lemma ProgressStep(listed: seq<TransferOperation>, i: nat, a: Store, b: Store, decision: Decision, now: Instant)
    requires i < |listed| && Distinct(listed) && Progress(listed, i, a, b)
    requires listed[i].operationId in b.transfers && b.transfers[listed[i].operationId] == listed[i]
    ensures Progress(listed, i + 1, a, SettledStore(b, listed[i], decision, now))
    ensures forall j | 0 <= j < i ::
      SettledStore(b, listed[i], decision, now).transfers[listed[j].operationId] == b.transfers[listed[j].operationId]
  {
    hide SettledStore, IdsOf;
    SettledWrites(b, listed[i], decision, now);
    OneMoreId(listed, i);
  }

  lemma ListedAreStored(transfers: map<Id, TransferOperation>, limit: nat, listed: seq<TransferOperation>, i: nat)
    requires ListedByStatuses(transfers, limit, listed) && i < |listed|
    ensures Distinct(listed) && listed[i].operationId in transfers && transfers[listed[i].operationId] == listed[i]
    ensures listed[i].operationId !in IdsOf(listed[..i]) && listed[i].Pending()
  {
    assert IsPendingRow(transfers, listed[i]);
  }

  /** Every pending operation is past both timeouts whenever the pass looks at it, and no lookup
      throws. */
  ghost predicate Overdue(cfg: Config, transfers: map<Id, TransferOperation>, clock: nat -> Instant, lookup: nat -> ChainLookup) {
    forall id, i | id in PendingIds(transfers) ::
      && clock(i) - transfers[id].updatedAt > cfg.reservedTimeout
      && clock(i) - transfers[id].updatedAt > cfg.submittedTimeout
      && AnswerFor(transfers[id], lookup(i)).Some?
  }

  lemma OverdueIsDecided(cfg: Config, transfers: map<Id, TransferOperation>, clock: nat -> Instant, lookup: nat -> ChainLookup,
                         op: TransferOperation, i: nat)
    requires Overdue(cfg, transfers, clock, lookup) && IsPendingRow(transfers, op)
    ensures AnswerFor(op, lookup(i)).Some? && Decide(cfg, op, clock(i), AnswerFor(op, lookup(i)).value) != Noop
  {
    assert op.operationId in PendingIds(transfers);
    assert clock(i) - transfers[op.operationId].updatedAt > cfg.reservedTimeout;
    assert clock(i) - transfers[op.operationId].updatedAt > cfg.submittedTimeout;
  }

  lemma PendingAfter(listed: seq<TransferOperation>, a: Store, b: Store)
    requires Progress(listed, |listed|, a, b)
    requires FirstAreTerminal(listed, |listed|, b.transfers)
    ensures PendingIds(b.transfers) == PendingIds(a.transfers) - IdsOf(listed)
  {
    assert listed[..|listed|] == listed;
    forall id ensures id in PendingIds(b.transfers) <==> id in PendingIds(a.transfers) - IdsOf(listed) {
      if id in IdsOf(listed) {
        var j :| 0 <= j < |listed| && listed[j].operationId == id;
      } else {
        assert RowKept(a, b, id);
      }
    }
  }

  ghost predicate FirstAreTerminal(listed: seq<TransferOperation>, i: nat, transfers: map<Id, TransferOperation>)
    requires i <= |listed|
  {
    forall j | 0 <= j < i :: listed[j].operationId in transfers && transfers[listed[j].operationId].Terminal()
  }

  lemma {:induction false} AllCounted(listed: seq<TransferOperation>, transfers: map<Id, TransferOperation>)
    requires FirstAreTerminal(listed, |listed|, transfers)
    ensures CountIn(listed, transfers, CONFIRMED) + CountIn(listed, transfers, FAILED) == |listed|
    decreases |listed|
  {
    if listed != [] {
      AllCounted(listed[..|listed| - 1], transfers);
    }
  }

  lemma {:induction false} IdsAreDistinct(listed: seq<TransferOperation>)
    requires Distinct(listed)
    ensures |IdsOf(listed)| == |listed|
    decreases |listed|
  {
    if listed != [] {
      var n := |listed| - 1;
      IdsAreDistinct(listed[..n]);
      assert listed == listed[..n] + [listed[n]];
      assert listed[n] in listed;
      assert IdsOf(listed) == IdsOf(listed[..n]) + {listed[n].operationId};
    }
  }

  lemma NotReleased(s: State, id: Id)
    requires InStep(s) && id in s.store.transfers && s.store.transfers[id].status == SUBMITTED && id in s.store.reservations
    ensures s.store.reservations[id].status != RELEASED
  {
    assert SettledAt(s.store, id);
  }

  lemma StillStored(listed: seq<TransferOperation>, i: nat, a: Store, b: Store)
    requires i < |listed| && Progress(listed, i, a, b)
    requires listed[i].operationId !in IdsOf(listed[..i])
    ensures RowKept(a, b, listed[i].operationId)
  {
  }

  lemma Untouched(listed: seq<TransferOperation>, i: nat, a: Store, b: Store)
    requires i <= |listed| && Progress(listed, i, a, b)
    ensures forall id | id !in IdsOf(listed) :: RowKept(a, b, id)
  {
    assert forall op | op in listed[..i] :: op in listed;
  }

  lemma EventsOfTurn(listed: seq<TransferOperation>, i: nat, a: Store, b: Store, limit: nat, now: Instant,
                     answer: ChainAnswer, cfg: Config, s: State, before: seq<Event>) returns (events: seq<Event>)
    requires i < |listed| && ListedByStatuses(a.transfers, limit, listed) && Progress(listed, i, a, b)
    requires s.store == a && s.calls == map[] && s.passes == map[] && InStep(s)
    requires DisciplinedRun(cfg, s, before, Alone(s, b, listed, i))
    ensures DisciplinedRun(cfg, s, events,
              Alone(s, SettledStore(b, listed[i], Decide(cfg, listed[i], now, answer), now), listed, i + 1))
  {
    hide InStep, DisciplinedRun, ListedByStatuses, Progress, Alone, SettledStore, IdsOf;
    ListedAreStored(a.transfers, limit, listed, i);
    StillStored(listed, i, a, b);
    ConfirmsOnlySubmitted(cfg, listed[i], now, answer);
    if listed[i].status == SUBMITTED && listed[i].operationId in b.reservations {
      NotReleased(s, listed[i].operationId);
    }
    hide Decide;
    events := SettledByEvents(cfg, s, before, b, listed, i, now, answer);
  }

  lemma RowsOfTurn(listed: seq<TransferOperation>, i: nat, a: Store, b: Store, limit: nat, decision: Decision, now: Instant)
    requires i < |listed| && ListedByStatuses(a.transfers, limit, listed) && Progress(listed, i, a, b)
    ensures var c := SettledStore(b, listed[i], decision, now);
            && Progress(listed, i + 1, a, c)
            && listed[i].operationId in c.transfers
            && c.transfers[listed[i].operationId].status == StatusAfter(listed[i], decision)
            && (forall j | 0 <= j < i :: listed[j].operationId in b.transfers && listed[j].operationId in c.transfers
                  && c.transfers[listed[j].operationId] == b.transfers[listed[j].operationId])
  {
    ListedAreStored(a.transfers, limit, listed, i);
    StillStored(listed, i, a, b);
    hide ListedByStatuses, SettledStore, IdsOf, StatusAfter;
    ProgressStep(listed, i, a, b, decision, now);
    SettledWrites(b, listed[i], decision, now);
  }

  lemma CountersOfTurn(listed: seq<TransferOperation>, i: nat, b: map<Id, TransferOperation>, c: map<Id, TransferOperation>, decision: Decision)
    requires i < |listed| && listed[i].Pending() && listed[i].operationId in c
    requires c[listed[i].operationId].status == StatusAfter(listed[i], decision)
    requires forall j | 0 <= j < i :: listed[j].operationId in b && listed[j].operationId in c
               && c[listed[j].operationId] == b[listed[j].operationId]
    ensures CountIn(listed[..i + 1], c, CONFIRMED)
         == CountIn(listed[..i], b, CONFIRMED) + (if OutcomeOf(decision) == CONFIRMED_NOW then 1 else 0)
    ensures CountIn(listed[..i + 1], c, FAILED)
         == CountIn(listed[..i], b, FAILED) + (if OutcomeOf(decision) == FAILED_NOW then 1 else 0)
    ensures decision != Noop && FirstAreTerminal(listed, i, b) ==> FirstAreTerminal(listed, i + 1, c)
  {
    hide CountIn;
    CountNext(listed, i, b, c, CONFIRMED);
    CountNext(listed, i, b, c, FAILED);
  }

  /** What holds when the loop of a pass has dealt with `i` operations. */
  ghost predicate AtTurn(cfg: Config, s: State, events: seq<Event>, listed: seq<TransferOperation>, i: nat, cur: Store,
                         confirmed: nat, failed: nat, overdue: bool)
  {
    && i <= |listed|
    && DisciplinedRun(cfg, s, events, Alone(s, cur, listed, i))
    && Progress(listed, i, s.store, cur)
    && confirmed == CountIn(listed[..i], cur.transfers, CONFIRMED)
    && failed == CountIn(listed[..i], cur.transfers, FAILED)
    && (overdue ==> FirstAreTerminal(listed, i, cur.transfers))
  }

  lemma FirstTurn(cfg: Config, s: State, limit: nat, listed: seq<TransferOperation>, overdue: bool)
    requires s.calls == map[] && s.passes == map[] && ListedByStatuses(s.store.transfers, limit, listed)
    ensures AtTurn(cfg, s, [BeginPass(0, limit, listed)], listed, 0, s.store, 0, 0, overdue)
  {
    PassBegins(cfg, s, limit, listed);
    hide DisciplinedRun;
  }

  lemma NextTurn(cfg: Config, s: State, before: seq<Event>, listed: seq<TransferOperation>, i: nat, cur: Store,
                 confirmed: nat, failed: nat, limit: nat, now: Instant, answer: ChainAnswer, overdue: bool)
    returns (events: seq<Event>)
    requires AtTurn(cfg, s, before, listed, i, cur, confirmed, failed, overdue) && i < |listed|
    requires s.calls == map[] && s.passes == map[] && InStep(s) && ListedByStatuses(s.store.transfers, limit, listed)
    requires overdue ==> Decide(cfg, listed[i], now, answer) != Noop
    ensures var decision := Decide(cfg, listed[i], now, answer);
            AtTurn(cfg, s, events, listed, i + 1, SettledStore(cur, listed[i], decision, now),
                   confirmed + (if OutcomeOf(decision) == CONFIRMED_NOW then 1 else 0),
                   failed + (if OutcomeOf(decision) == FAILED_NOW then 1 else 0), overdue)
  {
    hide InStep, DisciplinedRun, ListedByStatuses, Progress, Alone, SettledStore, CountIn, FirstAreTerminal, Decide;
    var decision := Decide(cfg, listed[i], now, answer);
    ListedAreStored(s.store.transfers, limit, listed, i);
    events := EventsOfTurn(listed, i, s.store, cur, limit, now, answer, cfg, s, before);
    RowsOfTurn(listed, i, s.store, cur, limit, decision, now);
    CountersOfTurn(listed, i, cur.transfers, SettledStore(cur, listed[i], decision, now).transfers, decision);
  }

  lemma LastTurn(cfg: Config, s: State, before: seq<Event>, listed: seq<TransferOperation>, i: nat, cur: Store,
                 confirmed: nat, failed: nat, limit: nat, overdue: bool)
    requires AtTurn(cfg, s, before, listed, i, cur, confirmed, failed, overdue)
    requires s.calls == map[] && s.passes == map[] && ListedByStatuses(s.store.transfers, limit, listed)
    ensures DisciplinedRun(cfg, s, before + [StopPass(0)], s.(store := cur))
    ensures forall id | id !in IdsOf(listed) :: RowKept(s.store, cur, id)
    ensures i == |listed| ==>
      && DisciplinedRun(cfg, s, before + [EndPass(0)], s.(store := cur))
      && (forall op | op in listed :: op.operationId in cur.transfers)
      && confirmed == CountIn(listed, cur.transfers, CONFIRMED) && failed == CountIn(listed, cur.transfers, FAILED)
      && (overdue ==> confirmed + failed == |listed| && PendingIds(cur.transfers) == PendingIds(s.store.transfers) - IdsOf(listed))
  {
    hide DisciplinedRun, ListedByStatuses, Alone, CountIn, FirstAreTerminal, PendingIds, IdsOf, RowKept;
    assert listed[..|listed|] == listed;
    PassLeaves(cfg, s, before, cur, listed, i);
    Untouched(listed, i, s.store, cur);
    hide Progress;
    if i == |listed| {
      Ends(listed, s.store, cur, limit);
    }
  }

  lemma Ends(listed: seq<TransferOperation>, a: Store, b: Store, limit: nat)
    requires Progress(listed, |listed|, a, b) && ListedByStatuses(a.transfers, limit, listed)
    ensures forall id | id !in IdsOf(listed) :: RowKept(a, b, id)
    ensures forall op | op in listed :: op.operationId in b.transfers
    ensures FirstAreTerminal(listed, |listed|, b.transfers) ==>
      && CountIn(listed, b.transfers, CONFIRMED) + CountIn(listed, b.transfers, FAILED) == |listed|
      && PendingIds(b.transfers) == PendingIds(a.transfers) - IdsOf(listed)
  {
    assert listed[..|listed|] == listed;
    if FirstAreTerminal(listed, |listed|, b.transfers) {
      AllCounted(listed, b.transfers);
      PendingAfter(listed, a, b);
    }
  }

  /** The operation is stored as FAILED, from the copy given and otherwise as that copy has it, with
      an audit record, and its reservation is released unless it already is. */
  ghost predicate IsFailed(s: Store, t: Store, op: TransferOperation, message: string, reason: string, now: Instant) {
    && t.policies == s.policies
    && t.transfers == s.transfers[op.operationId := op.(
         status := FAILED, errorCode := Some("TRANSFER_BROADCAST_FAILED"), errorMessage := Some(message),
         confirmedAt := None, failedAt := Some(now), updatedAt := now)]
    && t.audits == s.audits + [TransferAudit(System, "transfer.settlement_failed", AUDIT_FAILED, op.operationId)]
    && IsReleased(s.reservations, t.reservations, op.operationId, reason, now)
  }

  /** The operation is stored as CONFIRMED, with an audit record, and its reservation is consumed. */
  ghost predicate IsConfirmed(s: Store, t: Store, op: TransferOperation, now: Instant) {
    && t.policies == s.policies
    && t.transfers == s.transfers[op.operationId := op.(
         status := CONFIRMED, errorCode := None, errorMessage := None,
         confirmedAt := Some(now), failedAt := None, updatedAt := now)]
    && t.audits == s.audits + [TransferAudit(System, "transfer.settlement_confirmed", SUCCESS, op.operationId)]
    && IsConsumed(s.reservations, t.reservations, op.operationId, now)
  }

  /** The row of one reservation, released unless it already is. */
  predicate RowReleased(s: ReservationTable, t: ReservationTable, id: Id, reason: string, now: Instant) {
    && (id in s <==> id in t)
    && (id in s ==>
          t[id] == if s[id].status == RELEASED then s[id]
                   else s[id].(status := RELEASED, releaseReason := Some(reason), settledAt := Some(now), updatedAt := now))
  }

  predicate RowConsumed(s: ReservationTable, t: ReservationTable, id: Id, now: Instant) {
    && (id in s <==> id in t)
    && (id in s ==>
          t[id] == if s[id].status == CONSUMED then s[id]
                   else s[id].(status := CONSUMED, releaseReason := None, settledAt := Some(now), updatedAt := now))
  }

  /** A listed operation and its reservation after the pass has dealt with them. */
  ghost predicate IsSettled(cfg: Config, op: TransferOperation, now: Instant, answer: ChainAnswer, a: Store, b: Store) {
    var id := op.operationId;
    && id in b.transfers
    && (forall message, reason | GivesUp(cfg, op, now, answer, message, reason) ::
          IsFailedCopy(b.transfers[id], op, message, now) && RowReleased(a.reservations, b.reservations, id, reason, now))
    && (op.status != RESERVED && op.txHash.GetOr("") != "" && answer == OnChain ==>
          IsConfirmedCopy(b.transfers[id], op, now) && RowConsumed(a.reservations, b.reservations, id, now))
    && ((forall message, reason :: !GivesUp(cfg, op, now, answer, message, reason))
        && !(op.status != RESERVED && op.txHash.GetOr("") != "" && answer == OnChain) ==>
          && b.transfers[id] == op
          && (id in a.reservations <==> id in b.reservations)
          && (id in a.reservations ==> b.reservations[id] == a.reservations[id]))
  }

  /** The lookup answered, or was not needed. */
  predicate HasAnswer(op: TransferOperation, answer: Option<ChainAnswer>) {
    op.status == RESERVED || op.txHash.GetOr("") == "" || answer.Some?
  }

  function Looked(op: TransferOperation, lookup: ChainLookup): Option<ChainAnswer> {
    lookup(op.key.chain, op.txHash.GetOr(""))
  }

  /** The first `n` operations are settled as their answers say. */
  ghost predicate WorkedThrough(cfg: Config, listed: seq<TransferOperation>, n: nat, clock: nat -> Instant,
                                lookup: nat -> ChainLookup, a: Store, b: Store)
  {
    && n <= |listed|
    && (forall j | 0 <= j < n ::
          && HasAnswer(listed[j], Looked(listed[j], lookup(j)))
          && IsSettled(cfg, listed[j], clock(j), Looked(listed[j], lookup(j)).GetOr(NotFound), a, b))
  }

  /** Each listed operation in turn is settled as its answer says, up to the first lookup that throws, at
      which the pass stops. No other row changes. */
  ghost predicate WorkedOut(cfg: Config, listed: seq<TransferOperation>, completed: bool, clock: nat -> Instant,
                            lookup: nat -> ChainLookup, a: Store, b: Store)
  {
    exists n: nat ::
      && WorkedThrough(cfg, listed, n, clock, lookup, a, b)
      && (completed <==> n == |listed|)
      && (n < |listed| ==> !HasAnswer(listed[n], Looked(listed[n], lookup(n))))
      && (forall id | id !in IdsOf(listed[..n]) :: RowKept(a, b, id))
  }

  lemma WorkedUntil(cfg: Config, listed: seq<TransferOperation>, n: nat, clock: nat -> Instant, lookup: nat -> ChainLookup, a: Store, b: Store)
    requires WorkedThrough(cfg, listed, n, clock, lookup, a, b) && n <= |listed|
    requires n < |listed| ==> !HasAnswer(listed[n], Looked(listed[n], lookup(n)))
    requires forall id | id !in IdsOf(listed[..n]) :: RowKept(a, b, id)
    ensures WorkedOut(cfg, listed, n == |listed|, clock, lookup, a, b)
  {
    hide WorkedThrough, HasAnswer, IdsOf, RowKept;
  }

  lemma SettledInWords(cfg: Config, op: TransferOperation, now: Instant, lookup: ChainLookup, s: Store)
    requires op.operationId in s.transfers && s.transfers[op.operationId] == op
    ensures AnswerFor(op, lookup).Some? <==> HasAnswer(op, Looked(op, lookup))
    ensures AnswerFor(op, lookup).Some? ==>
              IsSettled(cfg, op, now, Looked(op, lookup).GetOr(NotFound), s,
                        SettledStore(s, op, Decide(cfg, op, now, AnswerFor(op, lookup).value), now))
  {
    if AnswerFor(op, lookup).Some? {
      var answer := Looked(op, lookup).GetOr(NotFound);
      var decision := Decide(cfg, op, now, answer);
      assert Decide(cfg, op, now, AnswerFor(op, lookup).value) == decision;
      DecisionInWords(cfg, op, now, answer);
      hide Decide, GivesUp;
      if decision.Fail? {
        assert GivesUp(cfg, op, now, answer, decision.message, decision.releaseReason);
      }
    }
  }

  /** Only the two rows of an operation matter to whether it is settled. */
  lemma SettledByRows(cfg: Config, op: TransferOperation, now: Instant, answer: ChainAnswer, a: Store, b: Store, c: Store, d: Store)
    requires IsSettled(cfg, op, now, answer, b, c)
    requires op.operationId in a.reservations <==> op.operationId in b.reservations
    requires op.operationId in a.reservations ==> a.reservations[op.operationId] == b.reservations[op.operationId]
    requires RowKept(c, d, op.operationId)
    ensures IsSettled(cfg, op, now, answer, a, d)
  {
    hide GivesUp;
  }

  lemma TurnsRows(listed: seq<TransferOperation>, i: nat, a: Store, b: Store, limit: nat, decision: Decision, now: Instant)
    requires i < |listed| && ListedByStatuses(a.transfers, limit, listed) && Progress(listed, i, a, b)
    ensures RowKept(a, b, listed[i].operationId)
    ensures listed[i].operationId in b.transfers && b.transfers[listed[i].operationId] == listed[i]
    ensures forall j | 0 <= j < i :: RowKept(b, SettledStore(b, listed[i], decision, now), listed[j].operationId)
  {
    ListedAreStored(a.transfers, limit, listed, i);
    StillStored(listed, i, a, b);
    hide ListedByStatuses, SettledStore, IdsOf, Progress;
    SettledWrites(b, listed[i], decision, now);
  }

  lemma OneMoreSettled(cfg: Config, listed: seq<TransferOperation>, i: nat, clock: nat -> Instant, lookup: nat -> ChainLookup,
                       a: Store, b: Store, limit: nat)
    requires i < |listed| && ListedByStatuses(a.transfers, limit, listed) && Progress(listed, i, a, b)
    requires WorkedThrough(cfg, listed, i, clock, lookup, a, b) && AnswerFor(listed[i], lookup(i)).Some?
    ensures WorkedThrough(cfg, listed, i + 1, clock, lookup, a,
              SettledStore(b, listed[i], Decide(cfg, listed[i], clock(i), AnswerFor(listed[i], lookup(i)).value), clock(i)))
  {
    hide ListedByStatuses, SettledStore, Progress, Decide, IsSettled, HasAnswer, AnswerFor, RowKept;
    var decision := Decide(cfg, listed[i], clock(i), AnswerFor(listed[i], lookup(i)).value);
    var c := SettledStore(b, listed[i], decision, clock(i));
    TurnsRows(listed, i, a, b, limit, decision, clock(i));
    SettledInWords(cfg, listed[i], clock(i), lookup(i), b);
    forall j | 0 <= j < i + 1 ensures IsSettled(cfg, listed[j], clock(j), Looked(listed[j], lookup(j)).GetOr(NotFound), a, c) {
      if j < i {
        SameRows(a, a, listed[j].operationId);
        SettledByRows(cfg, listed[j], clock(j), Looked(listed[j], lookup(j)).GetOr(NotFound), a, a, b, c);
      } else {
        SameRows(a, b, listed[i].operationId);
        SameRows(c, c, listed[i].operationId);
        SettledByRows(cfg, listed[i], clock(i), Looked(listed[i], lookup(i)).GetOr(NotFound), a, b, c, c);
      }
    }
  }

  lemma SameRows(a: Store, b: Store, id: Id)
    ensures a == b ==> RowKept(a, b, id)
    ensures RowKept(a, b, id) ==> (id in a.reservations <==> id in b.reservations)
    ensures RowKept(a, b, id) && id in a.reservations ==> a.reservations[id] == b.reservations[id]
  {
  }

  lemma LookupsAgree(op: TransferOperation, lookup: ChainLookup)
    ensures AnswerFor(op, lookup).Some? <==> HasAnswer(op, Looked(op, lookup))
  {
  }

  lemma ProgressAt(cfg: Config, s: State, events: seq<Event>, listed: seq<TransferOperation>, i: nat, cur: Store,
                   confirmed: nat, failed: nat, overdue: bool)
    requires AtTurn(cfg, s, events, listed, i, cur, confirmed, failed, overdue)
    ensures i <= |listed| && Progress(listed, i, s.store, cur)
    ensures forall id | id !in IdsOf(listed[..i]) :: RowKept(s.store, cur, id)
  {
    hide DisciplinedRun, CountIn, FirstAreTerminal, Alone, IdsOf, RowKept;
  }

  lemma NothingWorked(cfg: Config, listed: seq<TransferOperation>, clock: nat -> Instant, lookup: nat -> ChainLookup, a: Store, b: Store)
    ensures WorkedThrough(cfg, listed, 0, clock, lookup, a, b)
  {
  }

  /** The listed operations that are stored in the given status. */
  ghost function InStatus(listed: seq<TransferOperation>, transfers: map<Id, TransferOperation>, status: TransferStatus): set<TransferOperation> {
    set op | op in listed && op.operationId in transfers && transfers[op.operationId].status == status
  }

  lemma OneMoreInStatus(init: seq<TransferOperation>, last: TransferOperation, transfers: map<Id, TransferOperation>, status: TransferStatus)
    requires last !in init
    ensures |InStatus(init + [last], transfers, status)|
         == |InStatus(init, transfers, status)| + if last.operationId in transfers && transfers[last.operationId].status == status then 1 else 0
  {
    var fewer := InStatus(init, transfers, status);
    assert InStatus(init + [last], transfers, status)
        == fewer + if last.operationId in transfers && transfers[last.operationId].status == status then {last} else {};
  }

  /** Counting the listed operations of a status counts the set of them. */
  lemma {:induction false} CountIsSize(listed: seq<TransferOperation>, transfers: map<Id, TransferOperation>, status: TransferStatus)
    requires Distinct(listed)
    ensures CountIn(listed, transfers, status) == |InStatus(listed, transfers, status)|
    decreases |listed|
  {
    if listed == [] {
      assert InStatus(listed, transfers, status) == {};
    } else {
      var n := |listed| - 1;
      CountIsSize(listed[..n], transfers, status);
      hide InStatus;
      OneMoreInStatus(listed[..n], listed[n], transfers, status);
      assert listed == listed[..n] + [listed[n]];
    }
  }

  lemma PassCounted(before: map<Id, TransferOperation>, limit: nat, listed: seq<TransferOperation>, transfers: map<Id, TransferOperation>)
    requires ListedByStatuses(before, limit, listed)
    ensures CountIn(listed, transfers, CONFIRMED)
         == |set op | op in listed && op.operationId in transfers && transfers[op.operationId].status == CONFIRMED|
    ensures CountIn(listed, transfers, FAILED)
         == |set op | op in listed && op.operationId in transfers && transfers[op.operationId].status == FAILED|
  {
    CountIsSize(listed, transfers, CONFIRMED);
    CountIsSize(listed, transfers, FAILED);
    hide CountIn;
  }

  class TransferSettlementService {
    const db: WalletDatabase
    const limits: AssetLimitService
    const reservedTimeout: int
    const submittedTimeout: int

    constructor (db: WalletDatabase, limits: AssetLimitService, reservedTimeout: int, submittedTimeout: int)
      ensures this.db == db && this.limits == limits
      ensures this.reservedTimeout == reservedTimeout && this.submittedTimeout == submittedTimeout
    {
      this.db, this.limits := db, limits;
      this.reservedTimeout, this.submittedTimeout := reservedTimeout, submittedTimeout;
    }

    ghost predicate Configured(cfg: Config)
      reads this
    {
      limits.db == db && cfg.reservedTimeout == reservedTimeout && cfg.submittedTimeout == submittedTimeout
    }

    method ConfirmOperation(op: TransferOperation, now: Instant)
      requires db.Valid() && limits.db == db
      modifies db
      ensures db.Valid() && db.Contents() == SettledStore(old(db.Contents()), op, Confirm, now)
      ensures IsConfirmed(old(db.Contents()), db.Contents(), op, now)
    {
      db.CommitTransfer(MarkTransferConfirmed(op, now), System, "transfer.settlement_confirmed", SUCCESS);
      limits.ConsumeReservation(op.operationId, now);
    }

    method FailOperation(op: TransferOperation, message: string, reason: string, now: Instant)
      requires db.Valid() && limits.db == db
      modifies db
      ensures db.Valid() && db.Contents() == SettledStore(old(db.Contents()), op, Fail(message, reason), now)
      ensures IsFailed(old(db.Contents()), db.Contents(), op, message, reason, now)
    {
      db.CommitTransfer(MarkTransferFailed(op, SETTLEMENT_ERROR, message, None, now),
                        System, "transfer.settlement_failed", AUDIT_FAILED);
      limits.ReleaseReservation(op.operationId, reason, now);
    }

    /** An operation is given up if it was RESERVED for too long, if it lacks its hash, if the chain
        rejected it, or if it was SUBMITTED for too long and the chain does not have it yet. It is
        confirmed if the chain has it. Otherwise nothing is written, and nothing returned when the
        lookup throws. */
    method SettleOperation(op: TransferOperation, now: Instant, lookup: ChainLookup, ghost cfg: Config)
      returns (r: Option<Outcome>)
      requires db.Valid() && Configured(cfg)
      modifies db
      ensures db.Valid()
      ensures match AnswerFor(op, lookup)
              case None => r == None && db.Contents() == old(db.Contents())
              case Some(answer) =>
                var decision := Decide(cfg, op, now, answer);
                && r == Some(OutcomeOf(decision))
                && db.Contents() == SettledStore(old(db.Contents()), op, decision, now)
      ensures var age, hash := now - op.updatedAt, op.txHash.GetOr("");
              var answer := lookup(op.key.chain, hash);
              && (r == None <==> op.status != RESERVED && hash != "" && answer == None)
              && (r == Some(FAILED_NOW) <==>
                    || (op.status == RESERVED && age > reservedTimeout)
                    || (op.status != RESERVED && hash == "")
                    || (op.status != RESERVED && answer.Some?
                        && (answer.value.Rejected? || (answer.value in {NotFound, InMempool} && age > submittedTimeout))))
              && (r == Some(CONFIRMED_NOW) <==> op.status != RESERVED && hash != "" && answer == Some(OnChain))
      ensures r == None || r == Some(NOOP) ==> db.Contents() == old(db.Contents())
      ensures r == Some(CONFIRMED_NOW) ==> IsConfirmed(old(db.Contents()), db.Contents(), op, now)
      ensures r == Some(FAILED_NOW) ==>
        var before, after := old(db.Contents()), db.Contents();
        if op.status == RESERVED then
          IsFailed(before, after, op, "Transfer reservation expired before broadcast completed", "reservation_timeout", now)
        else if op.txHash == None || op.txHash == Some("") then
          IsFailed(before, after, op, "Submitted transfer is missing txHash", "missing_tx_hash", now)
        else
          match lookup(op.key.chain, op.txHash.value)
          case Some(Rejected(Some(reason))) => IsFailed(before, after, op, reason, "chain_failed", now)
          case Some(Rejected(None)) => IsFailed(before, after, op, "Transaction failed on chain", "chain_failed", now)
          case Some(NotFound) =>
            IsFailed(before, after, op, "Transaction was not found before settlement timeout", "not_found_timeout", now)
          case Some(InMempool) => IsFailed(before, after, op, "Transaction confirmation timed out", "confirmation_timeout", now)
          case _ => false
    {
      hide IsFailed, IsConfirmed;
      var age := now - op.updatedAt;
      if op.status == RESERVED {
        if age <= reservedTimeout {
          return Some(NOOP);
        }
        FailOperation(op, "Transfer reservation expired before broadcast completed", "reservation_timeout", now);
        return Some(FAILED_NOW);
      }
      if op.txHash.GetOr("") == "" {
        FailOperation(op, "Submitted transfer is missing txHash", "missing_tx_hash", now);
        return Some(FAILED_NOW);
      }
      var answer := lookup(op.key.chain, op.txHash.GetOr(""));
      if answer.None? {
        return None;
      }
      if answer.value == OnChain {
        ConfirmOperation(op, now);
        return Some(CONFIRMED_NOW);
      }
      if answer.value.Rejected? {
        FailOperation(op, answer.value.reason.GetOr("Transaction failed on chain"), "chain_failed", now);
        return Some(FAILED_NOW);
      }
      if age <= submittedTimeout {
        return Some(NOOP);
      }
      FailOperation(op,
        if answer.value == NotFound then "Transaction was not found before settlement timeout"
        else "Transaction confirmation timed out",
        if answer.value == NotFound then "not_found_timeout" else "confirmation_timeout", now);
      return Some(FAILED_NOW);
    }

    /** One pass with nothing else running. It is a disciplined run of the system that leaves no
        pass behind, thrown lookup or not. The counts are the numbers of listed operations that
        are now CONFIRMED and FAILED; when all are overdue and no lookup throws, every listed
        operation is finished. */
    method Execute(limit: nat, clock: nat -> Instant, lookup: nat -> ChainLookup, ghost cfg: Config, ghost s: State)
      returns (r: Option<PassCounts>, ghost listed: seq<TransferOperation>, ghost events: seq<Event>)
      requires db.Valid() && Configured(cfg)
      requires s.store == db.Contents() && s.calls == map[] && s.passes == map[] && InStep(s)
      modifies db
      ensures db.Valid() && DisciplinedRun(cfg, s, events, s.(store := db.Contents()))
      ensures ListedByStatuses(old(db.transfers), limit, listed)
      ensures forall id | id !in IdsOf(listed) :: RowKept(old(db.Contents()), db.Contents(), id)
      ensures r.Some? ==>
        && (forall op | op in listed :: op.operationId in db.transfers)
        && r.value == PassCounts(
             processed := |listed|,
             confirmed := |set op | op in listed && op.operationId in db.transfers && db.transfers[op.operationId].status == CONFIRMED|,
             failed := |set op | op in listed && op.operationId in db.transfers && db.transfers[op.operationId].status == FAILED|)
      ensures WorkedOut(cfg, listed, r.Some?, clock, lookup, old(db.Contents()), db.Contents())
      ensures Overdue(cfg, old(db.transfers), clock, lookup) ==>
        && r.Some? && r.value.confirmed + r.value.failed == r.value.processed == |listed|
        && |listed| == (if limit < |PendingIds(old(db.transfers))| then limit else |PendingIds(old(db.transfers))|)
        && PendingIds(db.transfers) == PendingIds(old(db.transfers)) - IdsOf(listed)
        && IdsOf(listed) <= PendingIds(old(db.transfers))
    {
      hide InStep, DisciplinedRun, Overdue, ListedByStatuses, AtTurn, SettledStore, Decide, PendingIds, IdsOf, CountIn,
           RowKept, AnswerFor, WorkedThrough, WorkedOut, InStatus, Progress, HasAnswer, IsFailed, IsConfirmed, IsReleased, Looked;
      var operations := db.ListByStatuses(limit);
      listed := operations;
      var confirmed, failed := 0, 0;
      ghost var overdue := Overdue(cfg, db.transfers, clock, lookup);
      FirstTurn(cfg, s, limit, operations, overdue);
      NothingWorked(cfg, operations, clock, lookup, s.store, db.Contents());
      events := [BeginPass(0, limit, operations)];
      for i := 0 to |operations|
        invariant db.Valid()
        invariant AtTurn(cfg, s, events, operations, i, db.Contents(), confirmed, failed, overdue)
        invariant WorkedThrough(cfg, operations, i, clock, lookup, s.store, db.Contents())
      {
        ghost var cur := db.Contents();
        ListedAreStored(s.store.transfers, limit, operations, i);
        if overdue {
          OverdueIsDecided(cfg, s.store.transfers, clock, lookup, operations[i], i);
        }
        var outcome := SettleOperation(operations[i], clock(i), lookup(i), cfg);
        LookupsAgree(operations[i], lookup(i));
        if outcome.None? {
          ProgressAt(cfg, s, events, operations, i, cur, confirmed, failed, overdue);
          WorkedUntil(cfg, operations, i, clock, lookup, s.store, cur);
          LastTurn(cfg, s, events, operations, i, cur, confirmed, failed, limit, overdue);
          return None, listed, events + [StopPass(0)];
        }
        ProgressAt(cfg, s, events, operations, i, cur, confirmed, failed, overdue);
        OneMoreSettled(cfg, operations, i, clock, lookup, s.store, cur, limit);
        events := NextTurn(cfg, s, events, operations, i, cur, confirmed, failed, limit, clock(i),
                           AnswerFor(operations[i], lookup(i)).value, overdue);
        if outcome == Some(CONFIRMED_NOW) {
          confirmed := confirmed + 1;
        } else if outcome == Some(FAILED_NOW) {
          failed := failed + 1;
        }
      }
      ProgressAt(cfg, s, events, operations, |operations|, db.Contents(), confirmed, failed, overdue);
      WorkedUntil(cfg, operations, |operations|, clock, lookup, s.store, db.Contents());
      LastTurn(cfg, s, events, operations, |operations|, db.Contents(), confirmed, failed, limit, overdue);
      PassCounted(s.store.transfers, limit, operations, db.transfers);
      return Some(PassCounts(|operations|, confirmed, failed)), listed, events + [EndPass(0)];
    }

    /** The timer firing again and again while nothing new arrives: each pass finishes as many
        overdue operations as it may list, so once the passes could have listed all of them
        none is pending. */
    method RunTimer(passes: nat, limit: nat, clock: nat -> nat -> Instant, lookup: nat -> nat -> ChainLookup, ghost cfg: Config, ghost s: State)
      requires db.Valid() && Configured(cfg)
      requires s.store == db.Contents() && s.calls == map[] && s.passes == map[] && InStep(s)
      requires forall k :: Overdue(cfg, db.transfers, clock(k), lookup(k))
      modifies db
      ensures db.Valid()
      ensures |PendingIds(db.transfers)| == ClampToZero(|PendingIds(old(db.transfers))| - passes * limit)
      ensures passes * limit >= |PendingIds(old(db.transfers))| ==> PendingIds(db.transfers) == {}
    {
      hide InStep, DisciplinedRun, Overdue, ListedByStatuses, PendingIds, IdsOf, InStatus, RowKept, WorkedOut, Configured;
      ghost var n, m := |PendingIds(db.transfers)|, s;
      for k := 0 to passes
        invariant db.Valid() && m.store == db.Contents() && m.calls == map[] && m.passes == map[] && InStep(m)
        invariant forall j :: Overdue(cfg, db.transfers, clock(j), lookup(j))
        invariant |PendingIds(db.transfers)| == ClampToZero(n - k * limit)
      {
        ghost var before := db.transfers;
        var r, listed, events := Execute(limit, clock(k), lookup(k), cfg, m);
        InStepRun(cfg, m, events, m.(store := db.Contents()));
        PendingRowsKept(m.store, db.Contents(), listed);
        m := m.(store := db.Contents());
        FewerPending(before, listed);
        ListedDistinct(before, limit, listed);
        forall j ensures Overdue(cfg, db.transfers, clock(j), lookup(j)) {
          OverdueShrinks(cfg, before, db.transfers, clock(j), lookup(j), listed);
        }
        assert (k + 1) * limit == k * limit + limit;
      }
    }
  }

  lemma ListedDistinct(transfers: map<Id, TransferOperation>, limit: nat, listed: seq<TransferOperation>)
    requires ListedByStatuses(transfers, limit, listed)
    ensures |IdsOf(listed)| == |listed|
  {
    hide IdsOf;
    IdsAreDistinct(listed);
  }

  lemma PendingRowsKept(a: Store, b: Store, listed: seq<TransferOperation>)
    requires forall id | id !in IdsOf(listed) :: RowKept(a, b, id)
    requires PendingIds(b.transfers) == PendingIds(a.transfers) - IdsOf(listed)
    ensures forall id | id in PendingIds(b.transfers) :: id in a.transfers && b.transfers[id] == a.transfers[id]
  {
  }

  lemma FewerPending(before: map<Id, TransferOperation>, listed: seq<TransferOperation>)
    requires IdsOf(listed) <= PendingIds(before)
    ensures |PendingIds(before) - IdsOf(listed)| == |PendingIds(before)| - |IdsOf(listed)|
  {
    hide PendingIds, IdsOf;
  }

  lemma OverdueShrinks(cfg: Config, a: map<Id, TransferOperation>, b: map<Id, TransferOperation>, clock: nat -> Instant,
                       lookup: nat -> ChainLookup, listed: seq<TransferOperation>)
    requires Overdue(cfg, a, clock, lookup)
    requires PendingIds(b) == PendingIds(a) - IdsOf(listed)
    requires forall id | id in PendingIds(b) :: id in a && b[id] == a[id]
    ensures Overdue(cfg, b, clock, lookup)
  {
  }
}
