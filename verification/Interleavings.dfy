/** What no interleaving of transfer calls and settlement passes can break: nothing is assumed
    about overlapping passes, stale snapshots, thrown errors or crashes. */
module Interleavings {
  import opened Wrappers
  import opened Domain
  import opened LimitWindows
  import opened Tables
  import opened Protocol

  /** The reservation is the one its transfer asked for. */
  predicate SameDeal(r: AssetLimitReservation, op: TransferOperation) {
    && r.operationId == op.operationId
    && op.actorRole == Agent
    && r.key == op.key
    && r.amount == op.requestedAmount
  }

  ghost predicate StoreOk(s: Store) {
    && (forall id | id in s.transfers :: s.transfers[id].operationId == id && WellFormed(s.transfers[id]))
    && (forall id | id in s.reservations :: id in s.transfers && SameDeal(s.reservations[id], s.transfers[id]))
    && (forall id | id in s.transfers && s.transfers[id].Outgoing() :: id in s.reservations)
  }

  predicate CallOk(s: Store, id: Id, call: Call) {
    && id in s.transfers
    && SameTransfer(call.operation, s.transfers[id])
    && WellFormed(call.operation) && call.operation.status == RESERVED
    && (call.hasReservation <==> id in s.reservations)
    && (call.hasReservation ==> call.operation.actorRole == Agent)
    && (call.step == Admitting ==> call.operation.actorRole == Agent && !call.hasReservation)
    && (call.step == Broadcasting || call.step.SavingSubmitted? ==>
          call.operation.actorRole == Agent ==> call.hasReservation)
    && (call.step.Compensating? ==> call.hasReservation)
  }

  predicate SnapshotOk(s: Store, op: TransferOperation) {
    && op.operationId in s.transfers
    && SameTransfer(op, s.transfers[op.operationId])
    && WellFormed(op) && op.Pending()
    && (op.Outgoing() ==> op.operationId in s.reservations)
  }

  ghost predicate PassOk(s: Store, pass: Pass) {
    && pass.next <= |pass.listed|
    && (MidOperation(pass) ==> pass.next < |pass.listed|)
    && SnapshotsOk(s, pass.listed)
  }

  ghost predicate SnapshotsOk(s: Store, listed: seq<TransferOperation>) {
    forall j | 0 <= j < |listed| :: SnapshotOk(s, listed[j])
  }

  ghost predicate Sound(s: State) {
    && StoreOk(s.store)
    && (forall id | id in s.calls :: CallOk(s.store, id, s.calls[id]))
    && (forall p | p in s.passes :: PassOk(s.store, s.passes[p]))
  }

  /** What stays true of the tables however they are written: rows keep their identity and are
      never removed. */
  ghost predicate Extends(s: Store, t: Store) {
    && (forall id | id in s.transfers :: id in t.transfers && SameTransfer(s.transfers[id], t.transfers[id]))
    && (forall id | id in s.reservations :: id in t.reservations && SameReservation(s.reservations[id], t.reservations[id]))
  }

  lemma WriteTransfer(s: Store, op: TransferOperation, t: Store)
    requires StoreOk(s) && WellFormed(op)
    requires t.transfers == s.transfers[op.operationId := op] && t.reservations == s.reservations
    requires op.operationId in s.transfers ==> SameTransfer(s.transfers[op.operationId], op)
    requires op.Outgoing() ==> op.operationId in s.reservations
    ensures StoreOk(t) && Extends(s, t)
  {
  }

  lemma WriteReservation(s: Store, r: AssetLimitReservation, t: Store)
    requires StoreOk(s)
    requires t.transfers == s.transfers && t.reservations == s.reservations[r.operationId := r]
    requires r.operationId in s.transfers && SameDeal(r, s.transfers[r.operationId])
    requires r.operationId in s.reservations ==> SameReservation(s.reservations[r.operationId], r)
    ensures StoreOk(t) && Extends(s, t)
  {
  }

  lemma SettledReservation(s: Store, id: Id, reason: string, now: Instant)
    requires StoreOk(s)
    ensures var t := ConsumeReservation(s, id, now); StoreOk(t) && Extends(s, t) && t.reservations.Keys == s.reservations.Keys
    ensures var t := ReleaseReservation(s, id, reason, now); StoreOk(t) && Extends(s, t) && t.reservations.Keys == s.reservations.Keys
  {
    if id in s.reservations {
      var row := s.reservations[id];
      assert SameReservation(row, ConsumeAssetLimitReservation(row, now)) && SameReservation(row, ReleaseAssetLimitReservation(row, reason, now));
      hide ConsumeAssetLimitReservation, ReleaseAssetLimitReservation, Extends;
      WriteReservation(s, ConsumeAssetLimitReservation(row, now), ConsumeReservation(s, id, now));
      WriteReservation(s, ReleaseAssetLimitReservation(row, reason, now), ReleaseReservation(s, id, reason, now));
    } else {
      ExtendsItself(s);
    }
  }

  /** Snapshots held elsewhere survive a write, except that a new reservation concerns the call
      it was made for. */
  lemma SnapshotsSurvive(s: State, t: Store)
    requires Sound(s) && Extends(s.store, t)
    ensures forall p | p in s.passes :: PassOk(t, s.passes[p])
    ensures forall id | id in s.calls && (id in t.reservations ==> id in s.store.reservations) :: CallOk(t, id, s.calls[id])
  {
    forall p | p in s.passes ensures PassOk(t, s.passes[p]) {
      var pass := s.passes[p];
      forall j | 0 <= j < |pass.listed| ensures SnapshotOk(t, pass.listed[j]) {
        assert SnapshotOk(s.store, pass.listed[j]);
      }
    }
    forall id | id in s.calls && (id in t.reservations ==> id in s.store.reservations) ensures CallOk(t, id, s.calls[id]) {
      assert CallOk(s.store, id, s.calls[id]);
    }
  }

  lemma SoundStart(s: State, op: TransferOperation)
    requires Sound(s) && op.operationId !in s.store.transfers && WellFormed(op) && op.status == RESERVED
    ensures Sound(StartCall(s, op)) && Extends(s.store, StartCall(s, op).store)
  {
    var t := StartCall(s, op);
    WriteTransfer(s.store, op, t.store);
    SnapshotsSurvive(s, t.store);
    assert CallOk(t.store, op.operationId, t.calls[op.operationId]);
  }

  lemma SoundAdmit(s: State, id: Id, b: Boundaries, now: Instant)
    requires Sound(s) && id in s.calls && s.calls[id].step == Admitting
    ensures Sound(TryAdmit(s, id, b, now)) && Extends(s.store, TryAdmit(s, id, b, now).store)
  {
    hide Verdict, WellFormed;
    var t := TryAdmit(s, id, b, now);
    assert CallOk(s.store, id, s.calls[id]);
    if t.store != s.store {
      WriteReservation(s.store, t.store.reservations[id], t.store);
    }
    SnapshotsSurvive(s, t.store);
    assert CallOk(t.store, id, t.calls[id]);
  }

  lemma SoundThrow(s: State, id: Id, failure: Failure)
    requires Sound(s) && id in s.calls
    ensures Sound(Throw(s, id, failure))
  {
    assert CallOk(s.store, id, s.calls[id]);
  }

  lemma SoundBegin(s: State, p: nat, limit: nat, listed: seq<TransferOperation>)
    requires Sound(s) && ListedByStatuses(s.store.transfers, limit, listed)
    ensures Sound(s.(passes := s.passes[p := Pass(listed, 0, Examining, s.calls.Keys)]))
  {
    forall j | 0 <= j < |listed| ensures SnapshotOk(s.store, listed[j]) {
      assert IsPendingRow(s.store.transfers, listed[j]);
    }
  }

  /** Committing a verdict from a snapshot, however stale. */
  lemma VerdictsKeepStore(s: Store, op: TransferOperation, message: string, now: Instant)
    requires StoreOk(s) && SnapshotOk(s, op)
    ensures var t := CommitFailed(s, op, message, now);
            StoreOk(t) && Extends(s, t) && t.reservations == s.reservations
    ensures op.status == SUBMITTED ==>
            var t := CommitConfirmed(s, op, now);
            StoreOk(t) && Extends(s, t) && t.reservations == s.reservations
  {
    TransformersKeepShape(op, "", SETTLEMENT_ERROR, message, None, now);
    WriteTransfer(s, MarkTransferFailed(op, SETTLEMENT_ERROR, message, None, now), CommitFailed(s, op, message, now));
    if op.status == SUBMITTED {
      ConfirmedAgentIsReserved(s, op, now);
      WriteTransfer(s, MarkTransferConfirmed(op, now), CommitConfirmed(s, op, now));
    }
  }

  lemma ConfirmedAgentIsReserved(s: Store, op: TransferOperation, now: Instant)
    requires SnapshotOk(s, op) && op.status == SUBMITTED
    ensures MarkTransferConfirmed(op, now).Outgoing() ==> op.operationId in s.reservations
  {
  }

  lemma ConfirmsOnlySubmitted(cfg: Config, op: TransferOperation, now: Instant, answer: ChainAnswer)
    requires op.Pending()
    ensures Decide(cfg, op, now, answer) == Confirm ==> op.status == SUBMITTED && answer == OnChain
  {
  }

  lemma SameTransferChains(stored: TransferOperation, snapshot: TransferOperation, next: TransferOperation)
    requires SameTransfer(snapshot, stored) && SameTransfer(snapshot, next)
    ensures SameTransfer(stored, next)
  {
  }

  lemma SoundCommitSubmitted(s: State, id: Id, now: Instant)
    requires Sound(s) && id in s.calls && s.calls[id].step.SavingSubmitted?
    ensures Sound(CommitSubmitted(s, id, now)) && Extends(s.store, CommitSubmitted(s, id, now).store)
  {
    var t := CommitSubmitted(s, id, now);
    var call := s.calls[id];
    assert CallOk(s.store, id, call);
    hide WellFormed, SameTransfer;
    TransformersKeepShape(call.operation, call.step.txHash, "", "", None, now);
    SameTransferChains(s.store.transfers[id], call.operation, t.store.transfers[id]);
    WriteTransfer(s.store, t.store.transfers[id], t.store);
    SnapshotsSurvive(s, t.store);
  }

  lemma SoundCommitFailed(s: State, id: Id, now: Instant)
    requires Sound(s) && id in s.calls && s.calls[id].step.SavingFailed?
    ensures Sound(CommitCallFailed(s, id, now)) && Extends(s.store, CommitCallFailed(s, id, now).store)
  {
    var t := CommitCallFailed(s, id, now);
    var call := s.calls[id];
    assert CallOk(s.store, id, call);
    hide WellFormed, SameTransfer;
    var failure := call.step.failure;
    TransformersKeepShape(call.operation, "", failure.code, failure.message, Some(failure.limit), now);
    SameTransferChains(s.store.transfers[id], call.operation, t.store.transfers[id]);
    WriteTransfer(s.store, t.store.transfers[id], t.store);
    SnapshotsSurvive(s, t.store);
  }

  lemma SoundReleaseInCatch(s: State, id: Id, now: Instant)
    requires Sound(s) && id in s.calls && s.calls[id].step.Compensating?
    ensures Sound(ReleaseInCatch(s, id, now)) && Extends(s.store, ReleaseInCatch(s, id, now).store)
  {
    var t := ReleaseInCatch(s, id, now);
    assert CallOk(s.store, id, s.calls[id]);
    hide StoreOk, WellFormed, SameTransfer, ReleaseReservation, TransferAction, PassOk, Extends;
    SettledReservation(s.store, id, "transfer_failed:" + TransferAction(s.calls[id].operation.key), now);
    SnapshotsSurvive(s, t.store);
  }

  /** A pass writes and moves within its list. */
  lemma PassWrites(s: State, p: nat, moved: Pass, t: Store)
    requires Sound(s) && p in s.passes && moved.listed == s.passes[p].listed
    requires moved.next <= |moved.listed| && (MidOperation(moved) ==> moved.next < |moved.listed|)
    requires StoreOk(t) && Extends(s.store, t) && t.reservations.Keys == s.store.reservations.Keys
    ensures Sound(s.(store := t, passes := s.passes[p := moved]))
  {
    hide StoreOk, CallOk, SnapshotsOk, Extends;
    SnapshotsSurvive(s, t);
    assert PassOk(t, s.passes[p]);
  }

  lemma SoundCarryOut(s: State, p: nat, decision: Decision, now: Instant)
    requires Sound(s) && p in s.passes && s.passes[p].next < |s.passes[p].listed|
    requires decision == Confirm ==> Current(s.passes[p]).status == SUBMITTED
    ensures Sound(CarryOut(s, p, decision, now)) && Extends(s.store, CarryOut(s, p, decision, now).store)
  {
    CurrentIsPending(s, p);
    assert StoreOk(s.store);
    hide Sound, StoreOk, SnapshotOk, Extends, CommitFailed, CommitConfirmed;
    var t := CarryOut(s, p, decision, now);
    ExtendsItself(s.store);
    VerdictsKeepStore(s.store, Current(s.passes[p]), if decision.Fail? then decision.message else "", now);
    PassWrites(s, p, t.passes[p], t.store);
    assert t == s.(store := t.store, passes := s.passes[p := t.passes[p]]);
  }

  lemma SoundSettle(s: State, p: nat, now: Instant)
    requires Sound(s) && p in s.passes && MidOperation(s.passes[p]) && s.passes[p].next < |s.passes[p].listed|
    ensures Sound(Settle(s, p, now)) && Extends(s.store, Settle(s, p, now).store)
  {
    var t := Settle(s, p, now);
    var pass := s.passes[p];
    SettledReservation(s.store, Current(pass).operationId, if pass.step.Releasing? then pass.step.reason else "", now);
    hide StoreOk, Extends, PassOk, CallOk, ReleaseReservation, ConsumeReservation;
    PassWrites(s, p, t.passes[p], t.store);
    assert t.passes == s.passes[p := t.passes[p]];
  }

  lemma SoundHold(s: State, id: Id, txHash: string)
    requires Sound(s) && id in s.calls && s.calls[id].step == Broadcasting
    ensures Sound(HoldHash(s, id, txHash))
  {
    hide StoreOk, PassOk, WellFormed, SameTransfer;
    assert CallOk(s.store, id, s.calls[id]);
  }

  lemma SoundPolicy(s: State, t: Store)
    requires Sound(s) && t.transfers == s.store.transfers && t.reservations == s.store.reservations
    ensures Sound(s.(store := t)) && Extends(s.store, t)
  {
    ExtendsItself(s.store);
    SnapshotsSurvive(s, t);
  }

  /** Processes may be dropped at any point. */
  lemma SoundDrop(s: State, t: State)
    requires Sound(s) && t.store == s.store
    requires t.calls.Keys <= s.calls.Keys && forall id | id in t.calls :: t.calls[id] == s.calls[id]
    requires t.passes.Keys <= s.passes.Keys && forall p | p in t.passes :: t.passes[p] == s.passes[p]
    ensures Sound(t)
  {
  }

  /** Whatever writes next, every stored operation keeps its identity and the fields its status
      calls for, every reservation is the one its transfer asked for, and an AGENT operation on
      its way to the chain has a reservation. */
  lemma SoundStep(cfg: Config, s: State, e: Event)
    requires Sound(s) && Enabled(s, e)
    ensures Sound(Apply(cfg, s, e))
    ensures Extends(s.store, Apply(cfg, s, e).store)
  {
    hide Sound, Extends;
    ExtendsItself(s.store);
    match e {
      case StartTransfer(id, actor, key, target, amount, now) =>
        SoundStart(s, CreateTransferOperation(id, actor, key, target, amount, now));
      case Admit(id, now, written) => SoundAdmit(s, id, cfg.windows(now), written);
      case AdmitThrows(id, failure) => SoundThrow(s, id, failure);
      case BroadcastThrows(id, failure) => SoundThrow(s, id, failure);
      case SaveSubmittedThrows(id, failure) => SoundThrow(s, id, failure);
      case SaveSubmitted(id, now) => SoundCommitSubmitted(s, id, now);
      case SaveFailed(id, now) => SoundCommitFailed(s, id, now);
      case Compensate(id, now) => SoundReleaseInCatch(s, id, now);
      case BeginPass(p, limit, listed) => SoundBegin(s, p, limit, listed);
      case Examine(p, now, answer) =>
        CurrentIsPending(s, p);
        ConfirmsOnlySubmitted(cfg, Current(s.passes[p]), now, answer);
        SoundCarryOut(s, p, Decide(cfg, Current(s.passes[p]), now, answer), now);
      case SettleReservation(p, now) => SoundSettle(s, p, now);
      case BroadcastReturns(id, txHash) => SoundHold(s, id, txHash);
      case ChangePolicy(key, patch, author, now) => SoundPolicy(s, UpdatePolicy(s.store, key, patch, author, now));
      case _ => SoundDrop(s, Apply(cfg, s, e));
    }
  }

  lemma CurrentIsPending(s: State, p: nat)
    requires Sound(s) && p in s.passes && s.passes[p].next < |s.passes[p].listed|
    ensures SnapshotOk(s.store, Current(s.passes[p]))
  {
    assert PassOk(s.store, s.passes[p]);
  }

  lemma ExtendsItself(s: Store)
    ensures Extends(s, s)
  {
  }

  lemma InitialIsSound(s: State)
    requires Initial(s)
    ensures Sound(s)
  {
  }

  lemma ExtendsTransitive(s: Store, t: Store, u: Store)
    requires Extends(s, t) && Extends(t, u)
    ensures Extends(s, u)
  {
  }

  /** Over a whole run no operation is lost or becomes another transfer, no reservation is lost
      or changes its amount or windows, and every record keeps the shape its status calls
      for. */
  lemma {:induction false} SoundRun(cfg: Config, s: State, events: seq<Event>, t: State)
    requires Sound(s) && Run(cfg, s, events, t)
    ensures Sound(t) && Extends(s.store, t.store)
    decreases |events|
  {
    hide Sound, Extends, Apply;
    if events == [] {
      ExtendsItself(s.store);
    } else {
      SoundStep(cfg, s, events[0]);
      var next := Apply(cfg, s, events[0]);
      SoundRun(cfg, next, events[1..], t);
      ExtendsTransitive(s.store, next.store, t.store);
    }
  }

  // ------------------------------------------------------------------------------ audits

  function ResultFor(status: TransferStatus): AuditResult {
    if status == FAILED then AUDIT_FAILED else SUCCESS
  }

  /** Whether this action by this actor is one that brings an operation to its status: the call's
      own, under its actor, or settlement's. */
  predicate ActionFor(actor: ActorRole, action: string, op: TransferOperation) {
    match op.status
    case RESERVED => false
    case SUBMITTED => actor == op.actorRole && action == TransferAction(op.key)
    case CONFIRMED => actor == System && action == "transfer.settlement_confirmed"
    case FAILED =>
      || (actor == op.actorRole && action == TransferAction(op.key))
      || (actor == System && action == "transfer.settlement_failed")
  }

  predicate AuditsStatus(log: AuditLog, op: TransferOperation) {
    && log.TransferAudit? && log.operationId == op.operationId
    && log.result == ResultFor(op.status) && ActionFor(log.actorRole, log.action, op)
  }

  ghost predicate StatusWritten(s: Store, t: Store, id: Id) {
    id in t.transfers && t.transfers[id].status != RESERVED && (id !in s.transfers || s.transfers[id] != t.transfers[id])
  }

  /** A newly written status other than RESERVED came with exactly one new audit record, which
      names the operation, an action that leads to that status, its actor and its result; the log
      only grows. */
  ghost predicate AuditedWrite(s: Store, t: Store, id: Id) {
    && s.audits <= t.audits
    && (StatusWritten(s, t, id) ==>
          |t.audits| == |s.audits| + 1 && AuditsStatus(t.audits[|s.audits|], t.transfers[id]))
  }

  lemma CommitAudits(s: Store, op: TransferOperation, actor: ActorRole, action: string, id: Id)
    requires forall i | i in s.transfers :: s.transfers[i].operationId == i
    requires ActionFor(actor, action, op)
    ensures AuditedWrite(s, CommitTransfer(s, op, actor, action, ResultFor(op.status)), id)
  {
  }

  lemma ExamineAudits(s: State, p: nat, decision: Decision, now: Instant, id: Id)
    requires Sound(s) && p in s.passes && s.passes[p].next < |s.passes[p].listed|
    ensures AuditedWrite(s.store, CarryOut(s, p, decision, now).store, id)
  {
    assert StoreOk(s.store);
    var op := Current(s.passes[p]);
    match decision
    case Noop =>
    case Confirm =>
      CommitAudits(s.store, MarkTransferConfirmed(op, now), System, "transfer.settlement_confirmed", id);
    case Fail(message, _) =>
      CommitAudits(s.store, MarkTransferFailed(op, SETTLEMENT_ERROR, message, None, now),
                   System, "transfer.settlement_failed", id);
  }

  lemma CallAudits(s: State, call: Id, now: Instant, id: Id)
    requires Sound(s) && call in s.calls
    ensures s.calls[call].step.SavingSubmitted? ==> AuditedWrite(s.store, CommitSubmitted(s, call, now).store, id)
    ensures s.calls[call].step.SavingFailed? ==> AuditedWrite(s.store, CommitCallFailed(s, call, now).store, id)
  {
    assert StoreOk(s.store);
    var c := s.calls[call];
    hide AuditedWrite;
    if c.step.SavingSubmitted? {
      var op := MarkTransferSubmitted(c.operation, c.step.txHash, now);
      CommitAudits(s.store, op, op.actorRole, TransferAction(op.key), id);
    } else if c.step.SavingFailed? {
      var failure := c.step.failure;
      var op := MarkTransferFailed(c.operation, failure.code, failure.message, Some(failure.limit), now);
      CommitAudits(s.store, op, op.actorRole, TransferAction(op.key), id);
    }
  }

  lemma StatusIsWrittenWithAudit(cfg: Config, s: State, e: Event, id: Id)
    requires Sound(s) && Enabled(s, e)
    ensures AuditedWrite(s.store, Apply(cfg, s, e).store, id)
  {
    hide Sound, AuditedWrite, CommitSubmitted, CommitCallFailed, CarryOut, Decide, Verdict;
    match e {
      case SaveSubmitted(call, now) => CallAudits(s, call, now, id);
      case SaveFailed(call, now) => CallAudits(s, call, now, id);
      case Examine(p, now, answer) => ExamineAudits(s, p, Decide(cfg, Current(s.passes[p]), now, answer), now, id);
      case _ => NoStatusWritten(s.store, Apply(cfg, s, e).store, id);
    }
  }

  lemma NoStatusWritten(s: Store, t: Store, id: Id)
    requires s.audits <= t.audits
    requires id in t.transfers && t.transfers[id].status != RESERVED ==> id in s.transfers && s.transfers[id] == t.transfers[id]
    ensures AuditedWrite(s, t, id)
  {
  }

  ghost predicate Audited(s: Store) {
    forall id | id in s.transfers && s.transfers[id].status != RESERVED ::
      exists i :: 0 <= i < |s.audits| && AuditsStatus(s.audits[i], s.transfers[id])
  }

  lemma {:induction false} EveryStatusIsAudited(cfg: Config, s: State, events: seq<Event>, t: State)
    requires Sound(s) && Audited(s.store) && Run(cfg, s, events, t)
    ensures Audited(t.store)
    decreases |events|
  {
    hide Sound, Extends, Apply, AuditsStatus;
    if events != [] {
      SoundStep(cfg, s, events[0]);
      var next := Apply(cfg, s, events[0]);
      forall id | id in next.store.transfers && next.store.transfers[id].status != RESERVED
        ensures exists i :: 0 <= i < |next.store.audits| && AuditsStatus(next.store.audits[i], next.store.transfers[id])
      {
        StatusIsWrittenWithAudit(cfg, s, events[0], id);
        if !StatusWritten(s.store, next.store, id) {
          var i :| 0 <= i < |s.store.audits| && AuditsStatus(s.store.audits[i], s.store.transfers[id]);
          assert next.store.audits[i] == s.store.audits[i];
        }
      }
      EveryStatusIsAudited(cfg, next, events[1..], t);
    }
  }
}
