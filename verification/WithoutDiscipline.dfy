/** What goes wrong without the discipline, from every state in which it is broken. */
module WithoutDiscipline {
  import opened Wrappers
  import opened Domain
  import opened LimitWindows
  import opened Usage
  import opened Tables
  import opened Protocol
  import opened Interleavings
  import opened Discipline
  import opened Safety
  import opened Guards

  // ----------------------------------------------------- timing out a call that still runs

  /** An admitted call that has not thrown. */
  predicate OnItsWay(call: Call) {
    call.hasReservation && (call.step == Broadcasting || call.step.SavingSubmitted?)
  }

  /** The pass has reached an operation that it listed as RESERVED. */
  predicate ReachedReserved(s: State, p: nat) {
    && p in s.passes && !MidOperation(s.passes[p]) && s.passes[p].next < |s.passes[p].listed|
    && Current(s.passes[p]).status == RESERVED
  }

  lemma FailureWrites(s: Store, op: TransferOperation, message: string, now: Instant)
    requires op.operationId in s.transfers && s.transfers[op.operationId].actorRole == op.actorRole
    requires Agree(s.transfers[op.operationId], ReservationOf(s, op.operationId))
    requires op.operationId in s.reservations ==> s.reservations[op.operationId].status != CONSUMED
    ensures var t := CommitFailed(s, op, message, now);
            && OnlyAt(s, t, op.operationId) && SettledAt(t, op.operationId)
            && t.transfers[op.operationId].status == FAILED
  {
  }

  /** If the call has stopped by the time its operation is timed out, nothing breaks, even when
      the pass works from an outdated copy. */
  lemma StoppedCallMayTimeOut(s: State, p: nat, message: string, reason: string, now: Instant)
    requires InStep(s) && ReachedReserved(s, p)
    requires Current(s.passes[p]).operationId !in s.calls
    ensures InStep(CarryOut(s, p, Fail(message, reason), now))
  {
    var op := Current(s.passes[p]);
    StoredIsNotConfirmed(s, p);
    hide InStep, Sound, SnapshotOk, WellFormed, SameTransfer;
    AboutPass(s, p);
    SoundCarryOut(s, p, Fail(message, reason), now);
    FailureWrites(s.store, op, message, now);
    hide CommitFailed, CommitConfirmed, OnlyAt, Agree;
    PassMoves(s, CarryOut(s, p, Fail(message, reason), now), p);
  }

  lemma StoredIsNotConfirmed(s: State, p: nat)
    requires InStep(s) && p in s.passes && s.passes[p].next < |s.passes[p].listed| && !MidOperation(s.passes[p])
    requires Current(s.passes[p]).status == RESERVED
    ensures var op := Current(s.passes[p]);
            && op.operationId in s.store.transfers && s.store.transfers[op.operationId].status != CONFIRMED
            && s.store.transfers[op.operationId].actorRole == op.actorRole
            && (op.operationId in s.store.reservations ==> s.store.reservations[op.operationId].status != CONSUMED)
  {
    var pass := s.passes[p];
    assert SnapshotIsFresh(s, pass.listed[pass.next], pass.live);
    CurrentIsPending(s, p);
    hide Sound;
    assert SettledAt(s.store, Current(pass).operationId);
  }

  /** If the call is still on its way, the pass releases the reservation and the call then saves
      SUBMITTED: the operation goes out uncovered, although the rest of the run is
      disciplined. */
  lemma RunningCallGoesOutUncovered(cfg: Config, s: State, p: nat, message: string, reason: string, now: Instant, txHash: string)
    returns (events: seq<Event>, t: State)
    requires Sound(s) && ReachedReserved(s, p) && Current(s.passes[p]).actorRole == Agent
    requires var id := Current(s.passes[p]).operationId; id in s.calls && OnItsWay(s.calls[id])
    ensures DisciplinedRun(cfg, CarryOut(s, p, Fail(message, reason), now), events, t)
    ensures var id := Current(s.passes[p]).operationId;
            && id in t.store.transfers && t.store.transfers[id].Outgoing()
            && id in t.store.reservations && t.store.reservations[id].status == RELEASED
  {
    TimeoutLeaves(s, p, Fail(message, reason), now);
    hide Sound, CarryOut, DisciplinedRun;
    events, t := ReleaseThenSend(cfg, CarryOut(s, p, Fail(message, reason), now), p, now, txHash);
  }

  /** The pass is about to release the reservation of an operation whose call is on its way. */
  predicate AboutToRelease(s: State, p: nat) {
    && p in s.passes && s.passes[p].step.Releasing? && s.passes[p].next < |s.passes[p].listed|
    && var id := Current(s.passes[p]).operationId;
       && id in s.store.reservations && id in s.calls && OnItsWay(s.calls[id])
       && s.calls[id].operation.operationId == id && s.calls[id].operation.actorRole == Agent
  }

  lemma ReleaseThenSend(cfg: Config, s1: State, p: nat, now: Instant, txHash: string)
    returns (events: seq<Event>, t: State)
    requires AboutToRelease(s1, p)
    ensures DisciplinedRun(cfg, s1, events, t)
    ensures var id := Current(s1.passes[p]).operationId;
            && id in t.store.transfers && t.store.transfers[id].Outgoing()
            && id in t.store.reservations && t.store.reservations[id].status == RELEASED
  {
    var id := Current(s1.passes[p]).operationId;
    hide Settle, Catch, CommitSubmitted;
    ReleaseLeaves(s1, p, now);
    var s2 := Settle(s1, p, now);
    if s1.calls[id].step == Broadcasting {
      var s3 := HoldHash(s2, id, txHash);
      SubmittedLeaves(s3, id, now);
      t := CommitSubmitted(s3, id, now);
      events := [SettleReservation(p, now), BroadcastReturns(id, txHash), SaveSubmitted(id, now)];
      BroadcastAndSave(cfg, s2, id, txHash, now);
      ReleaseFirst(cfg, s1, p, now, [BroadcastReturns(id, txHash), SaveSubmitted(id, now)], t);
    } else {
      SubmittedLeaves(s2, id, now);
      t := CommitSubmitted(s2, id, now);
      events := [SettleReservation(p, now), SaveSubmitted(id, now)];
      Save(cfg, s2, id, now);
      ReleaseFirst(cfg, s1, p, now, [SaveSubmitted(id, now)], t);
    }
  }

  lemma Save(cfg: Config, s: State, id: Id, now: Instant)
    requires id in s.calls && s.calls[id].step.SavingSubmitted?
    ensures DisciplinedRun(cfg, s, [SaveSubmitted(id, now)], CommitSubmitted(s, id, now))
  {
    hide CommitSubmitted;
    assert DisciplinedRun(cfg, CommitSubmitted(s, id, now), [], CommitSubmitted(s, id, now));
  }

  lemma BroadcastAndSave(cfg: Config, s: State, id: Id, txHash: string, now: Instant)
    requires id in s.calls && s.calls[id].step == Broadcasting
    ensures DisciplinedRun(cfg, s, [BroadcastReturns(id, txHash), SaveSubmitted(id, now)],
                           CommitSubmitted(HoldHash(s, id, txHash), id, now))
  {
    hide CommitSubmitted;
    Save(cfg, HoldHash(s, id, txHash), id, now);
    assert [BroadcastReturns(id, txHash), SaveSubmitted(id, now)][1..] == [SaveSubmitted(id, now)];
  }

  lemma ReleaseFirst(cfg: Config, s: State, p: nat, now: Instant, rest: seq<Event>, t: State)
    requires p in s.passes && MidOperation(s.passes[p]) && s.passes[p].next < |s.passes[p].listed|
    requires DisciplinedRun(cfg, Settle(s, p, now), rest, t)
    ensures DisciplinedRun(cfg, s, [SettleReservation(p, now)] + rest, t)
  {
    hide Settle;
    assert ([SettleReservation(p, now)] + rest)[1..] == rest;
  }

  lemma TimeoutLeaves(s: State, p: nat, decision: Decision, now: Instant)
    requires Sound(s) && ReachedReserved(s, p) && Current(s.passes[p]).actorRole == Agent && decision.Fail?
    requires var id := Current(s.passes[p]).operationId; id in s.calls && OnItsWay(s.calls[id])
    ensures AboutToRelease(CarryOut(s, p, decision, now), p)
    ensures Current(CarryOut(s, p, decision, now).passes[p]) == Current(s.passes[p])
  {
    assert CallOk(s.store, Current(s.passes[p]).operationId, s.calls[Current(s.passes[p]).operationId]);
  }

  lemma ReleaseLeaves(s: State, p: nat, now: Instant)
    requires p in s.passes && s.passes[p].step.Releasing? && s.passes[p].next < |s.passes[p].listed|
    requires Current(s.passes[p]).operationId in s.store.reservations
    ensures var t := Settle(s, p, now);
            var id := Current(s.passes[p]).operationId;
            t.calls == s.calls && id in t.store.reservations && t.store.reservations[id].status == RELEASED
  {
  }

  lemma SubmittedLeaves(s: State, id: Id, now: Instant)
    requires id in s.calls && s.calls[id].step.SavingSubmitted? && s.calls[id].operation.operationId == id
    ensures var t := CommitSubmitted(s, id, now);
            && id in t.store.transfers && t.store.transfers[id].status == SUBMITTED
            && t.store.transfers[id].actorRole == s.calls[id].operation.actorRole
            && t.store.reservations == s.store.reservations
  {
  }

  // -------------------------------------------------------------------- overlapping passes

  /** What the two events of a pass that fails its operation do. */
  function GivenUp(s: State, p: nat, message: string, reason: string, now: Instant): State
    requires p in s.passes && s.passes[p].next < |s.passes[p].listed|
  {
    Settle(CarryOut(s, p, Fail(message, reason), now), p, now)
  }

  /** And when it finds the operation rejected. */
  function WrittenOff(s: State, p: nat, now: Instant): State
    requires p in s.passes && s.passes[p].next < |s.passes[p].listed|
  {
    GivenUp(s, p, "Transaction failed on chain", "chain_failed", now)
  }

  lemma FailThenRelease(s: State, p: nat, message: string, reason: string, now: Instant)
    requires p in s.passes && s.passes[p].next < |s.passes[p].listed|
    ensures var id := Current(s.passes[p]).operationId;
            var t := GivenUp(s, p, message, reason, now);
            && id in t.store.transfers && t.store.transfers[id].status == FAILED
            && t.store.transfers[id].actorRole == Current(s.passes[p]).actorRole
            && t.store.reservations == ReleaseReservation(s.store, id, reason, now).reservations
            && t.store.policies == s.store.policies && t.calls == s.calls && t.revived == s.revived
            && t.passes == s.passes[p := Forward(s.passes[p])]
  {
    var decision := Fail(message, reason);
    assert CarryOut(s, p, decision, now).passes[p := Forward(s.passes[p])] == s.passes[p := Forward(s.passes[p])];
  }

  lemma ConfirmThenConsume(s: State, p: nat, now: Instant)
    requires p in s.passes && s.passes[p].next < |s.passes[p].listed|
    requires Current(s.passes[p]).operationId in s.store.reservations
    ensures var id := Current(s.passes[p]).operationId;
            var confirmed := CarryOut(s, p, Confirm, now);
            var t := Settle(confirmed, p, now);
            && id in confirmed.store.transfers && confirmed.store.transfers[id].status == CONFIRMED
            && confirmed.store.transfers[id].actorRole == Current(s.passes[p]).actorRole
            && confirmed.store.reservations == s.store.reservations
            && t.store.transfers == confirmed.store.transfers
            && t.store.reservations == ConsumeReservation(s.store, id, now).reservations
            && t.revived == s.revived + if s.store.reservations[id].status == RELEASED then [s.store.reservations[id]] else []
  {
  }

  /** Both passes are about to examine the same copy of an operation. */
  predicate Together(s: State, p: nat, q: nat) {
    && p != q && p in s.passes && q in s.passes
    && !MidOperation(s.passes[p]) && !MidOperation(s.passes[q])
    && s.passes[p].next < |s.passes[p].listed| && s.passes[q].next < |s.passes[q].listed|
    && Current(s.passes[p]) == Current(s.passes[q])
  }

  /** And it is an AGENT operation, listed as SUBMITTED with a hash. */
  predicate ReachedTogether(s: State, p: nat, q: nat) {
    Together(s, p, q) && Confirmable(Current(s.passes[p]))
  }

  lemma RejectedIsFailed(cfg: Config, op: TransferOperation, now: Instant)
    requires Confirmable(op)
    ensures Decide(cfg, op, now, Rejected(None)) == Fail("Transaction failed on chain", "chain_failed")
    ensures Decide(cfg, op, now, OnChain) == Confirm
  {
  }

  lemma ExamineRejected(cfg: Config, s: State, p: nat, now: Instant)
    requires p in s.passes && !MidOperation(s.passes[p]) && s.passes[p].next < |s.passes[p].listed| && Confirmable(Current(s.passes[p]))
    ensures DisciplinedRun(cfg, s, [Examine(p, now, Rejected(None)), SettleReservation(p, now)], WrittenOff(s, p, now))
  {
    RejectedIsFailed(cfg, Current(s.passes[p]), now);
    var failed := CarryOut(s, p, Fail("Transaction failed on chain", "chain_failed"), now);
    assert MidOperation(failed.passes[p]) && failed.passes[p].next < |failed.passes[p].listed|;
    hide Decide, CarryOut, Settle;
    assert Apply(cfg, s, Examine(p, now, Rejected(None))) == failed;
    assert DisciplinedRun(cfg, WrittenOff(s, p, now), [], WrittenOff(s, p, now));
    assert [SettleReservation(p, now)][1..] == [];
    assert DisciplinedRun(cfg, failed, [SettleReservation(p, now)], WrittenOff(s, p, now));
    assert [Examine(p, now, Rejected(None)), SettleReservation(p, now)][1..] == [SettleReservation(p, now)];
  }

  lemma ExamineOnChain(cfg: Config, s: State, q: nat, now: Instant)
    requires q in s.passes && !MidOperation(s.passes[q]) && s.passes[q].next < |s.passes[q].listed| && Confirmable(Current(s.passes[q]))
    ensures var e := Examine(q, now, OnChain);
            && Enabled(s, e) && Disciplined(cfg, s, e) && Apply(cfg, s, e) == CarryOut(s, q, Confirm, now)
            && Enabled(Apply(cfg, s, e), SettleReservation(q, now))
            && Disciplined(cfg, Apply(cfg, s, e), SettleReservation(q, now))
  {
    RejectedIsFailed(cfg, Current(s.passes[q]), now);
    hide Decide;
  }

  /** The other pass still stands where it stood. */
  lemma OtherStillThere(s: State, p: nat, q: nat, now: Instant)
    requires ReachedTogether(s, p, q)
    ensures var t := WrittenOff(s, p, now);
            && q in t.passes && t.passes[q] == s.passes[q] && t.calls == s.calls
            && !MidOperation(t.passes[q]) && t.passes[q].next < |t.passes[q].listed| && Confirmable(Current(t.passes[q]))
  {
    FailThenRelease(s, p, "Transaction failed on chain", "chain_failed", now);
    hide WrittenOff;
  }

  /** One pass finds the operation rejected, the other confirmed: it is stored as CONFIRMED over
      a released reservation. */
  lemma RejectThenConfirm(cfg: Config, s: State, p: nat, q: nat, now: Instant) returns (t: State)
    requires Sound(s) && ReachedTogether(s, p, q)
    ensures DisciplinedRun(cfg, s, [Examine(p, now, Rejected(None)), SettleReservation(p, now)] + [Examine(q, now, OnChain)], t)
    ensures !AllCovered(t.store)
  {
    OtherStillThere(s, p, q, now);
    ConfirmedOverReleased(s, p, q, now);
    hide Sound, CarryOut, WrittenOff, AllCovered, Apply, Enabled, Disciplined, DisciplinedRun;
    var failed := WrittenOff(s, p, now);
    t := CarryOut(failed, q, Confirm, now);
    ExamineRejected(cfg, s, p, now);
    ExamineOnChain(cfg, failed, q, now);
    DisciplinedThen(cfg, s, [Examine(p, now, Rejected(None)), SettleReservation(p, now)], failed, Examine(q, now, OnChain));
  }

  lemma ConfirmedOverReleased(s: State, p: nat, q: nat, now: Instant)
    requires Sound(s) && ReachedTogether(s, p, q)
    ensures q in WrittenOff(s, p, now).passes && WrittenOff(s, p, now).passes[q] == s.passes[q]
    ensures !AllCovered(CarryOut(WrittenOff(s, p, now), q, Confirm, now).store)
  {
    var op := Current(s.passes[p]);
    CurrentIsPending(s, p);
    assert SnapshotOk(s.store, op) && op.operationId in s.store.reservations;
    hide Sound, WellFormed, SnapshotOk;
    FailThenRelease(s, p, "Transaction failed on chain", "chain_failed", now);
    hide WrittenOff;
    ConfirmThenConsume(WrittenOff(s, p, now), q, now);
    hide CarryOut, Settle;
    assert !Covered(CarryOut(WrittenOff(s, p, now), q, Confirm, now).store, op.operationId);
  }

  lemma UsageAround(table: ReservationTable, id: Id, r: AssetLimitReservation, b: Boundaries, window: LimitWindow,
                    reason: string, now: Instant)
    requires id in table && table[id].status == ACTIVE && r.operationId != id && r.operationId !in table
    requires r.status == ACTIVE && r.WindowStart(window) == b.Of(window).start
    ensures var released := table[id := ReleaseAssetLimitReservation(table[id], reason, now)];
            var admitted := released[r.operationId := r];
            var revived := admitted[id := ConsumeAssetLimitReservation(admitted[id], now)];
            Used(revived, r.key, window, b.Of(window).start) == Used(table, r.key, window, b.Of(window).start) + r.amount
  {
    var q := Query(r.key, window, b.Of(window).start, COUNTED);
    var released := table[id := ReleaseAssetLimitReservation(table[id], reason, now)];
    var admitted := released[r.operationId := r];
    SumUpdate(table, id, ReleaseAssetLimitReservation(table[id], reason, now), q);
    SumUpdate(released, r.operationId, r, q);
    SumUpdate(admitted, id, ConsumeAssetLimitReservation(admitted[id], now), q);
  }

  function RevivalEvents(p: nat, q: nat, other: Id, now: Instant): seq<Event> {
    [Examine(p, now, Rejected(None)), SettleReservation(p, now), Admit(other, now, now), Examine(q, now, OnChain), SettleReservation(q, now)]
  }

  function AdmittedState(s: State, id: Id, b: Boundaries, now: Instant): State
    requires id in s.calls
  {
    var op := s.calls[id].operation;
    s.(store := SaveReservation(s.store, Reservation(id, op.key, op.requestedAmount, b, now)),
       calls := s.calls[id := Call(op, true, Broadcasting)])
  }

  /** The check of a waiting call passes once the write-off has freed its amount. */
  ghost predicate FitsAfterWriteOff(cfg: Config, s: State, p: nat, q: nat, other: Id, now: Instant) {
    && ReachedTogether(s, p, q)
    && var id := Current(s.passes[p]).operationId;
       && id in s.store.reservations && s.store.reservations[id].status == ACTIVE
       && other != id && other in s.calls && s.calls[other].step == Admitting
       && var op := s.calls[other].operation;
          Verdict(WrittenOff(s, p, now).store, op.key, op.requestedAmount, cfg.windows(now)).None?
  }

  lemma AdmittedInBetween(cfg: Config, s: State, p: nat, q: nat, other: Id, now: Instant) returns (t: State)
    requires FitsAfterWriteOff(cfg, s, p, q, other, now)
    ensures var events := [Examine(p, now, Rejected(None)), SettleReservation(p, now)] + [Admit(other, now, now)];
            && DisciplinedRun(cfg, s, events, t)
            && WrittenOff(s, p, now).calls == s.calls && t == AdmittedState(WrittenOff(s, p, now), other, cfg.windows(now), now)
    ensures q in t.passes && t.passes[q] == s.passes[q]
    ensures !MidOperation(t.passes[q]) && t.passes[q].next < |t.passes[q].listed| && Confirmable(Current(t.passes[q]))
  {
    OtherStillThere(s, p, q, now);
    hide Verdict, WrittenOff, DisciplinedRun, Reservation, SaveReservation;
    var failed := WrittenOff(s, p, now);
    t := AdmittedState(failed, other, cfg.windows(now), now);
    ExamineRejected(cfg, s, p, now);
    assert Apply(cfg, failed, Admit(other, now, now)) == t;
    DisciplinedThen(cfg, s, [Examine(p, now, Rejected(None)), SettleReservation(p, now)], failed, Admit(other, now, now));
  }

  /** Two passes hold the same operation. One finds it rejected, another call is admitted on what
      that frees, and the other pass finds the operation confirmed: the finished operation changes
      its verdict, its released reservation is revived, and the amount admitted in between comes
      on top of the old usage. */
  lemma OverlapRevives(cfg: Config, s: State, p: nat, q: nat, other: Id, now: Instant) returns (t: State)
    requires Sound(s) && FitsAfterWriteOff(cfg, s, p, q, other, now)
    ensures DisciplinedRun(cfg, s, RevivalEvents(p, q, other, now), t)
    ensures Revived(cfg, s, t, Current(s.passes[p]).operationId, s.calls[other].operation, now)
  {
    var m := AdmittedInBetween(cfg, s, p, q, other, now);
    RevivalOutcome(cfg, s, p, q, other, now);
    hide *;
    var before := [Examine(p, now, Rejected(None)), SettleReservation(p, now)] + [Admit(other, now, now)];
    t := ConfirmAndConsume(cfg, s, before, m, q, now);
    ListsEvents(p, q, other, now);
  }

  lemma ListsEvents(p: nat, q: nat, other: Id, now: Instant)
    ensures RevivalEvents(p, q, other, now) ==
            [Examine(p, now, Rejected(None)), SettleReservation(p, now)] + [Admit(other, now, now)]
            + [Examine(q, now, OnChain)] + [SettleReservation(q, now)]
  {
  }

  lemma ConfirmAndConsume(cfg: Config, s: State, before: seq<Event>, m: State, q: nat, now: Instant) returns (t: State)
    requires DisciplinedRun(cfg, s, before, m)
    requires q in m.passes && !MidOperation(m.passes[q]) && m.passes[q].next < |m.passes[q].listed| && Confirmable(Current(m.passes[q]))
    ensures DisciplinedRun(cfg, s, before + [Examine(q, now, OnChain)] + [SettleReservation(q, now)], t)
    ensures var confirmed := CarryOut(m, q, Confirm, now);
            && q in confirmed.passes && MidOperation(confirmed.passes[q]) && confirmed.passes[q].next < |confirmed.passes[q].listed|
            && t == Settle(confirmed, q, now)
  {
    ExamineOnChain(cfg, m, q, now);
    hide CarryOut, Settle, Apply, Disciplined, DisciplinedRun, Confirmable;
    var confirmed := CarryOut(m, q, Confirm, now);
    DisciplinedThen(cfg, s, before, m, Examine(q, now, OnChain));
    SettleNext(cfg, confirmed, q, now);
    DisciplinedThen(cfg, s, before + [Examine(q, now, OnChain)], confirmed, SettleReservation(q, now));
    t := Settle(confirmed, q, now);
  }

  lemma SettleNext(cfg: Config, s: State, q: nat, now: Instant)
    requires Enabled(s, SettleReservation(q, now))
    ensures q in s.passes && MidOperation(s.passes[q]) && s.passes[q].next < |s.passes[q].listed|
    ensures Apply(cfg, s, SettleReservation(q, now)) == Settle(s, q, now)
  {
    hide Settle;
  }

  /** The operation went from written off to CONFIRMED, and usage of the other's windows is up by
      the other's amount. */
  ghost predicate Revived(cfg: Config, s: State, t: State, id: Id, other: TransferOperation, now: Instant) {
    && id in t.store.transfers && t.store.transfers[id].status == CONFIRMED
    && id in s.store.reservations
    && t.revived == s.revived + [ReleaseAssetLimitReservation(s.store.reservations[id], "chain_failed", now)]
    && t.store.policies == s.store.policies
    && forall window: LimitWindow ::
         Used(t.store.reservations, other.key, window, cfg.windows(now).Of(window).start)
         == Used(s.store.reservations, other.key, window, cfg.windows(now).Of(window).start) + other.requestedAmount
  }

  lemma RevivalOutcome(cfg: Config, s: State, p: nat, q: nat, other: Id, now: Instant)
    requires Sound(s) && FitsAfterWriteOff(cfg, s, p, q, other, now)
    ensures WrittenOff(s, p, now).calls == s.calls
    ensures var m := AdmittedState(WrittenOff(s, p, now), other, cfg.windows(now), now);
            && q in m.passes && m.passes[q] == s.passes[q]
            && Revived(cfg, s, Settle(CarryOut(m, q, Confirm, now), q, now), Current(s.passes[p]).operationId, s.calls[other].operation, now)
  {
    OtherStillThere(s, p, q, now);
    FailThenRelease(s, p, "Transaction failed on chain", "chain_failed", now);
    CallIsFor(s, other);
    hide Sound, WrittenOff, Verdict, Revived, Settle, CarryOut;
    var m := AdmittedState(WrittenOff(s, p, now), other, cfg.windows(now), now);
    RevivalWrites(s, m, p, q, other, cfg.windows(now), now);
    RevivalCounted(cfg, s, m, p, q, other, now);
  }

  lemma CallIsFor(s: State, id: Id)
    requires Sound(s) && id in s.calls
    ensures s.calls[id].step == Admitting ==> id !in s.store.reservations
  {
    assert CallOk(s.store, id, s.calls[id]);
    hide Sound;
  }

  /** The tables after another call was admitted on what a write-off freed. */
  predicate AdmittedAfter(s: State, m: State, p: nat, q: nat, other: Id, b: Boundaries, now: Instant) {
    && ReachedTogether(s, p, q) && other in s.calls && s.calls[other].step == Admitting
    && var id, op := Current(s.passes[p]).operationId, s.calls[other].operation;
       && id in s.store.reservations && s.store.reservations[id].status == ACTIVE && other != id && other !in s.store.reservations
       && q in m.passes && m.passes[q] == s.passes[q] && m.revived == s.revived && m.store.policies == s.store.policies
       && m.store.reservations
          == s.store.reservations[id := ReleaseAssetLimitReservation(s.store.reservations[id], "chain_failed", now)]
                                 [other := Reservation(other, op.key, op.requestedAmount, b, now)]
  }

  lemma RevivalWrites(s: State, m: State, p: nat, q: nat, other: Id, b: Boundaries, now: Instant)
    requires ReachedTogether(s, p, q) && other in s.calls && s.calls[other].step == Admitting
    requires var id := Current(s.passes[p]).operationId;
             && id in s.store.reservations && s.store.reservations[id].status == ACTIVE && other != id && other !in s.store.reservations
    requires WrittenOff(s, p, now).calls == s.calls && m == AdmittedState(WrittenOff(s, p, now), other, b, now)
    ensures AdmittedAfter(s, m, p, q, other, b, now)
  {
    FailThenRelease(s, p, "Transaction failed on chain", "chain_failed", now);
    hide WrittenOff, ReleaseAssetLimitReservation;
  }

  lemma RevivalCounted(cfg: Config, s: State, m: State, p: nat, q: nat, other: Id, now: Instant)
    requires AdmittedAfter(s, m, p, q, other, cfg.windows(now), now)
    ensures Revived(cfg, s, Settle(CarryOut(m, q, Confirm, now), q, now), Current(s.passes[p]).operationId, s.calls[other].operation, now)
  {
    var id, op, b := Current(s.passes[p]).operationId, s.calls[other].operation, cfg.windows(now);
    ConfirmThenConsume(m, q, now);
    ConfirmKeepsPolicies(m, q, now);
    hide Used, Settle, CarryOut;
    var t := Settle(CarryOut(m, q, Confirm, now), q, now);
    forall window: LimitWindow
      ensures Used(t.store.reservations, op.key, window, b.Of(window).start)
           == Used(s.store.reservations, op.key, window, b.Of(window).start) + op.requestedAmount
    {
      UsageAround(s.store.reservations, id, Reservation(other, op.key, op.requestedAmount, b, now), b, window, "chain_failed", now);
    }
  }

  lemma ConfirmKeepsPolicies(s: State, p: nat, now: Instant)
    requires p in s.passes && s.passes[p].next < |s.passes[p].listed|
    ensures Settle(CarryOut(s, p, Confirm, now), p, now).store.policies == s.store.policies
  {
  }
}
