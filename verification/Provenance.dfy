/** Where stored outcomes come from: which answer a pass writes down and why, and which broadcast a
    stored transaction hash is from. */
module Provenance {
  import opened Wrappers
  import opened Domain
  import opened Tables
  import opened Protocol
  import opened Interleavings
  import opened Discipline
  import opened Broadcasts

  // ------------------------------------------------------------------- what a pass decides

  /** A pass gives an operation up exactly when it was RESERVED for too long, lacks its hash, was
      rejected, or was SUBMITTED for too long and is not on chain; the reason says which. */
  predicate GivesUp(cfg: Config, op: TransferOperation, now: Instant, answer: ChainAnswer, message: string, reason: string) {
    if op.status == RESERVED then
      && now - op.updatedAt > cfg.reservedTimeout
      && message == "Transfer reservation expired before broadcast completed" && reason == "reservation_timeout"
    else if op.txHash.GetOr("") == "" then
      message == "Submitted transfer is missing txHash" && reason == "missing_tx_hash"
    else
      match answer
      case OnChain => false
      case Rejected(why) => message == why.GetOr("Transaction failed on chain") && reason == "chain_failed"
      case NotFound =>
        && now - op.updatedAt > cfg.submittedTimeout
        && message == "Transaction was not found before settlement timeout" && reason == "not_found_timeout"
      case InMempool =>
        && now - op.updatedAt > cfg.submittedTimeout
        && message == "Transaction confirmation timed out" && reason == "confirmation_timeout"
  }

  lemma DecisionInWords(cfg: Config, op: TransferOperation, now: Instant, answer: ChainAnswer)
    ensures forall message, reason :: Decide(cfg, op, now, answer) == Fail(message, reason) <==> GivesUp(cfg, op, now, answer, message, reason)
    ensures Decide(cfg, op, now, answer) == Confirm <==> op.status != RESERVED && op.txHash.GetOr("") != "" && answer == OnChain
  {
  }

  /** The copy, given up. */
  predicate IsFailedCopy(row: TransferOperation, op: TransferOperation, message: string, now: Instant) {
    row == op.(status := FAILED, errorCode := Some("TRANSFER_BROADCAST_FAILED"), errorMessage := Some(message),
               confirmedAt := None, failedAt := Some(now), updatedAt := now)
  }

  /** The copy, confirmed. */
  predicate IsConfirmedCopy(row: TransferOperation, op: TransferOperation, now: Instant) {
    row == op.(status := CONFIRMED, errorCode := None, errorMessage := None,
               confirmedAt := Some(now), failedAt := None, updatedAt := now)
  }

  /** No row but this one is written. */
  ghost predicate WritesRow(s: State, t: State, id: Id) {
    id in t.store.transfers && t.store.transfers == s.store.transfers[id := t.store.transfers[id]]
  }

  lemma CarriedOut(s: State, p: nat, decision: Decision, now: Instant)
    requires p in s.passes && s.passes[p].next < |s.passes[p].listed| && !MidOperation(s.passes[p])
    ensures var op, t := Current(s.passes[p]), CarryOut(s, p, decision, now);
            && p in t.passes && t.store.reservations == s.store.reservations && t.store.policies == s.store.policies
            && match decision
               case Noop => t.passes[p].step == Examining && t.store == s.store && t.passes[p].next == s.passes[p].next + 1
               case Confirm =>
                 && t.passes[p].step == Consuming
                 && WritesRow(s, t, op.operationId) && IsConfirmedCopy(t.store.transfers[op.operationId], op, now)
               case Fail(message, reason) =>
                 && t.passes[p].step == Releasing(reason)
                 && WritesRow(s, t, op.operationId) && IsFailedCopy(t.store.transfers[op.operationId], op, message, now)
  {
  }

  /** What a pass writes of the operation it examines, if anything, and with which step it goes on. */
  lemma ExaminedInWords(cfg: Config, s: State, p: nat, now: Instant, answer: ChainAnswer)
    requires Enabled(s, Examine(p, now, answer))
    ensures var op, t := Current(s.passes[p]), Apply(cfg, s, Examine(p, now, answer));
            && p in t.passes && t.store.reservations == s.store.reservations && t.store.policies == s.store.policies
            && (forall reason | t.passes[p].step == Releasing(reason) ::
                  exists message :: GivesUp(cfg, op, now, answer, message, reason))
            && (forall message, reason | GivesUp(cfg, op, now, answer, message, reason) ::
                  && t.passes[p].step == Releasing(reason)
                  && WritesRow(s, t, op.operationId) && IsFailedCopy(t.store.transfers[op.operationId], op, message, now))
            && (t.passes[p].step == Consuming <==> op.status != RESERVED && op.txHash.GetOr("") != "" && answer == OnChain)
            && (t.passes[p].step == Consuming ==>
                  WritesRow(s, t, op.operationId) && IsConfirmedCopy(t.store.transfers[op.operationId], op, now))
            && (t.passes[p].step == Examining ==> t.store == s.store && t.passes[p].next == s.passes[p].next + 1)
  {
    var op := Current(s.passes[p]);
    var decision := Decide(cfg, op, now, answer);
    DecisionInWords(cfg, op, now, answer);
    hide Decide, CarryOut, GivesUp, WritesRow, IsFailedCopy, IsConfirmedCopy;
    CarriedOut(s, p, decision, now);
    if decision.Fail? {
      assert GivesUp(cfg, op, now, answer, decision.message, decision.releaseReason);
    }
  }

  // ------------------------------------------------------------------ where a hash is from

  /** The broadcast of the operation returned this hash. */
  ghost predicate Carried(events: seq<Event>, id: Id, txHash: string) {
    exists i :: 0 <= i < |events| && events[i] == BroadcastReturns(id, txHash)
  }

  /** A hash, where there is one, is from the operation's own broadcast. */
  ghost predicate IsFromBroadcast(events: seq<Event>, op: TransferOperation) {
    op.txHash.Some? ==> Carried(events, op.operationId, op.txHash.value)
  }

  ghost predicate ListedFromBroadcasts(events: seq<Event>, listed: seq<TransferOperation>) {
    forall j | 0 <= j < |listed| :: IsFromBroadcast(events, listed[j])
  }

  ghost predicate AllFromBroadcasts(events: seq<Event>, s: State) {
    && (forall id | id in s.store.transfers :: IsFromBroadcast(events, s.store.transfers[id]))
    && (forall id | id in s.calls && s.calls[id].step.SavingSubmitted? :: Carried(events, id, s.calls[id].step.txHash))
    && (forall p | p in s.passes :: ListedFromBroadcasts(events, s.passes[p].listed))
  }

  lemma CarriedLater(events: seq<Event>, e: Event, id: Id, txHash: string)
    ensures Carried(events, id, txHash) ==> Carried(events + [e], id, txHash)
    ensures e == BroadcastReturns(id, txHash) ==> Carried(events + [e], id, txHash)
  {
    if Carried(events, id, txHash) {
      var i :| 0 <= i < |events| && events[i] == BroadcastReturns(id, txHash);
      assert (events + [e])[i] == events[i];
    }
    assert (events + [e])[|events|] == e;
  }

  lemma AllCarriedLater(events: seq<Event>, e: Event, s: State)
    requires AllFromBroadcasts(events, s)
    ensures AllFromBroadcasts(events + [e], s)
  {
    hide Carried;
    forall id | id in s.store.transfers ensures IsFromBroadcast(events + [e], s.store.transfers[id]) {
      if s.store.transfers[id].txHash.Some? { CarriedLater(events, e, s.store.transfers[id].operationId, s.store.transfers[id].txHash.value); }
    }
    forall id | id in s.calls && s.calls[id].step.SavingSubmitted? ensures Carried(events + [e], id, s.calls[id].step.txHash) {
      CarriedLater(events, e, id, s.calls[id].step.txHash);
    }
    forall p | p in s.passes ensures ListedFromBroadcasts(events + [e], s.passes[p].listed) {
      var listed := s.passes[p].listed;
      assert ListedFromBroadcasts(events, listed);
      forall j | 0 <= j < |listed| ensures IsFromBroadcast(events + [e], listed[j]) {
        if listed[j].txHash.Some? { CarriedLater(events, e, listed[j].operationId, listed[j].txHash.value); }
      }
    }
  }

  /** One row is written, from a source whose hash is known. */
  lemma RowFromBroadcast(events: seq<Event>, s: State, t: State, row: TransferOperation)
    requires AllFromBroadcasts(events, s) && IsFromBroadcast(events, row)
    requires t.store.transfers == s.store.transfers[row.operationId := row]
    requires forall id | id in t.calls && t.calls[id].step.SavingSubmitted? :: id in s.calls && t.calls[id].step == s.calls[id].step
    requires forall p | p in t.passes :: p in s.passes && t.passes[p].listed == s.passes[p].listed
    ensures AllFromBroadcasts(events, t)
  {
    hide IsFromBroadcast, Carried, ListedFromBroadcasts;
  }

  /** No row is written. */
  lemma NoRowFromBroadcast(events: seq<Event>, s: State, t: State)
    requires AllFromBroadcasts(events, s) && t.store.transfers == s.store.transfers
    requires forall id | id in t.calls && t.calls[id].step.SavingSubmitted? ::
      Carried(events, id, t.calls[id].step.txHash) || (id in s.calls && t.calls[id].step == s.calls[id].step)
    requires forall p | p in t.passes :: ListedFromBroadcasts(events, t.passes[p].listed)
    ensures AllFromBroadcasts(events, t)
  {
    hide IsFromBroadcast, Carried, ListedFromBroadcasts;
  }

  lemma CallHasNoHash(s: State, id: Id)
    requires Sound(s) && id in s.calls
    ensures s.calls[id].operation.txHash == None && s.calls[id].operation.operationId == id
  {
    assert CallOk(s.store, id, s.calls[id]) && StoreOk(s.store);
  }

  lemma SubmittedFromBroadcast(events: seq<Event>, s: State, id: Id, now: Instant)
    requires Sound(s) && AllFromBroadcasts(events, s) && id in s.calls && s.calls[id].step.SavingSubmitted?
    ensures AllFromBroadcasts(events, CommitSubmitted(s, id, now))
  {
    CallHasNoHash(s, id);
    hide Sound, AllFromBroadcasts, Carried, TransferAction;
    assert AllFromBroadcasts(events, s) ==> Carried(events, id, s.calls[id].step.txHash) by { CallCarried(events, s, id); }
    RowFromBroadcast(events, s, CommitSubmitted(s, id, now), MarkTransferSubmitted(s.calls[id].operation, s.calls[id].step.txHash, now));
  }

  lemma CallCarried(events: seq<Event>, s: State, id: Id)
    requires id in s.calls && s.calls[id].step.SavingSubmitted?
    ensures AllFromBroadcasts(events, s) ==> Carried(events, id, s.calls[id].step.txHash)
  {
  }

  lemma FailedFromBroadcast(events: seq<Event>, s: State, id: Id, now: Instant)
    requires Sound(s) && AllFromBroadcasts(events, s) && id in s.calls && s.calls[id].step.SavingFailed?
    ensures AllFromBroadcasts(events, CommitCallFailed(s, id, now))
  {
    CallHasNoHash(s, id);
    hide Sound, AllFromBroadcasts, Carried, TransferAction;
    var failure := s.calls[id].step.failure;
    RowFromBroadcast(events, s, CommitCallFailed(s, id, now),
                     MarkTransferFailed(s.calls[id].operation, failure.code, failure.message, Some(failure.limit), now));
  }

  lemma CopyFromBroadcast(events: seq<Event>, s: State, p: nat)
    requires p in s.passes && s.passes[p].next < |s.passes[p].listed|
    ensures AllFromBroadcasts(events, s) ==> IsFromBroadcast(events, Current(s.passes[p]))
  {
    if AllFromBroadcasts(events, s) { assert ListedFromBroadcasts(events, s.passes[p].listed); }
  }

  /** A pass keeps the hash of the copy it writes from. */
  lemma VerdictFromBroadcast(events: seq<Event>, s: State, p: nat, decision: Decision, now: Instant)
    requires AllFromBroadcasts(events, s) && p in s.passes && s.passes[p].next < |s.passes[p].listed|
    ensures AllFromBroadcasts(events, CarryOut(s, p, decision, now))
  {
    CopyFromBroadcast(events, s, p);
    var op, t := Current(s.passes[p]), CarryOut(s, p, decision, now);
    hide Carried;
    match decision
    case Noop =>
      assert forall q | q in t.passes :: t.passes[q].listed == s.passes[q].listed;
    case Confirm => hide AllFromBroadcasts; RowFromBroadcast(events, s, t, MarkTransferConfirmed(op, now));
    case Fail(message, _) =>
      hide AllFromBroadcasts;
      RowFromBroadcast(events, s, t, MarkTransferFailed(op, SETTLEMENT_ERROR, message, None, now));
  }

  lemma ListingFromBroadcasts(events: seq<Event>, s: State, limit: nat, listed: seq<TransferOperation>)
    requires AllFromBroadcasts(events, s) && ListedByStatuses(s.store.transfers, limit, listed)
    ensures ListedFromBroadcasts(events, listed)
  {
    hide IsFromBroadcast;
    forall j | 0 <= j < |listed| ensures IsFromBroadcast(events, listed[j]) {
      assert IsPendingRow(s.store.transfers, listed[j]);
    }
  }

  lemma BeginFromBroadcasts(events: seq<Event>, s: State, p: nat, limit: nat, listed: seq<TransferOperation>)
    requires AllFromBroadcasts(events, s) && ListedByStatuses(s.store.transfers, limit, listed)
    ensures AllFromBroadcasts(events, s.(passes := s.passes[p := Pass(listed, 0, Examining, s.calls.Keys)]))
  {
    ListingFromBroadcasts(events, s, limit, listed);
    hide ListedByStatuses, IsFromBroadcast, Carried, ListedFromBroadcasts;
  }

  lemma StartFromBroadcasts(events: seq<Event>, s: State, op: TransferOperation)
    requires AllFromBroadcasts(events, s) && op.txHash == None
    ensures AllFromBroadcasts(events, StartCall(s, op))
  {
    hide AllFromBroadcasts, Carried;
    RowFromBroadcast(events, s, StartCall(s, op), op);
  }

  /** The remaining steps write no operation. */
  predicate WritesNoRow(e: Event) {
    !e.StartTransfer? && !e.SaveSubmitted? && !e.SaveFailed? && !e.BeginPass? && !e.Examine?
  }

  lemma OthersFromBroadcasts(cfg: Config, events: seq<Event>, s: State, e: Event)
    requires AllFromBroadcasts(events, s) && Enabled(s, e) && WritesNoRow(e)
    requires e.BroadcastReturns? ==> Carried(events, e.id, e.txHash)
    ensures AllFromBroadcasts(events, Apply(cfg, s, e))
  {
    hide Carried, ListedFromBroadcasts, IsFromBroadcast, Verdict, TransferAction, NextPolicy, ReleaseAssetLimitReservation,
      ConsumeAssetLimitReservation;
    NoRowFromBroadcast(events, s, Apply(cfg, s, e));
  }

  lemma FromBroadcastsStep(cfg: Config, before: seq<Event>, s: State, e: Event)
    requires Sound(s) && AllFromBroadcasts(before, s) && Enabled(s, e)
    ensures AllFromBroadcasts(before + [e], Apply(cfg, s, e))
  {
    hide Sound, AllFromBroadcasts, Carried, StartCall, CommitSubmitted, CommitCallFailed, CarryOut, Decide, ListedByStatuses;
    AllCarriedLater(before, e, s);
    if e.StartTransfer? {
      StartFromBroadcasts(before + [e], s, CreateTransferOperation(e.id, e.actor, e.key, e.target, e.amount, e.now));
    } else if e.SaveSubmitted? {
      SubmittedFromBroadcast(before + [e], s, e.id, e.now);
    } else if e.SaveFailed? {
      FailedFromBroadcast(before + [e], s, e.id, e.now);
    } else if e.BeginPass? {
      BeginFromBroadcasts(before + [e], s, e.pass, e.limit, e.listed);
    } else if e.Examine? {
      VerdictFromBroadcast(before + [e], s, e.pass, Decide(cfg, Current(s.passes[e.pass]), e.now, e.answer), e.now);
    } else {
      hide Apply, Enabled;
      if e.BroadcastReturns? { CarriedLater(before, e, e.id, e.txHash); }
      OthersFromBroadcasts(cfg, before + [e], s, e);
    }
  }

  lemma {:induction false} FromBroadcastsRun(cfg: Config, before: seq<Event>, s: State, events: seq<Event>, t: State)
    requires Sound(s) && AllFromBroadcasts(before, s) && Run(cfg, s, events, t)
    ensures AllFromBroadcasts(before + events, t)
    decreases |events|
  {
    hide Sound, AllFromBroadcasts, Apply, Enabled;
    if events == [] {
      assert before + events == before;
    } else {
      SoundStep(cfg, s, events[0]);
      FromBroadcastsStep(cfg, before, s, events[0]);
      FromBroadcastsRun(cfg, before + [events[0]], Apply(cfg, s, events[0]), events[1..], t);
      assert before + [events[0]] + events[1..] == before + events;
    }
  }

  // ---------------------------------------------------------------- which there is one of

  /** No operation is broadcast twice. */
  ghost predicate OneBroadcastEach(events: seq<Event>) {
    forall i, j | 0 <= i < j < |events| && events[i].BroadcastReturns? && events[j].BroadcastReturns? :: events[i].id != events[j].id
  }

  /** What is still to be broadcast has not been. */
  ghost predicate YetToBroadcast(events: seq<Event>, s: State) {
    && OneBroadcastEach(events)
    && (forall id | id in BroadcastIds(events) :: id in s.store.transfers)
    && (forall id | id in s.calls && (s.calls[id].step == Admitting || s.calls[id].step == Broadcasting) :: id !in BroadcastIds(events))
  }

  lemma OneMoreEvent(events: seq<Event>, e: Event)
    ensures BroadcastIds(events + [e]) == BroadcastIds(events) + if e.BroadcastReturns? then {e.id} else {}
    ensures OneBroadcastEach(events) && (e.BroadcastReturns? ==> e.id !in BroadcastIds(events)) ==> OneBroadcastEach(events + [e])
  {
    var all := events + [e];
    forall id | id in BroadcastIds(events) ensures id in BroadcastIds(all) {
      var i :| 0 <= i < |events| && events[i].BroadcastReturns? && events[i].id == id;
      assert all[i] == events[i];
    }
    assert all[|events|] == e;
    forall id | id in BroadcastIds(all) ensures id in BroadcastIds(events) || (e.BroadcastReturns? && e.id == id) {
      var i :| 0 <= i < |all| && all[i].BroadcastReturns? && all[i].id == id;
      assert i < |events| ==> all[i] == events[i];
    }
  }

  /** A call that is about to be broadcast was before, or has just been admitted or created. */
  lemma StepsToBroadcast(cfg: Config, s: State, e: Event, id: Id)
    requires Enabled(s, e) && id in Apply(cfg, s, e).calls
    requires forall k | k in s.calls :: s.calls[k].operation.operationId == k
    requires Apply(cfg, s, e).calls[id].step == Admitting || Apply(cfg, s, e).calls[id].step == Broadcasting
    ensures (e.StartTransfer? && e.id == id) || (id in s.calls && (s.calls[id].step == Admitting || s.calls[id].step == Broadcasting))
    ensures e.BroadcastReturns? ==> e.id != id
  {
    hide Verdict, TransferAction, NextPolicy, ReleaseReservation, ConsumeReservation, Decide, CommitTransfer, Reservation;
  }

  lemma RowsStay(cfg: Config, s: State, e: Event)
    requires Sound(s) && Enabled(s, e)
    ensures forall id | id in s.store.transfers :: id in Apply(cfg, s, e).store.transfers
    ensures e.BroadcastReturns? ==> e.id in Apply(cfg, s, e).store.transfers
  {
    hide Sound, Apply, Enabled, SameTransfer, SameReservation;
    SoundStep(cfg, s, e);
    if e.BroadcastReturns? { BroadcastIsOfACall(cfg, s, e); }
  }

  /** Who is broadcast next has not been. */
  lemma NotYetBroadcast(before: seq<Event>, s: State, e: Event)
    requires Enabled(s, e) && YetToBroadcast(before, s)
    ensures e.BroadcastReturns? ==> e.id !in BroadcastIds(before)
    ensures e.StartTransfer? ==> e.id !in BroadcastIds(before)
  {
    hide BroadcastIds, OneBroadcastEach;
  }

  lemma YetToBroadcastStep(cfg: Config, before: seq<Event>, s: State, e: Event)
    requires Sound(s) && YetToBroadcast(before, s) && Enabled(s, e)
    ensures YetToBroadcast(before + [e], Apply(cfg, s, e))
  {
    hide Sound, OneBroadcastEach, BroadcastIds, Apply, Enabled;
    OneMoreEvent(before, e);
    NotYetBroadcast(before, s, e);
    RowsStay(cfg, s, e);
    CallsAreTheirOwn(s);
    var t := Apply(cfg, s, e);
    forall id | id in t.calls && (t.calls[id].step == Admitting || t.calls[id].step == Broadcasting) ensures id !in BroadcastIds(before + [e]) {
      StepsToBroadcast(cfg, s, e, id);
    }
  }

  lemma CallsAreTheirOwn(s: State)
    requires Sound(s)
    ensures forall k | k in s.calls :: s.calls[k].operation.operationId == k
  {
    forall k | k in s.calls ensures s.calls[k].operation.operationId == k { CallHasNoHash(s, k); }
    hide Sound;
  }

  lemma {:induction false} YetToBroadcastRun(cfg: Config, before: seq<Event>, s: State, events: seq<Event>, t: State)
    requires Sound(s) && YetToBroadcast(before, s) && Run(cfg, s, events, t)
    ensures OneBroadcastEach(before + events)
    decreases |events|
  {
    hide Sound, OneBroadcastEach, BroadcastIds, Apply, Enabled;
    if events == [] {
      assert before + events == before;
    } else {
      SoundStep(cfg, s, events[0]);
      YetToBroadcastStep(cfg, before, s, events[0]);
      hide YetToBroadcast;
      YetToBroadcastRun(cfg, before + [events[0]], Apply(cfg, s, events[0]), events[1..], t);
      assert before + [events[0]] + events[1..] == before + events;
    }
  }

  /** Whatever interleaves, a stored hash is one the operation's broadcast returned, and it returned
      no other. */
  lemma StoredHashIsTheBroadcast(cfg: Config, s: State, events: seq<Event>, t: State, id: Id)
    requires Initial(s) && Run(cfg, s, events, t) && id in t.store.transfers && t.store.transfers[id].txHash.Some?
    ensures Carried(events, id, t.store.transfers[id].txHash.value)
    ensures forall i | 0 <= i < |events| && events[i].BroadcastReturns? && events[i].id == id ::
              events[i].txHash == t.store.transfers[id].txHash.value
  {
    InitialIsSound(s);
    FromBroadcastsRun(cfg, [], s, events, t);
    YetToBroadcastRun(cfg, [], s, events, t);
    SoundRun(cfg, s, events, t);
    assert [] + events == events;
    assert StoreOk(t.store);
    assert IsFromBroadcast(events, t.store.transfers[id]);
  }

  // ----------------------------------------------------------------------- and which stays

  ghost predicate KeepsHash(s: Store, t: Store, id: Id) {
    id in s.transfers && s.transfers[id].txHash.Some? ==> id in t.transfers && t.transfers[id].txHash == s.transfers[id].txHash
  }

  lemma CallWritesItsRow(cfg: Config, s: State, e: Event)
    requires Enabled(s, e) && (e.SaveSubmitted? || e.SaveFailed?) && s.calls[e.id].operation.operationId == e.id
    ensures WritesRow(s, Apply(cfg, s, e), e.id)
  {
    hide TransferAction;
  }

  lemma CallKeepsHash(cfg: Config, s: State, e: Event, id: Id)
    requires InStep(s) && Enabled(s, e) && (e.SaveSubmitted? || e.SaveFailed?)
    ensures KeepsHash(s.store, Apply(cfg, s, e).store, id)
  {
    hide InStep, Sound, Apply, CallOk, WellFormed, SameTransfer;
    InStepIsSound(s);
    AboutCall(s, e.id);
    CallHasNoHash(s, e.id);
    CallWritesItsRow(cfg, s, e);
  }

  lemma PassKeepsHash(cfg: Config, s: State, e: Event, id: Id)
    requires InStep(s) && Enabled(s, e) && Disciplined(cfg, s, e) && e.Examine?
    ensures KeepsHash(s.store, Apply(cfg, s, e).store, id)
  {
    ExaminedIsFresh(cfg, s, e);
    hide InStep, Decide, CarryOut, Disciplined, CallOk, Sound;
    var decision := Decide(cfg, Current(s.passes[e.pass]), e.now, e.answer);
    CarriedOut(s, e.pass, decision, e.now);
  }

  lemma OthersKeepHash(cfg: Config, s: State, e: Event, id: Id)
    requires Enabled(s, e) && !e.SaveSubmitted? && !e.SaveFailed? && !e.Examine?
    ensures KeepsHash(s.store, Apply(cfg, s, e).store, id)
  {
    hide Verdict, TransferAction, NextPolicy, ReleaseAssetLimitReservation, ConsumeAssetLimitReservation, Catch;
  }

  /** Once stored, under the discipline, the hash stays: confirming and failing keep it. */
  lemma {:induction false} HashStays(cfg: Config, s: State, events: seq<Event>, t: State, id: Id)
    requires InStep(s) && DisciplinedRun(cfg, s, events, t)
    requires id in s.store.transfers && s.store.transfers[id].txHash.Some?
    ensures id in t.store.transfers && t.store.transfers[id].txHash == s.store.transfers[id].txHash
    decreases |events|
  {
    hide InStep, Apply, Enabled, Disciplined;
    if events != [] {
      InStepStep(cfg, s, events[0]);
      if events[0].SaveSubmitted? || events[0].SaveFailed? {
        CallKeepsHash(cfg, s, events[0], id);
      } else if events[0].Examine? {
        PassKeepsHash(cfg, s, events[0], id);
      } else {
        OthersKeepHash(cfg, s, events[0], id);
      }
      HashStays(cfg, Apply(cfg, s, events[0]), events[1..], t, id);
    }
  }
}
