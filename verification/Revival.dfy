/** An invariant for any number of passes at once under which no released reservation is consumed:
    from the moment a pass has confirmed an operation until it has consumed the reservation, no
    other pass may write the operation off. */
module Revival {
  import opened Domain
  import opened Tables
  import opened Protocol
  import opened Interleavings
  import opened LimitBound
  import opened Discipline
  import opened Guards

  /** The pass has confirmed its operation and not yet consumed the reservation. */
  predicate IsConsuming(pass: Pass) {
    pass.step == Consuming && pass.next < |pass.listed|
  }

  ghost predicate NoneElseWritesOff(s: State, p: nat, id: Id) {
    forall q | q in s.passes && q != p :: !MayWriteOff(s.passes[q], id)
  }

  ghost predicate ConsumptionGuarded(s: State, p: nat)
    requires p in s.passes
  {
    IsConsuming(s.passes[p]) && AgentOwns(s.store, Current(s.passes[p]).operationId) ==>
      && Counted(s.store, Current(s.passes[p]).operationId)
      && Current(s.passes[p]).operationId !in s.calls
      && NoneElseWritesOff(s, p, Current(s.passes[p]).operationId)
  }

  ghost predicate ConsumptionsGuarded(s: State) {
    forall p | p in s.passes :: ConsumptionGuarded(s, p)
  }

  ghost predicate Unrevived(s: State) {
    Guarded(s) && ConsumptionsGuarded(s) && s.revived == []
  }

  // ------------------------------------------------------------------------ preservation

  /** A consuming pass stands still while the rest of the system moves. */
  lemma StandsStill(s: State, t: State, p: nat)
    requires p in s.passes && p in t.passes && ConsumptionGuarded(s, p) && t.passes[p] == s.passes[p]
    requires IsConsuming(s.passes[p]) && AgentOwns(t.store, Current(s.passes[p]).operationId) ==>
      var id := Current(s.passes[p]).operationId;
      && AgentOwns(s.store, id) && (id in t.calls ==> id in s.calls)
      && (Counted(s.store, id) && id !in s.calls && NoneElseWritesOff(s, p, id) ==> Counted(t.store, id))
      && forall q | q in t.passes && q != p && MayWriteOff(t.passes[q], id) :: q in s.passes && MayWriteOff(s.passes[q], id)
    ensures ConsumptionGuarded(t, p)
  {
    hide MayWriteOff, Counted, AgentOwns;
  }

  lemma OwnersStay(s: Store, t: Store, id: Id)
    requires Extends(s, t) && id in s.transfers
    ensures AgentOwns(t, id) <==> AgentOwns(s, id)
  {
  }

  lemma CurrentIsStored(s: State, p: nat)
    requires Sound(s) && p in s.passes && s.passes[p].next < |s.passes[p].listed|
    ensures Current(s.passes[p]).operationId in s.store.transfers
  {
    CurrentIsPending(s, p);
    hide Sound;
  }

  /** Everything but a step of a pass. */
  lemma OthersKeepConsumptions(s: State, t: State, changed: set<Id>)
    requires Sound(s) && ConsumptionsGuarded(s) && Extends(s.store, t.store)
    requires t.passes.Keys <= s.passes.Keys && forall p | p in t.passes :: t.passes[p] == s.passes[p]
    requires t.calls.Keys <= s.calls.Keys + changed && forall id | id in changed :: id in s.calls || id !in s.store.transfers
    requires forall id | id in s.store.reservations && id !in changed :: t.store.reservations[id] == s.store.reservations[id]
    ensures ConsumptionsGuarded(t)
  {
    hide MayWriteOff, Sound, NoneElseWritesOff, ConsumptionGuarded, Extends, AgentOwns;
    forall p | p in t.passes ensures ConsumptionGuarded(t, p) {
      assert ConsumptionGuarded(s, p);
      if IsConsuming(s.passes[p]) {
        CurrentIsStored(s, p);
        OwnersStay(s.store, t.store, Current(s.passes[p]).operationId);
        RowsStay(s.store, t.store);
      }
      StandsStill(s, t, p);
    }
  }

  lemma RowsStay(s: Store, t: Store)
    requires Extends(s, t)
    ensures forall id | id in s.reservations :: id in t.reservations
  {
  }

  /** A pass that moves on may write off nothing that it could not before. */
  lemma WritesOffNoMore(a: Pass, b: Pass, id: Id)
    requires PassMovedOn(a, b) && (IsReleasing(b, Current(a).operationId) ==> MayWriteOff(a, Current(a).operationId))
    ensures MayWriteOff(b, id) ==> MayWriteOff(a, id)
  {
  }

  /** A step of pass `r`, seen from a pass that consumes. */
  lemma PassStepKeepsOthers(s: State, t: State, r: nat, p: nat)
    requires Sound(s) && r in s.passes && p in s.passes && p != r && ConsumptionGuarded(s, p) && Extends(s.store, t.store)
    requires r in t.passes && t.passes == s.passes[r := t.passes[r]] && t.calls == s.calls && PassMovedOn(s.passes[r], t.passes[r])
    requires var id := Current(s.passes[r]).operationId;
             && OnlyAt(s.store, t.store, id)
             && (IsReleasing(t.passes[r], id) ==> MayWriteOff(s.passes[r], id))
             && (Counted(s.store, id) && !Counted(t.store, id) ==> MayWriteOff(s.passes[r], id))
    ensures ConsumptionGuarded(t, p)
  {
    assert s.passes[r].next < |s.passes[r].listed|;
    hide MayWriteOff, Sound, Extends, AgentOwns, PassMovedOn, ConsumptionGuarded;
    if IsConsuming(s.passes[p]) {
      var id := Current(s.passes[p]).operationId;
      CurrentIsStored(s, p);
      OwnersStay(s.store, t.store, id);
      WritesOffNoMore(s.passes[r], t.passes[r], id);
      if id != Current(s.passes[r]).operationId { CountedElsewhere(s.store, t.store, Current(s.passes[r]).operationId, id); }
    }
    hide OnlyAt, Counted, IsReleasing;
    StandsStill(s, t, p);
  }

  lemma CountedElsewhere(s: Store, t: Store, id: Id, other: Id)
    requires OnlyAt(s, t, id) && other != id
    ensures Counted(t, other) <==> Counted(s, other)
  {
  }

  lemma PassStepUnrevived(s: State, t: State, r: nat)
    requires Unrevived(s) && Guarded(t) && Extends(s.store, t.store) && t.revived == []
    requires r in s.passes && r in t.passes && t.passes == s.passes[r := t.passes[r]] && t.calls == s.calls
    requires PassMovedOn(s.passes[r], t.passes[r]) && ConsumptionGuarded(t, r)
    requires var id := Current(s.passes[r]).operationId;
             && OnlyAt(s.store, t.store, id)
             && (IsReleasing(t.passes[r], id) ==> MayWriteOff(s.passes[r], id))
             && (Counted(s.store, id) && !Counted(t.store, id) ==> MayWriteOff(s.passes[r], id))
    ensures Unrevived(t)
  {
    GuardedIsSound(s);
    hide Sound, Guarded, MayWriteOff, PassMovedOn, OnlyAt, Extends, ConsumptionGuarded, Counted, IsReleasing;
    forall p | p in t.passes ensures ConsumptionGuarded(t, p) {
      if p != r {
        assert ConsumptionGuarded(s, p);
        PassStepKeepsOthers(s, t, r, p);
      }
    }
  }

  // ------------------------------------------------------------------------- one step

  lemma ConfirmIsGuarded(s: State, p: nat, now: Instant)
    requires Guarded(s) && p in s.passes && s.passes[p].next < |s.passes[p].listed| && !MidOperation(s.passes[p])
    requires Current(s.passes[p]).status == SUBMITTED && Current(s.passes[p]).txHash.GetOr("") != ""
    ensures ConsumptionGuarded(CarryOut(s, p, Confirm, now), p)
  {
    var op, t := Current(s.passes[p]), CarryOut(s, p, Confirm, now);
    PassFacts(s, p);
    VerdictCommits(s, p, "", "", now);
    CommitsOnly(s, t, p, CONFIRMED);
    if op.actorRole == Agent {
      hide CarryOut, Sound, MayWriteOff, WellFormed, SameTransfer, Counted, AgentOwns, PassGuarded;
      forall q | q in t.passes && q != p ensures !MayWriteOff(t.passes[q], op.operationId) {
        assert Apart(s.passes[p], s.passes[q]);
      }
    }
  }

  lemma SettledPassConsumesNot(s: State, p: nat, now: Instant)
    requires p in s.passes && s.passes[p].next < |s.passes[p].listed| && MidOperation(s.passes[p])
    ensures p in Settle(s, p, now).passes && ConsumptionGuarded(Settle(s, p, now), p)
  {
    hide ConsumeReservation, ReleaseReservation, NoneElseWritesOff;
  }

  lemma NothingToRevive(s: State, p: nat, now: Instant)
    requires Unrevived(s) && p in s.passes && s.passes[p].next < |s.passes[p].listed| && MidOperation(s.passes[p])
    ensures Settle(s, p, now).revived == []
  {
    GuardedIsSound(s);
    var id := Current(s.passes[p]).operationId;
    if id in s.store.reservations { OwnedByAgent(s, id); }
    hide Sound, Guarded;
    assert ConsumptionGuarded(s, p);
    hide ConsumeReservation, ReleaseReservation, NoneElseWritesOff, AgentOwns;
  }

  lemma SettleKeepsUnrevived(s: State, p: nat, now: Instant)
    requires Unrevived(s) && p in s.passes && s.passes[p].next < |s.passes[p].listed| && MidOperation(s.passes[p])
    ensures Unrevived(Settle(s, p, now))
  {
    GuardedIsSound(s);
    hide Sound, Guarded, Settle, OnlyAt, Extends, ConsumptionGuarded, Counted;
    StoredUnder(s, Current(s.passes[p]).operationId);
    SoundSettle(s, p, now);
    SettleMovesOn(s, p, now);
    SettleGuarded(s, p, now);
    NothingToRevive(s, p, now);
    SettledPassConsumesNot(s, p, now);
    PassStepUnrevived(s, Settle(s, p, now), p);
  }

  /** A verdict on a copy the pass may write from. */
  lemma VerdictMoves(s: State, p: nat, decision: Decision, now: Instant)
    requires p in s.passes && s.passes[p].next < |s.passes[p].listed| && !MidOperation(s.passes[p])
    ensures var t := CarryOut(s, p, decision, now);
            && p in t.passes && t.passes == s.passes[p := t.passes[p]] && t.calls == s.calls && PassMovedOn(s.passes[p], t.passes[p])
            && t.store.reservations == s.store.reservations && t.revived == s.revived
            && OnlyAt(s.store, t.store, Current(s.passes[p]).operationId)
            && (IsReleasing(t.passes[p], Current(s.passes[p]).operationId) ==> decision.Fail?)
            && (IsConsuming(t.passes[p]) ==> decision == Confirm)
  {
  }

  lemma VerdictKeepsUnrevived(cfg: Config, s: State, p: nat, now: Instant, answer: ChainAnswer)
    requires Unrevived(s) && p in s.passes && s.passes[p].next < |s.passes[p].listed| && !MidOperation(s.passes[p])
    requires !TimesOutLiveCall(cfg, s.passes[p], now, answer)
    ensures Unrevived(CarryOut(s, p, Decide(cfg, Current(s.passes[p]), now, answer), now))
  {
    GuardedIsSound(s);
    CurrentPendingNow(s, p);
    var decision := Decide(cfg, Current(s.passes[p]), now, answer);
    VerdictIsItsOwn(cfg, s, p, now, answer);
    if decision == Confirm {
      ConfirmsOnlyHashed(cfg, Current(s.passes[p]), now, answer);
      ConfirmIsGuarded(s, p, now);
    }
    CarryOutGuarded(cfg, s, p, now, answer);
    hide Sound, Guarded, Decide, CarryOut, OnlyAt, Extends, Counted, AgentOwns, NoneElseWritesOff, WellFormed, SameTransfer;
    SoundCarryOut(s, p, decision, now);
    VerdictMoves(s, p, decision, now);
    PassStepUnrevived(s, CarryOut(s, p, decision, now), p);
  }

  lemma CurrentPendingNow(s: State, p: nat)
    requires Sound(s) && p in s.passes && s.passes[p].next < |s.passes[p].listed|
    ensures Current(s.passes[p]).Pending()
  {
    CurrentIsPending(s, p);
  }

  /** A new pass beside passes whose confirmed operations it does not list. */
  lemma BeginUnrevived(s: State, q: nat, limit: nat, listed: seq<TransferOperation>)
    requires Unrevived(s) && q !in s.passes
    requires Guarded(s.(passes := s.passes[q := Pass(listed, 0, Examining, s.calls.Keys)]))
    requires forall p | p in s.passes && IsConsuming(s.passes[p]) ::
      forall k | 0 <= k < |listed| :: listed[k].operationId != Current(s.passes[p]).operationId
    ensures Unrevived(s.(passes := s.passes[q := Pass(listed, 0, Examining, s.calls.Keys)]))
  {
    hide Guarded;
    var t := s.(passes := s.passes[q := Pass(listed, 0, Examining, s.calls.Keys)]);
    forall p | p in t.passes ensures ConsumptionGuarded(t, p) {
      if p != q { assert ConsumptionGuarded(s, p); }
    }
  }

  predicate OfAPass(e: Event) {
    e.Examine? || e.SettleReservation? || e.BeginPass?
  }

  lemma OtherEventUnrevived(cfg: Config, s: State, e: Event)
    requires Unrevived(s) && Enabled(s, e) && Disciplined(cfg, s, e) && !OfAPass(e)
    ensures Unrevived(Apply(cfg, s, e))
  {
    GuardedIsSound(s);
    GuardedStep(cfg, s, e);
    SoundStep(cfg, s, e);
    StoresItsOwn(s, e);
    hide Guarded, Sound, ConsumptionsGuarded, Extends, Disciplined;
    LeavesOtherRows(cfg, s, e);
    OthersKeepConsumptions(s, Apply(cfg, s, e), Touched(e));
  }

  /** The operation an event of a call is about. */
  function Touched(e: Event): set<Id> {
    if e.EndPass? || e.StopPass? || e.Crash? || e.ChangePolicy? || OfAPass(e) then {} else {e.id}
  }

  lemma StoresItsOwn(s: State, e: Event)
    requires Sound(s) && Enabled(s, e)
    ensures forall id | id in s.store.reservations :: s.store.reservations[id].operationId == id
    ensures forall id | id in s.calls :: s.calls[id].operation.operationId == id
  {
    assert StoreOk(s.store);
    forall id | id in s.calls ensures s.calls[id].operation.operationId == id { assert CallOk(s.store, id, s.calls[id]); }
  }

  lemma LeavesOtherPasses(cfg: Config, s: State, e: Event)
    requires Enabled(s, e) && !OfAPass(e)
    requires forall id | id in s.calls :: s.calls[id].operation.operationId == id
    ensures var t := Apply(cfg, s, e);
            && t.passes.Keys <= s.passes.Keys && (forall p | p in t.passes :: t.passes[p] == s.passes[p])
            && t.calls.Keys <= s.calls.Keys + Touched(e) && (forall id | id in Touched(e) :: id in s.calls || id !in s.store.transfers)
            && t.revived == s.revived
  {
    hide Verdict, Catch, TransferAction, NextPolicy, ReleaseReservation, CommitTransfer, Reservation;
  }

  lemma LeavesOtherRows(cfg: Config, s: State, e: Event)
    requires Enabled(s, e) && !OfAPass(e)
    requires forall id | id in s.store.reservations :: s.store.reservations[id].operationId == id
    requires forall id | id in s.calls :: s.calls[id].operation.operationId == id
    ensures var t := Apply(cfg, s, e);
            && t.passes.Keys <= s.passes.Keys && (forall p | p in t.passes :: t.passes[p] == s.passes[p])
            && t.calls.Keys <= s.calls.Keys + Touched(e) && (forall id | id in Touched(e) :: id in s.calls || id !in s.store.transfers)
            && (forall id | id in s.store.reservations && id !in Touched(e) ::
                  id in t.store.reservations && t.store.reservations[id] == s.store.reservations[id])
            && t.revived == s.revived
  {
    LeavesOtherPasses(cfg, s, e);
    if LeavesReservations(e) {
      hide Apply, Enabled;
      OthersLeaveReservations(cfg, s, e);
    } else {
      hide Verdict, Catch, TransferAction, NextPolicy;
    }
  }

  /** When no pass is running the next may begin. */
  lemma FirstPassUnrevived(cfg: Config, s: State, e: Event)
    requires Unrevived(s) && Enabled(s, e) && Disciplined(cfg, s, e) && e.BeginPass?
    ensures Unrevived(Apply(cfg, s, e))
  {
    hide Guarded, ConsumptionsGuarded, ListedByStatuses;
    GuardedStep(cfg, s, e);
    BeginUnrevived(s, e.pass, e.limit, e.listed);
  }

  lemma UnrevivedStep(cfg: Config, s: State, e: Event)
    requires Unrevived(s) && Enabled(s, e) && Disciplined(cfg, s, e)
    ensures Unrevived(Apply(cfg, s, e))
  {
    hide Unrevived, Settle, CarryOut, Decide, ListedByStatuses;
    if e.BeginPass? {
      FirstPassUnrevived(cfg, s, e);
    } else if e.Examine? {
      VerdictKeepsUnrevived(cfg, s, e.pass, e.now, e.answer);
    } else if e.SettleReservation? {
      SettleKeepsUnrevived(s, e.pass, e.now);
    } else {
      hide Apply, Enabled, Disciplined;
      OtherEventUnrevived(cfg, s, e);
    }
  }

  /** Under the invariant no disciplined run revives a reservation. */
  lemma {:induction false} UnrevivedRun(cfg: Config, s: State, events: seq<Event>, t: State)
    requires Unrevived(s) && DisciplinedRun(cfg, s, events, t)
    ensures Unrevived(t)
    decreases |events|
  {
    hide Unrevived, Apply, Enabled, Disciplined;
    if events != [] {
      UnrevivedStep(cfg, s, events[0]);
      UnrevivedRun(cfg, Apply(cfg, s, events[0]), events[1..], t);
    }
  }

  /** The invariant of a single pass implies it. */
  lemma InStepIsUnrevived(s: State)
    requires InStep(s)
    ensures Unrevived(s)
  {
    InStepIsGuarded(s);
    hide Guarded;
    forall p | p in s.passes ensures ConsumptionGuarded(s, p) { InStepConsumption(s, p); }
  }

  lemma InStepConsumption(s: State, p: nat)
    requires InStep(s) && p in s.passes
    ensures ConsumptionGuarded(s, p)
  {
    if IsConsuming(s.passes[p]) {
      AboutPass(s, p);
      hide Sound, CallsAgree, ListIsFresh;
      assert SettledAt(s.store, Current(s.passes[p]).operationId);
    }
  }
}
