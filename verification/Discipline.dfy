/** What holds when settlement passes do not overlap and a pass times out a RESERVED operation
    only if its transfer call had already stopped when the pass listed it. */
module Discipline {
  import opened Wrappers
  import opened Domain
  import opened LimitWindows
  import opened Tables
  import opened Protocol
  import opened Interleavings

  ghost predicate Disciplined(cfg: Config, s: State, e: Event)
    requires Enabled(s, e)
  {
    match e
    case BeginPass(_, _, _) => s.passes == map[]
    case Examine(p, now, answer) => !TimesOutLiveCall(cfg, s.passes[p], now, answer)
    case _ => true
  }

  /** The pass is about to time out an operation whose call was running when the pass listed
      it. */
  predicate TimesOutLiveCall(cfg: Config, pass: Pass, now: Instant, answer: ChainAnswer)
    requires pass.next < |pass.listed|
  {
    && Current(pass).status == RESERVED
    && Decide(cfg, Current(pass), now, answer).Fail?
    && Current(pass).operationId in pass.live
  }

  ghost predicate DisciplinedRun(cfg: Config, s: State, events: seq<Event>, t: State)
    decreases |events|
  {
    if events == [] then s == t
    else
      && Enabled(s, events[0])
      && Disciplined(cfg, s, events[0])
      && DisciplinedRun(cfg, Apply(cfg, s, events[0]), events[1..], t)
  }

  lemma DisciplinedNothing(cfg: Config, s: State)
    ensures DisciplinedRun(cfg, s, [], s)
  {
  }

  lemma DisciplinedFirst(cfg: Config, s: State, e: Event, rest: seq<Event>, t: State)
    requires Enabled(s, e) && Disciplined(cfg, s, e) && DisciplinedRun(cfg, Apply(cfg, s, e), rest, t)
    ensures DisciplinedRun(cfg, s, [e] + rest, t)
  {
    hide Enabled, Apply, Disciplined;
    assert ([e] + rest)[1..] == rest;
  }

  lemma {:induction false} DisciplinedThen(cfg: Config, s: State, a: seq<Event>, m: State, e: Event)
    requires DisciplinedRun(cfg, s, a, m) && Enabled(m, e) && Disciplined(cfg, m, e)
    ensures DisciplinedRun(cfg, s, a + [e], Apply(cfg, m, e))
    decreases |a|
  {
    hide Apply, Enabled, Disciplined;
    if a == [] {
      assert DisciplinedRun(cfg, Apply(cfg, m, e), [], Apply(cfg, m, e));
      assert [] + [e] == [e] && [e][1..] == [];
    } else {
      assert (a + [e])[0] == a[0] && (a + [e])[1..] == a[1..] + [e];
      DisciplinedThen(cfg, Apply(cfg, s, a[0]), a[1..], m, e);
    }
  }

  lemma DisciplinedOne(cfg: Config, s: State, e: Event)
    requires Enabled(s, e) && Disciplined(cfg, s, e)
    ensures DisciplinedRun(cfg, s, [e], Apply(cfg, s, e))
  {
    hide Apply, Enabled, Disciplined;
    assert [e][1..] == [];
    DisciplinedNothing(cfg, Apply(cfg, s, e));
  }

  lemma {:induction false} DisciplinedConcat(cfg: Config, s: State, a: seq<Event>, m: State, b: seq<Event>, t: State)
    requires DisciplinedRun(cfg, s, a, m) && DisciplinedRun(cfg, m, b, t)
    ensures DisciplinedRun(cfg, s, a + b, t)
    decreases |a|
  {
    hide Apply, Enabled, Disciplined;
    if a == [] {
      assert a + b == b;
    } else {
      assert (a + b)[0] == a[0] && (a + b)[1..] == a[1..] + b;
      DisciplinedConcat(cfg, Apply(cfg, s, a[0]), a[1..], m, b, t);
    }
  }

  // --------------------------------------------------------------------------- invariant

  function ReservationOf(s: Store, id: Id): Option<AssetLimitReservation> {
    if id in s.reservations then Some(s.reservations[id]) else None
  }

  /** How far an operation and its reservation can be apart. */
  predicate Agree(op: TransferOperation, r: Option<AssetLimitReservation>) {
    && (op.actorRole != Agent ==> r.None?)
    && (r.Some? && r.value.status == CONSUMED ==> op.status == CONFIRMED)
    && (r.Some? && r.value.status == RELEASED ==> op.status == RESERVED || op.status == FAILED)
    && (op.Outgoing() ==> r.Some?)
  }

  /** While its call runs, the stored operation is the one the call created, and the
      reservation is active until the catch block releases it. */
  predicate CallAgrees(op: TransferOperation, r: Option<AssetLimitReservation>, call: Call) {
    && op == call.operation
    && (r.Some? ==> r.value.status == if call.step.SavingFailed? then RELEASED else ACTIVE)
  }

  /** What a pass has listed and not reached is still stored unchanged, unless its call was
      running at listing time; even then no one else has confirmed it. */
  ghost predicate ListIsFresh(s: State, pass: Pass) {
    && Distinct(pass.listed)
    && (forall j | (if MidOperation(pass) then pass.next + 1 else pass.next) <= j < |pass.listed| ::
          SnapshotIsFresh(s, pass.listed[j], pass.live))
  }

  predicate SnapshotIsFresh(s: State, op: TransferOperation, live: set<Id>) {
    && op.operationId in s.store.transfers
    && (|| (op.status == RESERVED && op.operationId in live && s.store.transfers[op.operationId].status != CONFIRMED)
        || (s.store.transfers[op.operationId] == op && op.operationId !in s.calls))
  }

  /** Between its two writes a pass knows what it wrote. */
  predicate PassAgrees(s: Store, pass: Pass)
    requires pass.next <= |pass.listed|
  {
    MidOperation(pass) && pass.next < |pass.listed| ==>
      && Current(pass).operationId in s.transfers
      && s.transfers[Current(pass).operationId].status == (if pass.step == Consuming then CONFIRMED else FAILED)
  }

  ghost predicate Settled(s: State) {
    forall id | id in s.store.transfers :: Agree(s.store.transfers[id], ReservationOf(s.store, id))
  }

  ghost predicate CallsAgree(s: State) {
    forall id | id in s.calls ::
      id in s.store.transfers && CallAgrees(s.store.transfers[id], ReservationOf(s.store, id), s.calls[id])
  }

  ghost predicate PassesAgree(s: State) {
    && (forall p, q | p in s.passes && q in s.passes :: p == q)
    && (forall p | p in s.passes ::
          s.passes[p].next <= |s.passes[p].listed| && PassAgrees(s.store, s.passes[p]) && ListIsFresh(s, s.passes[p])
          && NotMidOnCall(s, s.passes[p]))
  }

  /** No call is running for the operation a pass is in the middle of. */
  predicate NotMidOnCall(s: State, pass: Pass) {
    MidOperation(pass) && pass.next < |pass.listed| ==> Current(pass).operationId !in s.calls
  }

  /** Operations that are finished although their reservation is still active. */
  ghost function Unsettled(s: State): set<Id> {
    set id | id in s.store.transfers && s.store.transfers[id].Terminal()
             && id in s.store.reservations && s.store.reservations[id].status == ACTIVE
  }

  ghost function InProgress(s: State): set<Id> {
    StoppedByCrash(s.passes)
  }

  ghost predicate InStep(s: State) {
    && Sound(s)
    && Settled(s)
    && CallsAgree(s)
    && PassesAgree(s)
    && Unsettled(s) <= s.interrupted + InProgress(s)
    && s.revived == []
  }

  // ------------------------------------------------------------------------ preservation

  lemma InitialInStep(s: State)
    requires Initial(s)
    ensures InStep(s)
  {
  }

  lemma InStepIsSound(s: State)
    requires InStep(s)
    ensures Sound(s)
  {
  }

  /** The two tables differ at one operation only. */
  ghost predicate OnlyAt(s: Store, t: Store, id: Id) {
    && (forall i | i != id :: (i in s.transfers <==> i in t.transfers) && (i in s.reservations <==> i in t.reservations))
    && (forall i | i != id && i in s.transfers :: t.transfers[i] == s.transfers[i])
    && (forall i | i != id && i in s.reservations :: t.reservations[i] == s.reservations[i])
  }

  predicate SettledAt(s: Store, id: Id) {
    && id in s.transfers
    && Agree(s.transfers[id], ReservationOf(s, id))
  }

  predicate UnsettledAt(s: Store, id: Id) {
    id in s.transfers && s.transfers[id].Terminal() && id in s.reservations && s.reservations[id].status == ACTIVE
  }

  lemma CallKeepsLists(s: State, t: State, id: Id)
    requires PassesAgree(s) && id in s.calls
    requires t.passes == s.passes && OnlyAt(s.store, t.store, id)
    requires t.calls.Keys <= s.calls.Keys
    requires id in t.store.transfers && t.store.transfers[id].status != CONFIRMED
    ensures PassesAgree(t)
  {
    forall p | p in t.passes
      ensures PassAgrees(t.store, t.passes[p]) && ListIsFresh(t, t.passes[p]) && NotMidOnCall(t, t.passes[p])
    {
      var pass := t.passes[p];
      forall j | (if MidOperation(pass) then pass.next + 1 else pass.next) <= j < |pass.listed|
        ensures SnapshotIsFresh(t, pass.listed[j], pass.live)
      {
        assert SnapshotIsFresh(s, pass.listed[j], pass.live);
      }
    }
  }

  /** A step of one running call keeps the invariant when it keeps it for its own operation. */
  lemma CallMoves(s: State, t: State, id: Id)
    requires InStep(s) && Sound(t) && id in s.calls
    requires t.passes == s.passes && t.revived == s.revived && t.interrupted == s.interrupted
    requires OnlyAt(s.store, t.store, id) && SettledAt(t.store, id) && !UnsettledAt(t.store, id)
    requires t.store.transfers[id].status != CONFIRMED
    requires t.calls == s.calls - {id}
          || (id in t.calls && t.calls == s.calls[id := t.calls[id]]
              && CallAgrees(t.store.transfers[id], ReservationOf(t.store, id), t.calls[id]))
    ensures InStep(t)
  {
    hide Sound, Agree, CallAgrees, PassesAgree, StoppedByCrash;
    CallKeepsLists(s, t, id);
    assert Unsettled(t) <= Unsettled(s);
  }

  lemma NoOtherInProgress(s: State, p: nat, id: Id)
    requires PassesAgree(s) && p in s.passes && s.passes[p].next < |s.passes[p].listed|
    ensures id in InProgress(s) ==> id == Current(s.passes[p]).operationId && MidOperation(s.passes[p])
  {
  }

  /** A step of a pass on the operation it has reached. */
  lemma PassMoves(s: State, t: State, p: nat)
    requires InStep(s) && Sound(t) && p in s.passes && s.passes[p].next < |s.passes[p].listed|
    requires p in t.passes
    requires var id := Current(s.passes[p]).operationId;
             && OnlyAt(s.store, t.store, id) && SettledAt(t.store, id)
             && (id in s.calls ==> t.store == s.store)
             && (UnsettledAt(t.store, id) ==> id in s.interrupted + Stopped(t.passes[p]))
    requires p in t.passes && t.passes == s.passes[p := t.passes[p]]
    requires t.passes[p].listed == s.passes[p].listed && t.passes[p].live == s.passes[p].live
    requires t.calls == s.calls && t.revived == s.revived && t.interrupted == s.interrupted
    requires || (MidOperation(t.passes[p]) && t.passes[p].next == s.passes[p].next && !MidOperation(s.passes[p]))
             || (!MidOperation(t.passes[p]) && t.passes[p].next == s.passes[p].next + 1)
    requires PassAgrees(t.store, t.passes[p])
    requires MidOperation(t.passes[p]) ==> Current(s.passes[p]).operationId !in s.calls
    ensures InStep(t)
  {
    hide Sound, Agree, CallAgrees;
    var pass := t.passes[p];
    var id := Current(s.passes[p]).operationId;
    forall j | (if MidOperation(pass) then pass.next + 1 else pass.next) <= j < |pass.listed|
      ensures SnapshotIsFresh(t, pass.listed[j], pass.live)
    {
      assert SnapshotIsFresh(s, pass.listed[j], pass.live);
      assert pass.listed[j].operationId != id;
    }
    forall i | i in Unsettled(t) ensures i in t.interrupted + InProgress(t) {
      if i == id {
        assert id in Stopped(t.passes[p]) ==> id in InProgress(t);
      } else {
        assert i in Unsettled(s);
        NoOtherInProgress(s, p, i);
      }
    }
  }

  lemma StartKeepsLists(s: State, t: State, id: Id)
    requires Sound(s) && PassesAgree(s) && id !in s.store.transfers
    requires t.passes == s.passes && OnlyAt(s.store, t.store, id) && t.calls.Keys == s.calls.Keys + {id}
    ensures PassesAgree(t)
  {
    NewIdIsNowhere(s, id);
    hide Sound;
    forall p | p in t.passes
      ensures PassAgrees(t.store, t.passes[p]) && ListIsFresh(t, t.passes[p]) && NotMidOnCall(t, t.passes[p])
    {
      var pass := t.passes[p];
      forall j | (if MidOperation(pass) then pass.next + 1 else pass.next) <= j < |pass.listed|
        ensures SnapshotIsFresh(t, pass.listed[j], pass.live)
      {
        assert SnapshotIsFresh(s, pass.listed[j], pass.live);
      }
    }
  }

  lemma StartAgrees(s: State, op: TransferOperation)
    requires Settled(s) && CallsAgree(s) && op.status == RESERVED
    requires op.operationId !in s.store.transfers && op.operationId !in s.calls && op.operationId !in s.store.reservations
    ensures var t := StartCall(s, op); Settled(t) && CallsAgree(t) && Unsettled(t) <= Unsettled(s)
  {
    assert Agree(op, None);
    hide Agree;
  }

  lemma StartInStep(s: State, op: TransferOperation)
    requires InStep(s) && op.operationId !in s.store.transfers && WellFormed(op) && op.status == RESERVED
    ensures InStep(StartCall(s, op))
  {
    hide Sound, WellFormed, Settled, CallsAgree, PassesAgree, Unsettled;
    SoundStart(s, op);
    NewIdIsNowhere(s, op.operationId);
    StartAgrees(s, op);
    StartKeepsLists(s, StartCall(s, op), op.operationId);
  }

  lemma NewIdIsNowhere(s: State, id: Id)
    requires Sound(s) && id !in s.store.transfers
    ensures id !in s.calls && id !in s.store.reservations
    ensures forall p | p in s.passes :: forall j | 0 <= j < |s.passes[p].listed| :: s.passes[p].listed[j].operationId != id
  {
    forall p | p in s.passes
      ensures forall j | 0 <= j < |s.passes[p].listed| :: s.passes[p].listed[j].operationId != id
    {
      assert PassOk(s.store, s.passes[p]);
      forall j | 0 <= j < |s.passes[p].listed| ensures s.passes[p].listed[j].operationId != id {
        assert SnapshotOk(s.store, s.passes[p].listed[j]);
      }
    }
  }

  /** What the invariant says about one running call. */
  lemma AboutCall(s: State, id: Id)
    requires InStep(s) && id in s.calls
    ensures Sound(s)
    ensures id in s.store.transfers && s.store.transfers[id] == s.calls[id].operation
    ensures CallOk(s.store, id, s.calls[id])
    ensures CallAgrees(s.store.transfers[id], ReservationOf(s.store, id), s.calls[id])
    ensures s.calls[id].operation.operationId == id
    ensures Agree(s.store.transfers[id], ReservationOf(s.store, id))
  {
  }

  lemma AdmitInStep(s: State, id: Id, b: Boundaries, now: Instant)
    requires InStep(s) && id in s.calls && s.calls[id].step == Admitting
    ensures InStep(TryAdmit(s, id, b, now))
  {
    hide InStep, Sound, Verdict, WellFormed, SameTransfer;
    AboutCall(s, id);
    SoundAdmit(s, id, b, now);
    CallMoves(s, TryAdmit(s, id, b, now), id);
  }

  lemma ThrowInStep(s: State, id: Id, failure: Failure)
    requires InStep(s) && id in s.calls && !s.calls[id].step.Compensating? && !s.calls[id].step.SavingFailed?
    ensures InStep(Throw(s, id, failure))
  {
    hide InStep, Sound, WellFormed, SameTransfer;
    AboutCall(s, id);
    SoundThrow(s, id, failure);
    CallMoves(s, Throw(s, id, failure), id);
  }

  lemma HoldInStep(s: State, id: Id, txHash: string)
    requires InStep(s) && id in s.calls && s.calls[id].step == Broadcasting
    ensures InStep(HoldHash(s, id, txHash))
  {
    hide InStep, Sound, WellFormed, SameTransfer;
    AboutCall(s, id);
    SoundHold(s, id, txHash);
    CallMoves(s, HoldHash(s, id, txHash), id);
  }

  lemma SubmittedInStep(s: State, id: Id, now: Instant)
    requires InStep(s) && id in s.calls && s.calls[id].step.SavingSubmitted?
    ensures InStep(CommitSubmitted(s, id, now))
  {
    hide InStep, Sound, WellFormed, SameTransfer, TransferAction;
    AboutCall(s, id);
    SoundCommitSubmitted(s, id, now);
    CallMoves(s, CommitSubmitted(s, id, now), id);
  }

  lemma CompensateInStep(s: State, id: Id, now: Instant)
    requires InStep(s) && id in s.calls && s.calls[id].step.Compensating?
    ensures InStep(ReleaseInCatch(s, id, now))
  {
    hide InStep, Sound, WellFormed, SameTransfer, TransferAction;
    AboutCall(s, id);
    SoundReleaseInCatch(s, id, now);
    CallMoves(s, ReleaseInCatch(s, id, now), id);
  }

  lemma FailedInStep(s: State, id: Id, now: Instant)
    requires InStep(s) && id in s.calls && s.calls[id].step.SavingFailed?
    ensures InStep(CommitCallFailed(s, id, now))
  {
    hide InStep, Sound, WellFormed, SameTransfer, TransferAction;
    AboutCall(s, id);
    SoundCommitFailed(s, id, now);
    CallMoves(s, CommitCallFailed(s, id, now), id);
  }

  lemma StopInStep(s: State, id: Id)
    requires InStep(s) && id in s.calls
    ensures InStep(s.(calls := s.calls - {id}))
  {
    var t := s.(calls := s.calls - {id});
    AboutCall(s, id);
    SoundDrop(s, t);
    hide InStep, Sound, WellFormed, SameTransfer;
    CallMoves(s, t, id);
  }

  lemma BeginInStep(s: State, p: nat, limit: nat, listed: seq<TransferOperation>)
    requires InStep(s) && s.passes == map[] && ListedByStatuses(s.store.transfers, limit, listed)
    ensures InStep(s.(passes := s.passes[p := Pass(listed, 0, Examining, s.calls.Keys)]))
  {
    var t := s.(passes := s.passes[p := Pass(listed, 0, Examining, s.calls.Keys)]);
    SoundBegin(s, p, limit, listed);
    forall j | 0 <= j < |listed| ensures SnapshotIsFresh(t, listed[j], s.calls.Keys) {
      assert IsPendingRow(s.store.transfers, listed[j]);
      if listed[j].operationId in s.calls { AboutCall(s, listed[j].operationId); }
    }
    hide Sound, Agree, CallAgrees;
    assert InProgress(s) == {};
  }

  /** Under the discipline a pass writes only what is still stored as it was listed and has no
      running call. */
  lemma ExaminedIsFresh(cfg: Config, s: State, e: Event)
    requires InStep(s) && Enabled(s, e) && e.Examine? && Disciplined(cfg, s, e)
    ensures var op := Current(s.passes[e.pass]);
            Decide(cfg, op, e.now, e.answer) == Noop
            || (op.operationId in s.store.transfers && s.store.transfers[op.operationId] == op
                && op.operationId !in s.calls && op.Pending())
  {
    var pass := s.passes[e.pass];
    assert SnapshotIsFresh(s, pass.listed[pass.next], pass.live);
    CurrentIsPending(s, e.pass);
    ConfirmsOnlySubmitted(cfg, Current(pass), e.now, e.answer);
  }

  /** What the invariant says about the operation a pass has reached. */
  lemma AboutPass(s: State, p: nat)
    requires InStep(s) && p in s.passes && s.passes[p].next < |s.passes[p].listed|
    ensures Sound(s) && PassAgrees(s.store, s.passes[p]) && NotMidOnCall(s, s.passes[p])
    ensures SnapshotOk(s.store, Current(s.passes[p]))
    ensures SettledAt(s.store, Current(s.passes[p]).operationId)
    ensures !MidOperation(s.passes[p]) && UnsettledAt(s.store, Current(s.passes[p]).operationId) ==>
              Current(s.passes[p]).operationId in s.interrupted
  {
    CurrentIsPending(s, p);
    var id := Current(s.passes[p]).operationId;
    hide Sound, Agree, CallAgrees;
    if UnsettledAt(s.store, id) {
      assert id in Unsettled(s);
      NoOtherInProgress(s, p, id);
    }
  }

  lemma CarryOutInStep(s: State, p: nat, decision: Decision, now: Instant)
    requires InStep(s) && p in s.passes && s.passes[p].next < |s.passes[p].listed| && !MidOperation(s.passes[p])
    requires var op := Current(s.passes[p]);
             decision == Noop || (op.operationId in s.store.transfers && s.store.transfers[op.operationId] == op
                                  && op.operationId !in s.calls && op.Pending())
    requires decision == Confirm ==> Current(s.passes[p]).status == SUBMITTED
    ensures InStep(CarryOut(s, p, decision, now))
  {
    hide InStep, Sound, SnapshotOk, WellFormed, SameTransfer;
    AboutPass(s, p);
    SoundCarryOut(s, p, decision, now);
    PassMoves(s, CarryOut(s, p, decision, now), p);
  }

  lemma SettleInStep(s: State, p: nat, now: Instant)
    requires InStep(s) && p in s.passes && s.passes[p].next < |s.passes[p].listed| && MidOperation(s.passes[p])
    ensures InStep(Settle(s, p, now))
  {
    hide InStep, Sound, SnapshotOk, WellFormed, SameTransfer;
    AboutPass(s, p);
    SoundSettle(s, p, now);
    PassMoves(s, Settle(s, p, now), p);
  }

  lemma DropPass(s: State, p: nat)
    requires InStep(s) && p in s.passes
    ensures InStep(s.(passes := s.passes - {p}, interrupted := s.interrupted + Stopped(s.passes[p])))
    ensures !MidOperation(s.passes[p]) ==> InStep(s.(passes := s.passes - {p}))
  {
    var t := s.(passes := s.passes - {p}, interrupted := s.interrupted + Stopped(s.passes[p]));
    SoundDrop(s, t);
    SoundDrop(s, s.(passes := s.passes - {p}));
    hide Sound, Agree, CallAgrees, Settled, CallsAgree, PassAgrees, ListIsFresh, NotMidOnCall;
    forall id | id in Unsettled(s) ensures id in t.interrupted && (!MidOperation(s.passes[p]) ==> id in s.interrupted) {
      if id !in s.interrupted {
        var q :| q in s.passes && id in Stopped(s.passes[q]);
        assert q == p;
      }
    }
  }

  lemma CrashInStep(s: State)
    requires InStep(s)
    ensures InStep(s.(calls := map[], passes := map[], interrupted := s.interrupted + StoppedByCrash(s.passes)))
  {
    var t := s.(calls := map[], passes := map[], interrupted := s.interrupted + StoppedByCrash(s.passes));
    SoundDrop(s, t);
    hide Sound;
    assert Unsettled(t) == Unsettled(s);
  }

  lemma PolicyInStep(s: State, t: Store)
    requires InStep(s) && t.transfers == s.store.transfers && t.reservations == s.store.reservations
    ensures InStep(s.(store := t))
  {
    SoundPolicy(s, t);
    hide Sound, Agree, CallAgrees;
    StoreSwapKeepsLists(s, t);
    assert Unsettled(s.(store := t)) == Unsettled(s);
  }

  /** The invariant is preserved by every disciplined step. */
  lemma InStepStep(cfg: Config, s: State, e: Event)
    requires InStep(s) && Enabled(s, e) && Disciplined(cfg, s, e)
    ensures InStep(Apply(cfg, s, e))
  {
    hide InStep;
    match e {
      case StartTransfer(id, actor, key, target, amount, now) =>
        StartInStep(s, CreateTransferOperation(id, actor, key, target, amount, now));
      case Admit(id, now, written) => AdmitInStep(s, id, cfg.windows(now), written);
      case AdmitThrows(id, failure) => ThrowInStep(s, id, failure);
      case BroadcastReturns(id, txHash) => HoldInStep(s, id, txHash);
      case BroadcastThrows(id, failure) => ThrowInStep(s, id, failure);
      case SaveSubmitted(id, now) => SubmittedInStep(s, id, now);
      case SaveSubmittedThrows(id, failure) => ThrowInStep(s, id, failure);
      case Compensate(id, now) => CompensateInStep(s, id, now);
      case SaveFailed(id, now) => FailedInStep(s, id, now);
      case StopCall(id) => StopInStep(s, id);
      case BeginPass(p, limit, listed) => BeginInStep(s, p, limit, listed);
      case Examine(p, now, answer) =>
        ExaminedIsFresh(cfg, s, e);
        CurrentPending(s, p);
        ConfirmsOnlySubmitted(cfg, Current(s.passes[p]), now, answer);
        CarryOutInStep(s, p, Decide(cfg, Current(s.passes[p]), now, answer), now);
      case SettleReservation(p, now) => SettleInStep(s, p, now);
      case EndPass(p) => DropPass(s, p);
      case StopPass(p) => DropPass(s, p);
      case Crash => CrashInStep(s);
      case ChangePolicy(key, patch, author, now) => PolicyInStep(s, UpdatePolicy(s.store, key, patch, author, now));
    }
  }

  lemma CurrentPending(s: State, p: nat)
    requires InStep(s) && p in s.passes && s.passes[p].next < |s.passes[p].listed|
    ensures Current(s.passes[p]).Pending()
  {
    CurrentIsPending(s, p);
  }

  lemma StoreSwapKeepsLists(s: State, t: Store)
    requires PassesAgree(s) && t.transfers == s.store.transfers
    ensures PassesAgree(s.(store := t))
  {
    forall p | p in s.passes ensures ListIsFresh(s.(store := t), s.passes[p]) {
      forall j | (if MidOperation(s.passes[p]) then s.passes[p].next + 1 else s.passes[p].next) <= j < |s.passes[p].listed|
        ensures SnapshotIsFresh(s.(store := t), s.passes[p].listed[j], s.passes[p].live)
      {
        assert SnapshotIsFresh(s, s.passes[p].listed[j], s.passes[p].live);
      }
    }
  }

  /** In every state a disciplined run reaches, operations, reservations, calls and passes are
      in step. */
  lemma {:induction false} InStepRun(cfg: Config, s: State, events: seq<Event>, t: State)
    requires InStep(s) && DisciplinedRun(cfg, s, events, t)
    ensures InStep(t)
    decreases |events|
  {
    hide InStep, Apply, Disciplined;
    if events != [] {
      InStepStep(cfg, s, events[0]);
      InStepRun(cfg, Apply(cfg, s, events[0]), events[1..], t);
    }
  }
}
