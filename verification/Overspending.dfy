/** Exactly when agents may yet hand the chain more than a limit that stands, although the discipline
    is kept and nothing further is written off. */
module Overspending {
  import opened Wrappers
  import opened Domain
  import opened Usage
  import opened Tables
  import opened Protocol
  import opened Interleavings
  import opened LimitBound
  import opened Resets
  import opened Discipline
  import opened Safety
  import opened Guards
  import opened Revival
  import opened WithoutDiscipline
  import opened Broadcasts
  import opened Steady
  import opened Overlaps

  /** A pass is about to release the reservation. */
  ghost predicate ReleaseIsDue(s: State, id: Id) {
    exists p :: p in s.passes && IsReleasing(s.passes[p], id)
  }

  /** The reservation counts although the operation is finished, and no pass will release it. */
  ghost predicate IsStuck(s: State, id: Id) {
    id in s.store.transfers && s.store.transfers[id].Terminal() && Counted(s.store, id) && !ReleaseIsDue(s, id)
  }

  /** What counts in a window for good without ever being sent: left by passes that were interrupted
      between failing an operation and releasing its reservation. */
  ghost function StuckIn(events: seq<Event>, s: State, key: LimitKey, window: LimitWindow, start: Instant): set<Id> {
    set id | id in UnsentIn(events, s.store, key, window, start) && IsStuck(s, id)
  }

  // ---------------------------------------------------------------- the stuck stays stuck

  lemma RunningIsNotStuck(s: State, id: Id)
    requires InStep(s) && id in s.calls
    ensures !IsStuck(s, id)
  {
    AboutCall(s, id);
    hide InStep, Sound, ReleaseIsDue, Counted, WellFormed, SameTransfer;
  }

  lemma StuckThroughVerdict(cfg: Config, s: State, e: Event, id: Id)
    requires InStep(s) && Enabled(s, e) && Disciplined(cfg, s, e) && e.Examine? && IsStuck(s, id)
    ensures IsStuck(Apply(cfg, s, e), id)
  {
    LifecycleStep(cfg, s, e, id);
    ExaminedIsFresh(cfg, s, e);
    var decision := Decide(cfg, Current(s.passes[e.pass]), e.now, e.answer);
    hide InStep, Decide, CarryOut, ReleaseIsDue, MayBecome;
    VerdictLeavesReservations(s, e.pass, decision, e.now);
    VerdictMoves(s, e.pass, decision, e.now);
    NotDueLater(s, Apply(cfg, s, e), e.pass, id);
  }

  lemma NotDueLater(s: State, t: State, p: nat, id: Id)
    requires !ReleaseIsDue(s, id) && p in t.passes && t.passes == s.passes[p := t.passes[p]] && !IsReleasing(t.passes[p], id)
    ensures !ReleaseIsDue(t, id)
  {
    forall q | q in t.passes ensures !IsReleasing(t.passes[q], id) {
      if q != p { assert t.passes[q] == s.passes[q]; }
    }
    hide IsReleasing;
  }

  lemma StuckThroughSettling(cfg: Config, s: State, p: nat, now: Instant, id: Id)
    requires InStep(s) && IsStuck(s, id) && p in s.passes && MidOperation(s.passes[p]) && s.passes[p].next < |s.passes[p].listed|
    ensures IsStuck(Settle(s, p, now), id)
  {
    InStepIsSound(s);
    StoredUnder(s, Current(s.passes[p]).operationId);
    assert !IsReleasing(s.passes[p], id);
    hide InStep, Settle, ReleaseIsDue, Sound;
    SettleMovesOn(s, p, now);
    if Current(s.passes[p]).operationId != id { CountedElsewhere(s.store, Settle(s, p, now).store, Current(s.passes[p]).operationId, id); }
    hide OnlyAt, Counted;
    NotDueLater(s, Settle(s, p, now), p, id);
  }

  lemma FinishedStays(cfg: Config, s: State, e: Event, id: Id)
    requires InStep(s) && Enabled(s, e) && Disciplined(cfg, s, e) && id in s.store.transfers && s.store.transfers[id].Terminal()
    ensures id in Apply(cfg, s, e).store.transfers && Apply(cfg, s, e).store.transfers[id] == s.store.transfers[id]
  {
    hide InStep, Apply, Enabled, Disciplined, MayBecome;
    LifecycleStep(cfg, s, e, id);
  }

  lemma StuckIsNotTouched(s: State, e: Event, id: Id)
    requires InStep(s) && Enabled(s, e) && IsStuck(s, id)
    ensures id !in Touched(e)
  {
    hide InStep, ReleaseIsDue;
    if id in s.calls { RunningIsNotStuck(s, id); }
  }

  /** A row that is left alone, while no pass is added, stays stuck. */
  lemma StuckLeftAlone(s: State, t: State, id: Id)
    requires IsStuck(s, id) && id in t.store.transfers && t.store.transfers[id] == s.store.transfers[id]
    requires id in t.store.reservations && t.store.reservations[id] == s.store.reservations[id]
    requires t.passes.Keys <= s.passes.Keys && forall p | p in t.passes :: t.passes[p] == s.passes[p]
    ensures IsStuck(t, id)
  {
    hide IsReleasing;
  }

  lemma StuckElsewhere(cfg: Config, s: State, e: Event, id: Id)
    requires InStep(s) && Enabled(s, e) && Disciplined(cfg, s, e) && !OfAPass(e) && IsStuck(s, id)
    ensures IsStuck(Apply(cfg, s, e), id) && (e.BroadcastReturns? ==> e.id != id)
  {
    InStepIsSound(s);
    assert id in s.store.transfers && s.store.transfers[id].Terminal() && id in s.store.reservations;
    hide InStep, Sound, IsStuck, Apply, Enabled, Disciplined;
    StuckIsNotTouched(s, e, id);
    FinishedStays(cfg, s, e, id);
    StoresItsOwn(s, e);
    LeavesOtherRows(cfg, s, e);
    StuckLeftAlone(s, Apply(cfg, s, e), id);
  }

  lemma StuckStep(cfg: Config, s: State, e: Event, id: Id)
    requires InStep(s) && Enabled(s, e) && Disciplined(cfg, s, e) && IsStuck(s, id)
    ensures IsStuck(Apply(cfg, s, e), id) && (e.BroadcastReturns? ==> e.id != id)
  {
    hide InStep, Settle, CarryOut, Decide, Disciplined, ListedByStatuses;
    if e.BeginPass? {
    } else if e.Examine? {
      StuckThroughVerdict(cfg, s, e, id);
    } else if e.SettleReservation? {
      StuckThroughSettling(cfg, s, e.pass, e.now, id);
    } else {
      StuckElsewhere(cfg, s, e, id);
    }
  }

  lemma {:induction false} StuckRun(cfg: Config, s: State, events: seq<Event>, t: State, id: Id)
    requires InStep(s) && DisciplinedRun(cfg, s, events, t) && IsStuck(s, id)
    ensures IsStuck(t, id) && id !in BroadcastIds(events)
    decreases |events|
  {
    hide InStep, Apply, Enabled, Disciplined, IsStuck;
    if events != [] {
      var e, rest := events[0], events[1..];
      assert events == [e] + rest;
      InStepStep(cfg, s, e);
      StuckStep(cfg, s, e, id);
      StuckRun(cfg, Apply(cfg, s, e), rest, t, id);
      if id in BroadcastIds([e] + rest) { SplitIds(e, rest, id); }
    }
  }

  // ------------------------------------------------------------------- at most so much

  lemma BroadcastIdsJoin(a: seq<Event>, b: seq<Event>)
    ensures BroadcastIds(a + b) == BroadcastIds(a) + BroadcastIds(b)
  {
    forall id | id in BroadcastIds(a) + BroadcastIds(b) ensures id in BroadcastIds(a + b) {
      if id in BroadcastIds(a) {
        var i :| 0 <= i < |a| && a[i].BroadcastReturns? && a[i].id == id;
        assert (a + b)[i] == a[i];
      } else {
        var i :| 0 <= i < |b| && b[i].BroadcastReturns? && b[i].id == id;
        assert (a + b)[|a| + i] == b[i];
      }
    }
    forall id | id in BroadcastIds(a + b) ensures id in BroadcastIds(a) + BroadcastIds(b) {
      var i :| 0 <= i < |a + b| && (a + b)[i].BroadcastReturns? && (a + b)[i].id == id;
      assert if i < |a| then a[i] == (a + b)[i] else b[i - |a|] == (a + b)[i];
    }
  }

  lemma {:induction false} SameTotal(a: map<Id, TransferOperation>, b: map<Id, TransferOperation>, ids: set<Id>)
    requires ids <= a.Keys && ids <= b.Keys && forall id | id in ids :: a[id].requestedAmount == b[id].requestedAmount
    ensures TotalRequested(a, ids) == TotalRequested(b, ids)
    decreases |ids|
  {
    if ids != {} {
      var id :| id in ids && TotalRequested(a, ids) == a[id].requestedAmount + TotalRequested(a, ids - {id});
      SameTotal(a, b, ids - {id});
      TotalWithout(b, ids, id);
    }
  }

  lemma AmountsStay(s: Store, t: Store, ids: set<Id>)
    requires Extends(s, t) && ids <= s.transfers.Keys
    ensures ids <= t.transfers.Keys && TotalRequested(t.transfers, ids) == TotalRequested(s.transfers, ids)
  {
    forall id | id in ids ensures id in t.transfers && s.transfers[id].requestedAmount == t.transfers[id].requestedAmount {
      assert SameTransfer(s.transfers[id], t.transfers[id]);
    }
    hide Extends;
    SameTotal(s.transfers, t.transfers, ids);
  }

  lemma StuckIsUnsent(cfg: Config, s: State, before: seq<Event>, more: seq<Event>, t: State, key: LimitKey, window: LimitWindow, start: Instant)
    requires InStep(s) && DisciplinedRun(cfg, s, more, t) && Extends(s.store, t.store)
    ensures StuckIn(before, s, key, window, start) <= UnsentIn(before + more, t.store, key, window, start)
  {
    BroadcastIdsJoin(before, more);
    hide InStep, DisciplinedRun, BroadcastIds;
    forall id | id in StuckIn(before, s, key, window, start) ensures id in UnsentIn(before + more, t.store, key, window, start) {
      StuckRun(cfg, s, more, t, id);
      assert SameReservation(s.store.reservations[id], t.store.reservations[id]);
    }
  }

  /** Nothing of the window is written off in the course of `more`. */
  ghost predicate WritesOffNothing(before: seq<Event>, s: Store, more: seq<Event>, t: Store, key: LimitKey, window: LimitWindow, start: Instant) {
    WrittenOffIn(before + more, t, key, window, start) == WrittenOffIn(before, s, key, window, start)
  }

  /** How far the excess can go: by what was written off, less what is stuck. */
  lemma ExcessIsBounded(cfg: Config, s: State, before: seq<Event>, more: seq<Event>, t: State, key: LimitKey, window: LimitWindow, start: Instant)
    requires InStep(s) && DisciplinedRun(cfg, s, more, t) && WritesOffNothing(before, s.store, more, t.store, key, window, start)
    requires WithinLimit(s, key, window, start) && LimitStandsThroughout(cfg, s, more, key, window) && LimitIn(t, key, window).Some?
    ensures StuckIn(before, s, key, window, start) <= s.store.transfers.Keys
    ensures TotalRequested(t.store.transfers, BroadcastIn(before + more, t.store, key, window, start))
            + TotalRequested(s.store.transfers, StuckIn(before, s, key, window, start))
         <= LimitIn(t, key, window).value + TotalRequested(s.store.transfers, WrittenOffIn(before, s.store, key, window, start))
  {
    var off, stuck := WrittenOffIn(before, s.store, key, window, start), StuckIn(before, s, key, window, start);
    var unsent := UnsentIn(before + more, t.store, key, window, start);
    RunKeepsSound(cfg, s, more, t);
    StuckIsUnsent(cfg, s, before, more, t, key, window, start);
    hide InStep, Sound, DisciplinedRun, StoreOk, LimitStandsThroughout, Extends, Run, StuckIn, UnsentIn, BroadcastIn, WrittenOffIn,
      WritesOffNothing, TotalRequested, Used, LimitIn, SeqSum;
    LimitBoundOverRuns(cfg, s, more, t, key, window, start);
    SentIsAccountedFor(before + more, t.store, key, window, start);
    StuckIsStored(before, s, key, window, start);
    OffIsStored(before, s.store, key, window, start);
    AmountsStay(s.store, t.store, off);
    AmountsStay(s.store, t.store, stuck);
    TotalSplits(t.store.transfers, unsent, stuck);
  }

  lemma StuckIsStored(events: seq<Event>, s: State, key: LimitKey, window: LimitWindow, start: Instant)
    ensures StuckIn(events, s, key, window, start) <= s.store.transfers.Keys
  {
  }

  lemma OffIsStored(events: seq<Event>, s: Store, key: LimitKey, window: LimitWindow, start: Instant)
    ensures WrittenOffIn(events, s, key, window, start) <= s.transfers.Keys
  {
  }

  lemma RunKeepsSound(cfg: Config, s: State, events: seq<Event>, t: State)
    requires InStep(s) && DisciplinedRun(cfg, s, events, t)
    ensures Sound(s) && Run(cfg, s, events, t) && Extends(s.store, t.store) && StoreOk(t.store)
    ensures t.revived == []
  {
    assert Sound(s);
    InStepRun(cfg, s, events, t);
    assert StoreOk(t.store);
    hide InStep, DisciplinedRun, Sound, Extends;
    DisciplinedIsRun(cfg, s, events, t);
    SoundRun(cfg, s, events, t);
  }

  // ------------------------------------------------------------------ and as much as that

  /** Neither broadcasts nor changes of policy. */
  predicate Quiet(events: seq<Event>) {
    forall i | 0 <= i < |events| :: !events[i].BroadcastReturns? && !events[i].ChangePolicy?
  }

  lemma QuietJoins(a: seq<Event>, b: seq<Event>)
    requires Quiet(a) && Quiet(b)
    ensures Quiet(a + b)
  {
  }

  lemma QuietSendsNothing(events: seq<Event>)
    requires Quiet(events)
    ensures BroadcastIds(events) == {} && LeavesPolicies(events)
  {
  }

  predicate Idle(s: State) {
    s.calls == map[] && s.passes == map[]
  }

  lemma {:induction false} Oldest(transfers: map<Id, TransferOperation>, ids: set<Id>) returns (id: Id)
    requires ids != {} && ids <= transfers.Keys
    ensures id in ids && forall k | k in ids :: transfers[id].updatedAt <= transfers[k].updatedAt
    decreases |ids|
  {
    id :| id in ids;
    if ids - {id} != {} {
      var other := Oldest(transfers, ids - {id});
      if transfers[other].updatedAt < transfers[id].updatedAt { id := other; }
    }
  }

  /** A pass over the oldest pending operation. */
  lemma ListsOldest(cfg: Config, s: State, id: Id)
    requires Sound(s) && Idle(s) && id in PendingIds(s.store.transfers)
    requires forall k | k in PendingIds(s.store.transfers) :: s.store.transfers[id].updatedAt <= s.store.transfers[k].updatedAt
    ensures var op := s.store.transfers[id];
            && op.operationId == id && Enabled(s, BeginPass(0, 1, [op])) && Disciplined(cfg, s, BeginPass(0, 1, [op]))
            && Apply(cfg, s, BeginPass(0, 1, [op])) == Begun(s, 0, [op])
  {
    assert StoreOk(s.store);
    hide Sound;
    var op := s.store.transfers[id];
    assert IsPendingRow(s.store.transfers, op);
    forall k | k in s.store.transfers && s.store.transfers[k].Pending() && s.store.transfers[k] !in [op]
      ensures op.updatedAt <= s.store.transfers[k].updatedAt
    {
      assert k in PendingIds(s.store.transfers);
    }
  }

  /** What dealing with one pending operation does: it is failed, and its reservation is released
      if that is wanted. */
  ghost predicate DealtWith(s: State, t: State, id: Id, release: bool) {
    && Idle(t) && t.store.policies == s.store.policies && t.store.reservations.Keys == s.store.reservations.Keys
    && id in s.store.transfers && id in t.store.transfers && t.store.transfers[id].status == FAILED
    && t.store.transfers == s.store.transfers[id := t.store.transfers[id]]
    && (forall k | k in s.store.reservations && (k != id || !release) :: t.store.reservations[k] == s.store.reservations[k])
    && (release && id in t.store.reservations ==> t.store.reservations[id].status == RELEASED)
  }

  lemma FailedOnly(s: State, message: string, reason: string, now: Instant)
    requires 0 in s.passes && s.passes[0].next < |s.passes[0].listed|
    ensures var id, t := Current(s.passes[0]).operationId, CarryOut(s, 0, Fail(message, reason), now);
            && 0 in t.passes && t.passes.Keys == s.passes.Keys && t.calls == s.calls
            && t.store.policies == s.store.policies && t.store.reservations == s.store.reservations
            && id in t.store.transfers && t.store.transfers[id].status == FAILED
            && t.store.transfers == s.store.transfers[id := t.store.transfers[id]]
  {
  }

  lemma FailedAndReleased(s: State, message: string, reason: string, now: Instant)
    requires 0 in s.passes && s.passes[0].next < |s.passes[0].listed|
    requires forall k | k in s.store.reservations :: s.store.reservations[k].operationId == k
    ensures var id, t := Current(s.passes[0]).operationId, GivenUp(s, 0, message, reason, now);
            && 0 in t.passes && t.passes.Keys == s.passes.Keys && t.calls == s.calls
            && t.store.policies == s.store.policies && t.store.reservations.Keys == s.store.reservations.Keys
            && (forall k | k in s.store.reservations && k != id :: t.store.reservations[k] == s.store.reservations[k])
            && (id in t.store.reservations ==> t.store.reservations[id].status == RELEASED)
            && id in t.store.transfers && t.store.transfers[id].status == FAILED
            && t.store.transfers == s.store.transfers[id := t.store.transfers[id]]
  {
    FailThenRelease(s, 0, message, reason, now);
    FailedOnly(s, message, reason, now);
    hide CarryOut;
  }

  function Stop(s: State): State
    requires 0 in s.passes
  {
    s.(passes := s.passes - {0}, interrupted := s.interrupted + Stopped(s.passes[0]))
  }

  lemma StopsPass(cfg: Config, s: State)
    requires 0 in s.passes
    ensures Enabled(s, StopPass(0)) && Disciplined(cfg, s, StopPass(0)) && Apply(cfg, s, StopPass(0)) == Stop(s)
  {
  }

  /** The pass begins, and finds the operation overdue. */
  lemma FailsOldest(cfg: Config, s: State, id: Id) returns (message: string, reason: string, late: Instant)
    requires Sound(s) && Idle(s) && id in PendingIds(s.store.transfers)
    requires forall k | k in PendingIds(s.store.transfers) :: s.store.transfers[id].updatedAt <= s.store.transfers[k].updatedAt
    ensures var op := s.store.transfers[id];
            var begun := Begun(s, 0, [op]);
            var failed := CarryOut(begun, 0, Fail(message, reason), late);
            && op.operationId == id
            && DisciplinedRun(cfg, s, [BeginPass(0, 1, [op])] + [Examine(0, late, InMempool)], failed)
            && DisciplinedRun(cfg, failed, [SettleReservation(0, late)], GivenUp(begun, 0, message, reason, late))
  {
    var op := s.store.transfers[id];
    ListsOldest(cfg, s, id);
    late := LateFor(cfg, op, 0);
    var begun := Begun(s, 0, [op]);
    assert Current(begun.passes[0]) == op;
    hide Sound, Idle, SteadyRun, SeenAfter, DisciplinedRun, CarryOut, GivenUp, IsLate, Apply, Enabled, Disciplined;
    message, reason := GivesUp(cfg, begun, 0, late);
    var failed := CarryOut(begun, 0, Fail(message, reason), late);
    hide Begun;
    DisciplinedOne(cfg, s, BeginPass(0, 1, [op]));
    SteadyIsDisciplined(cfg, SeenAfter(late), late, begun, [Examine(0, late, InMempool)], failed);
    SteadyIsDisciplined(cfg, SeenAfter(late), late, failed, [SettleReservation(0, late)], GivenUp(begun, 0, message, reason, late));
    DisciplinedConcat(cfg, s, [BeginPass(0, 1, [op])], begun, [Examine(0, late, InMempool)], failed);
  }

  lemma StopsAfterFailing(s: State, op: TransferOperation, message: string, reason: string, late: Instant)
    requires Sound(s) && Idle(s) && op.operationId in s.store.transfers
    ensures var begun := Begun(s, 0, [op]);
            var failed := CarryOut(begun, 0, Fail(message, reason), late);
            0 in failed.passes && DealtWith(s, Stop(failed), op.operationId, false)
  {
    var begun := Begun(s, 0, [op]);
    assert Current(begun.passes[0]) == op && begun.calls == s.calls && begun.store == s.store && begun.passes.Keys == {0};
    hide Sound, Begun, CarryOut, Stopped;
    FailedOnly(begun, message, reason, late);
  }

  lemma StopsAfterReleasing(s: State, op: TransferOperation, message: string, reason: string, late: Instant)
    requires Sound(s) && Idle(s) && op.operationId in s.store.transfers
    ensures var begun := Begun(s, 0, [op]);
            var released := GivenUp(begun, 0, message, reason, late);
            0 in released.passes && DealtWith(s, Stop(released), op.operationId, true)
  {
    SoundIsKeyed(s);
    var begun := Begun(s, 0, [op]);
    assert Current(begun.passes[0]) == op && begun.calls == s.calls && begun.store == s.store && begun.passes.Keys == {0};
    hide Sound, Begun, GivenUp, Stopped;
    FailedAndReleased(begun, message, reason, late);
  }

  lemma ThenStops(cfg: Config, s: State, events: seq<Event>, m: State) returns (all: seq<Event>)
    requires DisciplinedRun(cfg, s, events, m) && Quiet(events) && 0 in m.passes
    ensures DisciplinedRun(cfg, s, all, Stop(m)) && Quiet(all)
  {
    StopsPass(cfg, m);
    QuietJoins(events, [StopPass(0)]);
    hide *;
    DisciplinedThen(cfg, s, events, m, StopPass(0));
    all := events + [StopPass(0)];
  }

  lemma DealWith(cfg: Config, s: State, id: Id, release: bool) returns (events: seq<Event>, t: State)
    requires Sound(s) && Idle(s) && id in PendingIds(s.store.transfers)
    requires forall k | k in PendingIds(s.store.transfers) :: s.store.transfers[id].updatedAt <= s.store.transfers[k].updatedAt
    ensures DisciplinedRun(cfg, s, events, t) && Quiet(events) && DealtWith(s, t, id, release)
  {
    var op := s.store.transfers[id];
    hide *;
    var message, reason, late := FailsOldest(cfg, s, id);
    var failed := CarryOut(Begun(s, 0, [op]), 0, Fail(message, reason), late);
    var released := GivenUp(Begun(s, 0, [op]), 0, message, reason, late);
    LooksAreQuiet(op, late);
    events := [BeginPass(0, 1, [op])] + [Examine(0, late, InMempool)];
    if release {
      StopsAfterReleasing(s, op, message, reason, late);
      DisciplinedConcat(cfg, s, events, failed, [SettleReservation(0, late)], released);
      events := ThenStops(cfg, s, events + [SettleReservation(0, late)], released);
      t := Stop(released);
    } else {
      StopsAfterFailing(s, op, message, reason, late);
      events := ThenStops(cfg, s, events, failed);
      t := Stop(failed);
    }
  }

  lemma LooksAreQuiet(op: TransferOperation, late: Instant)
    ensures Quiet([BeginPass(0, 1, [op])] + [Examine(0, late, InMempool)])
    ensures Quiet([BeginPass(0, 1, [op])] + [Examine(0, late, InMempool)] + [SettleReservation(0, late)])
  {
  }

  /** All pending operations are dealt with, and of their reservations those that are named are
      released. */
  lemma {:induction false} Drain(cfg: Config, s: State, named: set<Id>) returns (events: seq<Event>, t: State)
    requires Sound(s) && Idle(s)
    ensures DisciplinedRun(cfg, s, events, t) && Quiet(events) && Drained(s, t, named)
    decreases |PendingIds(s.store.transfers)|
  {
    if PendingIds(s.store.transfers) == {} {
      events, t := [], s;
    } else {
      var id := Oldest(s.store.transfers, PendingIds(s.store.transfers));
      var m: State;
      events, m := DealWith(cfg, s, id, id in named);
      OneLess(s, m, id, id in named);
      hide *;
      RunIsSound(cfg, s, events, m);
      var rest: seq<Event>;
      rest, t := Drain(cfg, m, named);
      DrainedFurther(s, m, t, id, named);
      DisciplinedConcat(cfg, s, events, m, rest, t);
      QuietJoins(events, rest);
      events := events + rest;
    }
  }

  ghost predicate Drained(s: State, t: State, named: set<Id>) {
    && Idle(t) && t.store.policies == s.store.policies && t.store.reservations.Keys == s.store.reservations.Keys
    && PendingIds(t.store.transfers) == {}
    && (forall k | k in s.store.reservations && (k !in named || k !in PendingIds(s.store.transfers)) ::
          t.store.reservations[k] == s.store.reservations[k])
    && (forall k | k in s.store.reservations && k in named && k in PendingIds(s.store.transfers) ::
          t.store.reservations[k].status == RELEASED)
  }

  lemma OneLess(s: State, t: State, id: Id, release: bool)
    requires DealtWith(s, t, id, release) && id in PendingIds(s.store.transfers)
    ensures PendingIds(t.store.transfers) == PendingIds(s.store.transfers) - {id} && |PendingIds(t.store.transfers)| < |PendingIds(s.store.transfers)|
    ensures Idle(t)
  {
    assert PendingIds(t.store.transfers) == PendingIds(s.store.transfers) - {id};
  }

  lemma DrainedFurther(s: State, m: State, t: State, id: Id, named: set<Id>)
    requires id in PendingIds(s.store.transfers) && DealtWith(s, m, id, id in named) && Drained(m, t, named)
    requires PendingIds(m.store.transfers) == PendingIds(s.store.transfers) - {id}
    ensures Drained(s, t, named)
  {
    hide PendingIds;
    forall k | k in s.store.reservations && (k !in named || k !in PendingIds(s.store.transfers))
      ensures t.store.reservations[k] == s.store.reservations[k]
    {
      assert k in m.store.reservations;
      assert m.store.reservations[k] == s.store.reservations[k];
    }
    forall k | k in s.store.reservations && k in named && k in PendingIds(s.store.transfers)
      ensures t.store.reservations[k].status == RELEASED
    {
      assert k in m.store.reservations;
      if k == id { assert m.store.reservations[k].status == RELEASED; }
    }
  }

  lemma RunIsSound(cfg: Config, s: State, events: seq<Event>, t: State)
    requires Sound(s) && DisciplinedRun(cfg, s, events, t)
    ensures Sound(t)
  {
    hide Sound, DisciplinedRun;
    DisciplinedIsRun(cfg, s, events, t);
    SoundRun(cfg, s, events, t);
  }

  lemma SoundIsKeyed(s: State)
    requires Sound(s)
    ensures forall k | k in s.store.reservations :: s.store.reservations[k].operationId == k
    ensures forall id | id in s.store.transfers :: s.store.transfers[id].operationId == id
  {
    assert StoreOk(s.store);
  }

  // ------------------------------------------------------------------- clearing the way

  /** A release that is due and wanted is made, and everything that runs is stopped. */
  ghost predicate Cleared(s: State, t: State, named: set<Id>) {
    && Idle(t) && t.store.policies == s.store.policies && t.store.transfers == s.store.transfers
    && t.store.reservations.Keys == s.store.reservations.Keys
    && (forall k | k in s.store.reservations && (k !in named || !ReleaseIsDue(s, k)) ::
          t.store.reservations[k] == s.store.reservations[k])
    && (forall k | k in s.store.reservations && k in named && ReleaseIsDue(s, k) :: t.store.reservations[k].status == RELEASED)
  }

  lemma CrashClears(cfg: Config, s: State) returns (t: State)
    ensures DisciplinedRun(cfg, s, [Crash], t) && Idle(t) && t.store == s.store
  {
    t := Apply(cfg, s, Crash);
    hide StoppedByCrash;
    assert Idle(t) && t.store == s.store;
    hide Idle;
    DisciplinedOne(cfg, s, Crash);
  }

  lemma OnlyOneIsDue(s: State, p: nat, id: Id)
    requires InStep(s) && p in s.passes && IsReleasing(s.passes[p], id)
    ensures forall k :: ReleaseIsDue(s, k) <==> k == id
  {
    hide Sound, Settled, CallsAgree;
  }

  lemma ReleaseMade(s: State, p: nat, id: Id, now: Instant)
    requires p in s.passes && IsReleasing(s.passes[p], id)
    requires forall k | k in s.store.reservations :: s.store.reservations[k].operationId == k
    ensures var t := Settle(s, p, now);
            && t.store.policies == s.store.policies && t.store.transfers == s.store.transfers
            && t.store.reservations.Keys == s.store.reservations.Keys
            && (forall k | k in s.store.reservations && k != id :: t.store.reservations[k] == s.store.reservations[k])
            && (id in t.store.reservations ==> t.store.reservations[id].status == RELEASED)
  {
  }

  lemma ReleaseThenCrash(cfg: Config, s: State, p: nat, id: Id) returns (events: seq<Event>, t: State)
    requires p in s.passes && IsReleasing(s.passes[p], id)
    ensures DisciplinedRun(cfg, s, events, t) && Quiet(events) && Idle(t) && t.store == Settle(s, p, 0).store
  {
    var e := SettleReservation(p, 0);
    SettleNext(cfg, s, p, 0);
    assert Disciplined(cfg, s, e);
    hide IsReleasing, Settle, Apply, Disciplined, DisciplinedRun, Idle;
    t := CrashClears(cfg, Settle(s, p, 0));
    DisciplinedFirst(cfg, s, e, [Crash], t);
    events := [e] + [Crash];
  }

  lemma Clear(cfg: Config, s: State, named: set<Id>) returns (events: seq<Event>, t: State)
    requires InStep(s)
    ensures DisciplinedRun(cfg, s, events, t) && Quiet(events) && Cleared(s, t, named)
  {
    InStepIsSound(s);
    hide InStep, Sound, IsReleasing, DisciplinedRun, Settle;
    SoundIsKeyed(s);
    if p, id :| p in s.passes && IsReleasing(s.passes[p], id) && id in named {
      OnlyOneIsDue(s, p, id);
      ReleaseMade(s, p, id, 0);
      events, t := ReleaseThenCrash(cfg, s, p, id);
    } else {
      t := CrashClears(cfg, s);
      events := [Crash];
    }
  }

  // ------------------------------------------------------------------ the last transfer

  lemma {:induction false} LongerThanAll(ids: set<Id>) returns (n: nat)
    ensures forall id | id in ids :: |id| < n
    decreases |ids|
  {
    n := 0;
    if ids != {} {
      var id :| id in ids;
      var m := LongerThanAll(ids - {id});
      n := if |id| < m then m else |id| + 1;
    }
  }

  lemma FreshId(ids: set<Id>) returns (id: Id)
    ensures id !in ids
  {
    var n := LongerThanAll(ids);
    id := seq(n, _ => 'x');
  }

  /** A transfer that fits is admitted in the windows of the instant `at` and handed to the chain. */
  ghost predicate SentOne(cfg: Config, s: State, t: State, id: Id, key: LimitKey, amount: nat, at: Instant) {
    && id !in s.store.transfers && id !in s.store.reservations && t.store.policies == s.store.policies
    && t.store.reservations == s.store.reservations[id := Reservation(id, key, amount, cfg.windows(at), at)]
    && t.store.transfers == s.store.transfers[id := CreateTransferOperation(id, Agent, key, Address("to", "to"), amount, at)]
  }

  lemma SendOne(cfg: Config, s: State, key: LimitKey, amount: nat, at: Instant) returns (events: seq<Event>, t: State, id: Id)
    requires Sound(s) && Idle(s) && Supported(key) && amount > 0 && Verdict(s.store, key, amount, cfg.windows(at)).None?
    ensures DisciplinedRun(cfg, s, events, t) && SentOne(cfg, s, t, id, key, amount, at)
    ensures BroadcastIds(events) == {id} && LeavesPolicies(events)
  {
    id := FreshId(s.store.transfers.Keys);
    NewIdIsNowhere(s, id);
    var op := CreateTransferOperation(id, Agent, key, Address("to", "to"), amount, at);
    var started := StartCall(s, op);
    hide Sound, Verdict, DisciplinedRun, Reservation;
    var admitted := AdmittedState(started, id, cfg.windows(at), at);
    var e0, e1, e2 := StartTransfer(id, Agent, key, Address("to", "to"), amount, at), Admit(id, at, at), BroadcastReturns(id, "hash");
    assert Apply(cfg, started, Admit(id, at, at)) == admitted;
    t := HoldHash(admitted, id, "hash");
    DisciplinedOne(cfg, s, e0);
    DisciplinedThen(cfg, s, [e0], started, e1);
    DisciplinedThen(cfg, s, [e0] + [e1], admitted, e2);
    events := [e0] + [e1] + [e2];
    SendsOnly(e0, e1, e2);
  }

  lemma SendsOnly(a: Event, b: Event, c: Event)
    requires !a.BroadcastReturns? && !b.BroadcastReturns? && c.BroadcastReturns?
    requires !a.ChangePolicy? && !b.ChangePolicy?
    ensures BroadcastIds([a] + [b] + [c]) == {c.id} && LeavesPolicies([a] + [b] + [c])
  {
    assert ([a] + [b] + [c])[2] == c;
  }

  // ------------------------------------------------------------------------ the results

  /** The owner lifts the limits of the key's other windows. */
  function OthersLifted(window: LimitWindow): PolicyPatch {
    PolicyPatch(if window == Daily then Keep else Set(None), if window == Weekly then Keep else Set(None),
                if window == Monthly then Keep else Set(None))
  }

  lemma Lifts(cfg: Config, s: State, key: LimitKey, window: LimitWindow)
    requires LimitIn(s, key, window).Some?
    ensures var e := ChangePolicy(key, OthersLifted(window), Owner, 0);
            var t := Apply(cfg, s, e);
            && Enabled(s, e) && Disciplined(cfg, s, e) && LimitStands(s, t, key, window)
            && (forall w: LimitWindow :: LimitIn(t, key, w) == if w == window then LimitIn(s, key, w) else None)
            && t == s.(store := t.store) && t.store.transfers == s.store.transfers && t.store.reservations == s.store.reservations
  {
  }

  /** All that is unsent is either released or was stuck from the start. */
  ghost predicate SweptTo(before: seq<Event>, s: State, more: seq<Event>, t: State, key: LimitKey, window: LimitWindow, start: Instant) {
    && UnsentIn(before + more, t.store, key, window, start) <= StuckIn(before, s, key, window, start)
    && WritesOffNothing(before, s.store, more, t.store, key, window, start)
  }

  /** Of the reservations named only the stuck still count; the others are as they were. */
  ghost predicate RowsSwept(s: State, t: State, named: set<Id>) {
    && t.store.reservations.Keys == s.store.reservations.Keys
    && (forall k | k in s.store.reservations && k !in named :: t.store.reservations[k] == s.store.reservations[k])
    && (forall k | k in s.store.reservations && k in named && Counted(t.store, k) ::
          t.store.reservations[k] == s.store.reservations[k] && IsStuck(s, k))
  }

  lemma SweptRows(s: State, m: State, t: State, named: set<Id>)
    requires Sound(s) && Cleared(s, m, named) && Drained(m, t, named)
    ensures RowsSwept(s, t, named)
  {
    ReservedIsStored(s);
    hide ReleaseIsDue, Sound;
    forall k | k in s.store.reservations
      ensures k !in named ==> t.store.reservations[k] == s.store.reservations[k]
      ensures k in named && Counted(t.store, k) ==> t.store.reservations[k] == s.store.reservations[k] && IsStuck(s, k)
    {
      assert k in m.store.reservations;
    }
  }

  lemma ClearedAndDrained(before: seq<Event>, s: State, more: seq<Event>, t: State, key: LimitKey, window: LimitWindow, start: Instant)
    requires RowsSwept(s, t, UnsentIn(before, s.store, key, window, start)) && BroadcastIds(more) == {} && AgentsStay(s.store, t.store)
    ensures SweptTo(before, s, more, t, key, window, start)
  {
    var named := UnsentIn(before, s.store, key, window, start);
    BroadcastIdsJoin(before, more);
    hide BroadcastIds, IsStuck;
    forall id | id in WrittenOffIn(before + more, t.store, key, window, start) ensures id in WrittenOffIn(before, s.store, key, window, start) {
      assert id in s.store.reservations && id !in named;
    }
    forall id | id in WrittenOffIn(before, s.store, key, window, start) ensures id in WrittenOffIn(before + more, t.store, key, window, start) {
      assert id in s.store.reservations && id !in named;
    }
    forall k | k in UnsentIn(before + more, t.store, key, window, start) ensures k in StuckIn(before, s, key, window, start) {
      assert k in s.store.reservations && Counted(t.store, k);
    }
  }

  ghost predicate AgentsStay(s: Store, t: Store) {
    forall id | id in s.reservations :: AgentIn(s, id) && AgentIn(t, id)
  }

  lemma ReservedIsStored(s: State)
    requires Sound(s)
    ensures forall id | id in s.store.reservations :: id in s.store.transfers
  {
    assert StoreOk(s.store);
  }

  lemma AgentsAgree(s: Store, t: Store)
    requires StoreOk(s) && Extends(s, t)
    ensures AgentsStay(s, t)
  {
    forall id | id in s.reservations ensures AgentIn(s, id) && AgentIn(t, id) {
      assert SameDeal(s.reservations[id], s.transfers[id]) && SameTransfer(s.transfers[id], t.transfers[id]);
    }
  }

  lemma LiftedIsTheSame(before: seq<Event>, s: State, t: State, key: LimitKey, window: LimitWindow, start: Instant)
    requires t == s.(store := t.store) && t.store.transfers == s.store.transfers && t.store.reservations == s.store.reservations
    ensures UnsentIn(before, t.store, key, window, start) == UnsentIn(before, s.store, key, window, start)
    ensures StuckIn(before, t, key, window, start) == StuckIn(before, s, key, window, start)
    ensures WrittenOffIn(before, t.store, key, window, start) == WrittenOffIn(before, s.store, key, window, start)
  {
    hide BroadcastIds;
  }

  /** From a state whose other limits are lifted: everything unsent goes, but for what is stuck. */
  lemma SweepOn(cfg: Config, s: State, before: seq<Event>, key: LimitKey, window: LimitWindow, start: Instant)
    returns (more: seq<Event>, t: State)
    requires InStep(s)
    ensures DisciplinedRun(cfg, s, more, t) && Quiet(more) && Idle(t) && t.store.policies == s.store.policies
    ensures SweptTo(before, s, more, t, key, window, start)
  {
    InStepIsSound(s);
    hide *;
    var named := UnsentIn(before, s.store, key, window, start);
    var clear, m := Clear(cfg, s, named);
    RunIsSound(cfg, s, clear, m);
    ClearedIsIdle(s, m, named);
    var drain: seq<Event>;
    drain, t := Drain(cfg, m, named);
    DisciplinedConcat(cfg, s, clear, m, drain, t);
    more := clear + drain;
    QuietJoins(clear, drain);
    QuietSendsNothing(more);
    SweptRows(s, m, t, named);
    DrainedIsIdle(m, t, named);
    RunKeepsSound(cfg, s, more, t);
    SoundIsOk(s);
    AgentsAgree(s.store, t.store);
    ClearedAndDrained(before, s, more, t, key, window, start);
  }

  lemma SoundIsOk(s: State)
    requires Sound(s)
    ensures StoreOk(s.store)
  {
  }

  lemma ClearedIsIdle(s: State, t: State, named: set<Id>)
    requires Cleared(s, t, named)
    ensures Idle(t) && t.store.policies == s.store.policies
  {
  }

  lemma DrainedIsIdle(s: State, t: State, named: set<Id>)
    requires Drained(s, t, named)
    ensures Idle(t) && t.store.policies == s.store.policies
  {
  }

  /** The limit of this one window is all that is left in the way, and it stood all along. */
  ghost predicate OneLimit(s: State, t: State, key: LimitKey, window: LimitWindow) {
    LimitIn(s, key, window).Some? && forall w: LimitWindow :: LimitIn(t, key, w) == if w == window then LimitIn(s, key, w) else None
  }

  lemma Sweep(cfg: Config, s: State, before: seq<Event>, key: LimitKey, window: LimitWindow, start: Instant)
    returns (more: seq<Event>, t: State)
    requires InStep(s) && LimitIn(s, key, window).Some?
    ensures DisciplinedRun(cfg, s, more, t) && LimitStandsThroughout(cfg, s, more, key, window) && Idle(t)
    ensures SweptTo(before, s, more, t, key, window, start) && OneLimit(s, t, key, window)
    ensures BroadcastIds(more) == {}
  {
    var lift := ChangePolicy(key, OthersLifted(window), Owner, 0);
    Lifts(cfg, s, key, window);
    var m := Apply(cfg, s, lift);
    LiftedIsTheSame(before, s, m, key, window, start);
    InStepStep(cfg, s, lift);
    hide InStep, Apply, Enabled, Disciplined, DisciplinedRun, UnsentIn, StuckIn, WrittenOffIn, Idle, LimitStands, BroadcastIds;
    var rest: seq<Event>;
    rest, t := SweepOn(cfg, m, before, key, window, start);
    QuietSendsNothing(rest);
    DisciplinedIsRun(cfg, m, rest, t);
    LimitStandsUntouched(cfg, m, rest, t, key, window);
    DisciplinedFirst(cfg, s, lift, rest, t);
    more := [lift] + rest;
    LiftSendsNothing(lift, rest);
    assert more[0] == lift && more[1..] == rest;
    SamePolicies(m, t, key);
    LiftedSwept(before, s, m, rest, more, t, key, window, start);
  }

  lemma LiftSendsNothing(lift: Event, rest: seq<Event>)
    requires lift.ChangePolicy? && BroadcastIds(rest) == {}
    ensures BroadcastIds([lift] + rest) == {}
  {
    BroadcastIdsJoin([lift], rest);
  }

  lemma SamePolicies(s: State, t: State, key: LimitKey)
    requires t.store.policies == s.store.policies
    ensures forall w: LimitWindow :: LimitIn(t, key, w) == LimitIn(s, key, w)
  {
  }

  lemma LiftedSwept(before: seq<Event>, s: State, m: State, rest: seq<Event>, more: seq<Event>, t: State,
                    key: LimitKey, window: LimitWindow, start: Instant)
    requires SweptTo(before, m, rest, t, key, window, start) && BroadcastIds(rest) == BroadcastIds(more) == {}
    requires StuckIn(before, m, key, window, start) == StuckIn(before, s, key, window, start)
    requires WrittenOffIn(before, m.store, key, window, start) == WrittenOffIn(before, s.store, key, window, start)
    ensures SweptTo(before, s, more, t, key, window, start)
  {
    BroadcastIdsJoin(before, rest);
    BroadcastIdsJoin(before, more);
    hide BroadcastIds, StuckIn;
  }

  lemma FitsInRoom(cfg: Config, s: State, t: State, key: LimitKey, window: LimitWindow, amount: nat, at: Instant)
    requires OneLimit(s, t, key, window)
    requires Used(t.store.reservations, key, window, cfg.windows(at).Of(window).start) + amount <= LimitIn(t, key, window).value
    ensures Verdict(t.store, key, amount, cfg.windows(at)).None?
  {
    VerdictMeansRoom(t.store, key, amount, cfg.windows(at));
    hide Verdict, Used;
    forall w: LimitWindow | LimitIn(t, key, w).Some?
      ensures Used(t.store.reservations, key, w, cfg.windows(at).Of(w).start) + amount <= LimitIn(t, key, w).value
    {
      assert w == window;
    }
  }

  lemma SentOneFills(cfg: Config, t: State, u: State, id: Id, key: LimitKey, amount: nat, at: Instant, window: LimitWindow)
    requires SentOne(cfg, t, u, id, key, amount, at)
    ensures var start := cfg.windows(at).Of(window).start;
            Used(u.store.reservations, key, window, start) == Used(t.store.reservations, key, window, start) + amount
  {
    SumUpdate(t.store.reservations, id, Reservation(id, key, amount, cfg.windows(at), at),
              Query(key, window, cfg.windows(at).Of(window).start, COUNTED));
  }

  /** Sending one more leaves nothing unsent and writes nothing off. */
  lemma SentOneSwept(cfg: Config, before: seq<Event>, s: State, more: seq<Event>, t: State, send: seq<Event>, u: State, id: Id,
                     amount: nat, at: Instant, key: LimitKey, window: LimitWindow, start: Instant)
    requires SweptTo(before, s, more, t, key, window, start) && SentOne(cfg, t, u, id, key, amount, at) && BroadcastIds(send) == {id}
    ensures SweptTo(before, s, more + send, u, key, window, start)
  {
    BroadcastIdsJoin(before, more);
    BroadcastIdsJoin(more, send);
    BroadcastIdsJoin(before, more + send);
    hide BroadcastIds, StuckIn;
    forall k | k in UnsentIn(before + (more + send), u.store, key, window, start) ensures k in UnsentIn(before + more, t.store, key, window, start) {}
    assert WrittenOffIn(before + (more + send), u.store, key, window, start) == WrittenOffIn(before + more, t.store, key, window, start);
  }

  lemma TopUp(cfg: Config, before: seq<Event>, s: State, more: seq<Event>, t: State,
              key: LimitKey, window: LimitWindow, at: Instant) returns (all: seq<Event>, u: State)
    requires Sound(t) && Idle(t) && Supported(key) && OneLimit(s, t, key, window)
    requires DisciplinedRun(cfg, s, more, t) && LimitStandsThroughout(cfg, s, more, key, window)
    requires SweptTo(before, s, more, t, key, window, cfg.windows(at).Of(window).start)
    requires Used(t.store.reservations, key, window, cfg.windows(at).Of(window).start) <= LimitIn(t, key, window).value
    ensures DisciplinedRun(cfg, s, all, u) && LimitStandsThroughout(cfg, s, all, key, window)
    ensures SweptTo(before, s, all, u, key, window, cfg.windows(at).Of(window).start)
    ensures LimitIn(u, key, window).Some?
    ensures Used(u.store.reservations, key, window, cfg.windows(at).Of(window).start) == LimitIn(u, key, window).value
  {
    var start := cfg.windows(at).Of(window).start;
    var amount := LimitIn(t, key, window).value - Used(t.store.reservations, key, window, start);
    if amount == 0 {
      all, u := more, t;
    } else {
      FitsInRoom(cfg, s, t, key, window, amount, at);
      hide Sound, Idle, DisciplinedRun, LimitStandsThroughout, SweptTo, Used, Verdict, BroadcastIds, SentOne;
      var send, id;
      send, u, id := SendOne(cfg, t, key, amount, at);
      SentOneFills(cfg, t, u, id, key, amount, at, window);
      SentOneSwept(cfg, before, s, more, t, send, u, id, amount, at, key, window, start);
      DisciplinedIsRun(cfg, s, more, t);
      DisciplinedIsRun(cfg, t, send, u);
      LimitStandsUntouched(cfg, t, send, u, key, window);
      StandsOn(cfg, s, more, t, send, key, window);
      DisciplinedConcat(cfg, s, more, t, send, u);
      all := more + send;
    }
  }

  /** The account at the end: as much has been sent as the limit, what was written off and what is
      stuck allow. */
  lemma FullAccount(before: seq<Event>, s: State, more: seq<Event>, u: State, key: LimitKey, window: LimitWindow, start: Instant)
    requires StoreOk(u.store) && Extends(s.store, u.store) && SweptTo(before, s, more, u, key, window, start)
    ensures StuckIn(before, s, key, window, start) <= s.store.transfers.Keys
    ensures TotalRequested(u.store.transfers, BroadcastIn(before + more, u.store, key, window, start))
            + TotalRequested(s.store.transfers, StuckIn(before, s, key, window, start))
         >= Used(u.store.reservations, key, window, start)
            + TotalRequested(s.store.transfers, WrittenOffIn(before, s.store, key, window, start))
  {
    var off, stuck := WrittenOffIn(before, s.store, key, window, start), StuckIn(before, s, key, window, start);
    var unsent := UnsentIn(before + more, u.store, key, window, start);
    hide StoreOk, Extends, StuckIn, UnsentIn, BroadcastIn, WrittenOffIn, TotalRequested, Used;
    SentIsAccountedFor(before + more, u.store, key, window, start);
    StuckIsStored(before, s, key, window, start);
    OffIsStored(before, s.store, key, window, start);
    AmountsStay(s.store, u.store, off);
    AmountsStay(s.store, u.store, stuck);
    TotalSplits(u.store.transfers, stuck, unsent);
  }

  /** The owner keeps the limit and nothing of the window is written off. */
  ghost predicate Continues(cfg: Config, before: seq<Event>, s: State, more: seq<Event>, t: State,
                            key: LimitKey, window: LimitWindow, start: Instant) {
    && DisciplinedRun(cfg, s, more, t)
    && LimitStandsThroughout(cfg, s, more, key, window) && LimitIn(t, key, window).Some?
    && WritesOffNothing(before, s.store, more, t.store, key, window, start)
  }

  lemma ExcessIsAttained(cfg: Config, s: State, before: seq<Event>, key: LimitKey, window: LimitWindow, at: Instant)
    returns (more: seq<Event>, t: State)
    requires InStep(s) && Supported(key) && LimitIn(s, key, window).Some?
    requires WithinLimit(s, key, window, cfg.windows(at).Of(window).start)
    ensures var start := cfg.windows(at).Of(window).start;
            && Continues(cfg, before, s, more, t, key, window, start)
            && StuckIn(before, s, key, window, start) <= s.store.transfers.Keys
            && TotalRequested(t.store.transfers, BroadcastIn(before + more, t.store, key, window, start))
               + TotalRequested(s.store.transfers, StuckIn(before, s, key, window, start))
            >= LimitIn(t, key, window).value
               + TotalRequested(s.store.transfers, WrittenOffIn(before, s.store, key, window, start))
  {
    var start := cfg.windows(at).Of(window).start;
    InStepIsSound(s);
    hide *;
    var sweep, m := Sweep(cfg, s, before, key, window, start);
    RunIsSound(cfg, s, sweep, m);
    SweptWithin(cfg, s, sweep, m, key, window, start);
    more, t := TopUp(cfg, before, s, sweep, m, key, window, at);
    RunKeepsSound(cfg, s, more, t);
    FullAccount(before, s, more, t, key, window, start);
    SweepContinues(cfg, before, s, more, t, key, window, start);
  }

  lemma SweptWithin(cfg: Config, s: State, events: seq<Event>, t: State, key: LimitKey, window: LimitWindow, start: Instant)
    requires InStep(s) && DisciplinedRun(cfg, s, events, t) && WithinLimit(s, key, window, start)
    requires LimitStandsThroughout(cfg, s, events, key, window) && OneLimit(s, t, key, window)
    ensures LimitIn(t, key, window).Some? && Used(t.store.reservations, key, window, start) <= LimitIn(t, key, window).value
  {
    RunKeepsSound(cfg, s, events, t);
    assert RevivedIn(t, key, window, start) == 0;
    hide InStep, Sound, DisciplinedRun, LimitStandsThroughout, Used, Run;
    LimitBoundOverRuns(cfg, s, events, t, key, window, start);
  }

  lemma SweepContinues(cfg: Config, before: seq<Event>, s: State, more: seq<Event>, t: State, key: LimitKey, window: LimitWindow, start: Instant)
    requires DisciplinedRun(cfg, s, more, t) && SweptTo(before, s, more, t, key, window, start)
    requires LimitStandsThroughout(cfg, s, more, key, window) && LimitIn(t, key, window).Some?
    ensures Continues(cfg, before, s, more, t, key, window, start)
  {
  }

  lemma WrittenOffIsStamped(cfg: Config, s: State, events: seq<Event>, t: State, id: Id, key: LimitKey, window: LimitWindow, start: Instant)
    returns (at: Instant)
    requires Initial(s) && DisciplinedRun(cfg, s, events, t) && id in WrittenOffIn(events, t.store, key, window, start)
    ensures cfg.windows(at).Of(window).start == start
  {
    DisciplinedIsRun(cfg, s, events, t);
    hide DisciplinedRun, Run, Initial;
    StampedFromFresh(cfg, s, events, t);
    at :| Admitted(events, id, at) && Stamped(t.store.reservations[id], cfg.windows(at));
  }

  /** Agents can still be made to hand the chain more than a limit that stands, with the discipline
      kept and nothing further of the window written off, exactly when more of the window was
      written off after its broadcast than is stuck. */
  lemma MayExceedIffMoreWrittenOffThanStuck(cfg: Config, s: State, events: seq<Event>, t: State,
                                            key: LimitKey, window: LimitWindow, start: Instant)
    requires Initial(s) && DisciplinedRun(cfg, s, events, t) && Supported(key)
    requires LimitStandsThroughout(cfg, s, events, key, window) && LimitIn(t, key, window).Some?
    ensures StuckIn(events, t, key, window, start) <= t.store.transfers.Keys
    ensures (exists more, u :: Continues(cfg, events, t, more, u, key, window, start)
                               && TotalRequested(u.store.transfers, BroadcastIn(events + more, u.store, key, window, start))
                                  > LimitIn(u, key, window).value)
            <==> TotalRequested(t.store.transfers, WrittenOffIn(events, t.store, key, window, start))
                 > TotalRequested(t.store.transfers, StuckIn(events, t, key, window, start))
  {
    StuckIsStored(events, t, key, window, start);
    FreshIsWithin(cfg, s, events, t, key, window, start);
    if TotalRequested(t.store.transfers, WrittenOffIn(events, t.store, key, window, start))
       > TotalRequested(t.store.transfers, StuckIn(events, t, key, window, start)) {
      assert WrittenOffIn(events, t.store, key, window, start) != {};
      var id :| id in WrittenOffIn(events, t.store, key, window, start);
      hide *;
      var at := WrittenOffIsStamped(cfg, s, events, t, id, key, window, start);
      var more, u := ExcessIsAttained(cfg, t, events, key, window, at);
    } else {
      hide InStep, DisciplinedRun, LimitStandsThroughout, WritesOffNothing, TotalRequested, BroadcastIn, WrittenOffIn, StuckIn, LimitIn, WithinLimit;
      forall more, u | Continues(cfg, events, t, more, u, key, window, start)
        ensures TotalRequested(u.store.transfers, BroadcastIn(events + more, u.store, key, window, start)) <= LimitIn(u, key, window).value
      {
        ExcessIsBounded(cfg, t, events, more, u, key, window, start);
      }
    }
  }

  lemma FreshIsWithin(cfg: Config, s: State, events: seq<Event>, t: State, key: LimitKey, window: LimitWindow, start: Instant)
    requires Initial(s) && DisciplinedRun(cfg, s, events, t)
    requires LimitStandsThroughout(cfg, s, events, key, window) && LimitIn(t, key, window).Some?
    ensures InStep(t) && WithinLimit(t, key, window, start)
  {
    InitialInStep(s);
    InStepRun(cfg, s, events, t);
    DisciplinedIsRun(cfg, s, events, t);
    hide InStep, DisciplinedRun, Run, LimitStandsThroughout;
    LimitBoundFromFresh(cfg, s, events, t, key, window, start);
  }
}
