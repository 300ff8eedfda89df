/** Exactly when a second settlement pass may begin while another is running, for each of three
    promises: outgoing operations stay covered, released reservations stay released, and stored
    outcomes stay final. Each is decided twice: over all disciplined continuations, and over those
    from a given instant on whose clock does not go back and whose chain keeps its verdicts. */
module Overlaps {
  import opened Wrappers
  import opened Domain
  import opened Usage
  import opened Tables
  import opened Protocol
  import opened Interleavings
  import opened LimitBound
  import opened Discipline
  import opened Safety
  import opened Guards
  import opened Finality
  import opened Revival
  import opened WithoutDiscipline
  import opened Steady

  function NewPass(s: State, listed: seq<TransferOperation>): Pass {
    Pass(listed, 0, Examining, s.calls.Keys)
  }

  function Begun(s: State, q: nat, listed: seq<TransferOperation>): State {
    s.(passes := s.passes[q := NewPass(s, listed)])
  }

  /** The running pass has still to examine an operation that is in the new list as well. */
  predicate SharedAt(s: State, listed: seq<TransferOperation>, p: nat, i: nat, j: nat) {
    && p in s.passes && FirstLeft(s.passes[p]) <= i < |s.passes[p].listed| && j < |listed|
    && s.passes[p].listed[i].operationId == listed[j].operationId
  }

  /** The passes share an AGENT operation that is SUBMITTED with a hash. */
  ghost predicate SharesConfirmable(s: State, listed: seq<TransferOperation>) {
    exists p: nat, i: nat, j: nat :: SharedAt(s, listed, p, i, j) && Confirmable(s.passes[p].listed[i])
  }

  /** The passes share an operation, of whatever actor, that is SUBMITTED or whose call had stopped
      when the running pass listed it. */
  ghost predicate SharesWritable(s: State, listed: seq<TransferOperation>) {
    exists p: nat, i: nat, j: nat :: SharedAt(s, listed, p, i, j) && Writable(s.passes[p].listed[i], s.passes[p].live)
  }

  /** Neither pass is stopped before it gets to its copy. */
  predicate BothReach(cfg: Config, s: State, listed: seq<TransferOperation>, p: nat, i: nat, j: nat, now: Instant) {
    p in s.passes && Reaches(cfg, s.passes[p], i, now) && Reaches(cfg, NewPass(s, listed), j, now)
  }

  ghost predicate MeetsConfirmable(cfg: Config, s: State, listed: seq<TransferOperation>, now: Instant) {
    exists p: nat, i: nat, j: nat :: SharedAt(s, listed, p, i, j) && Confirmable(s.passes[p].listed[i]) && BothReach(cfg, s, listed, p, i, j, now)
  }

  ghost predicate MeetsWritable(cfg: Config, s: State, listed: seq<TransferOperation>, now: Instant) {
    exists p: nat, i: nat, j: nat :: SharedAt(s, listed, p, i, j) && Writable(s.passes[p].listed[i], s.passes[p].live)
                      && BothReach(cfg, s, listed, p, i, j, now)
  }

  // --------------------------------------------------------------------- the safe halves

  /** What a running pass may write is stored as it was listed, has no call, and is what the new
      pass lists if it lists that operation. */
  lemma SharedIsStored(s: State, limit: nat, listed: seq<TransferOperation>, p: nat, i: nat, j: nat)
    requires InStep(s) && ListedByStatuses(s.store.transfers, limit, listed)
    requires SharedAt(s, listed, p, i, j) && Writable(s.passes[p].listed[i], s.passes[p].live)
    ensures listed[j] == s.passes[p].listed[i] && Writable(listed[j], s.calls.Keys)
  {
    hide Sound, Settled, CallsAgree;
    assert SnapshotIsFresh(s, s.passes[p].listed[i], s.passes[p].live);
    assert IsPendingRow(s.store.transfers, listed[j]);
  }

  lemma NewWritesNoneOff(s: State, p: nat, limit: nat, listed: seq<TransferOperation>)
    requires InStep(s) && p in s.passes && ListedByStatuses(s.store.transfers, limit, listed)
    requires !SharesConfirmable(s, listed)
    ensures Apart(s.passes[p], NewPass(s, listed))
  {
    var running, next := s.passes[p], NewPass(s, listed);
    hide InStep, ListedByStatuses;
    forall i | FirstLeft(running) <= i < |running.listed| && Confirmable(running.listed[i])
      ensures !MayWriteOff(next, running.listed[i].operationId)
    {
      forall j | 0 <= j < |listed| ensures listed[j].operationId != running.listed[i].operationId {
        assert !SharedAt(s, listed, p, i, j);
      }
    }
  }

  lemma RunningWritesNoneOff(s: State, p: nat, limit: nat, listed: seq<TransferOperation>)
    requires InStep(s) && p in s.passes && ListedByStatuses(s.store.transfers, limit, listed)
    requires !SharesConfirmable(s, listed)
    ensures Apart(NewPass(s, listed), s.passes[p])
  {
    var running := s.passes[p];
    NoneLeftReleasing(s, p, limit, listed);
    hide InStep, ListedByStatuses, SharesConfirmable;
    forall j | 0 <= j < |listed| && Confirmable(listed[j]) ensures !MayWriteOff(running, listed[j].operationId) {
      forall i | FirstLeft(running) <= i < |running.listed| && running.listed[i].operationId == listed[j].operationId
        ensures !Writable(running.listed[i], running.live)
      {
        assert SharedAt(s, listed, p, i, j);
        if Writable(running.listed[i], running.live) { SharedIsConfirmable(s, limit, listed, p, i, j); }
      }
    }
  }

  lemma SharedIsConfirmable(s: State, limit: nat, listed: seq<TransferOperation>, p: nat, i: nat, j: nat)
    requires InStep(s) && ListedByStatuses(s.store.transfers, limit, listed) && SharedAt(s, listed, p, i, j)
    requires Writable(s.passes[p].listed[i], s.passes[p].live) && Confirmable(listed[j])
    ensures SharesConfirmable(s, listed)
  {
    SharedIsStored(s, limit, listed, p, i, j);
    hide InStep;
  }

  /** Between its two writes a pass has already stored an outcome. */
  lemma NoneLeftReleasing(s: State, p: nat, limit: nat, listed: seq<TransferOperation>)
    requires InStep(s) && p in s.passes && ListedByStatuses(s.store.transfers, limit, listed)
    ensures MidOperation(s.passes[p]) && s.passes[p].next < |s.passes[p].listed| ==>
              forall j | 0 <= j < |listed| :: listed[j].operationId != Current(s.passes[p]).operationId
  {
    hide Sound, Settled, CallsAgree, ListIsFresh;
    forall j | 0 <= j < |listed| ensures IsPendingRow(s.store.transfers, listed[j]) {}
  }

  lemma BegunIsGuarded(s: State, q: nat, limit: nat, listed: seq<TransferOperation>)
    requires InStep(s) && Enabled(s, BeginPass(q, limit, listed)) && !SharesConfirmable(s, listed)
    ensures Guarded(Begun(s, q, listed))
  {
    hide InStep, Guarded, Apart, ListedByStatuses, SharesConfirmable;
    InStepIsGuarded(s);
    forall p | p in s.passes ensures Apart(s.passes[p], NewPass(s, listed)) && Apart(NewPass(s, listed), s.passes[p]) {
      NewWritesNoneOff(s, p, limit, listed);
      RunningWritesNoneOff(s, p, limit, listed);
    }
    BeginGuarded(s, q, limit, listed);
  }

  lemma BegunIsUnrevived(s: State, q: nat, limit: nat, listed: seq<TransferOperation>)
    requires InStep(s) && Enabled(s, BeginPass(q, limit, listed)) && !SharesConfirmable(s, listed)
    ensures Unrevived(Begun(s, q, listed))
  {
    hide InStep, Guarded, ListedByStatuses, SharesConfirmable, Unrevived;
    InStepIsUnrevived(s);
    BegunIsGuarded(s, q, limit, listed);
    forall p | p in s.passes && IsConsuming(s.passes[p])
      ensures forall j | 0 <= j < |listed| :: listed[j].operationId != Current(s.passes[p]).operationId
    {
      NoneLeftReleasing(s, p, limit, listed);
    }
    BeginUnrevived(s, q, limit, listed);
  }

  lemma BegunIsExclusive(s: State, q: nat, limit: nat, listed: seq<TransferOperation>)
    requires InStep(s) && Enabled(s, BeginPass(q, limit, listed)) && !SharesWritable(s, listed)
    ensures Exclusive(Begun(s, q, listed))
  {
    hide InStep, Exclusive, ListedByStatuses;
    InStepIsExclusive(s);
    forall p | p in s.passes ensures Disjoint(s.passes[p], NewPass(s, listed)) {
      forall i, j | FirstLeft(s.passes[p]) <= i < |s.passes[p].listed| && 0 <= j < |listed|
                    && Writable(s.passes[p].listed[i], s.passes[p].live)
        ensures s.passes[p].listed[i].operationId != listed[j].operationId
      {
        assert !SharedAt(s, listed, p, i, j);
      }
    }
    hide Disjoint, SharesWritable;
    BeginExclusive(s, q, limit, listed);
  }

  /** The new pass with its list cut where it will stop. */
  function CutList(cfg: Config, s: State, listed: seq<TransferOperation>, now: Instant): seq<TransferOperation> {
    Cut(cfg, NewPass(s, listed), now).listed
  }

  lemma CutListReaches(cfg: Config, s: State, listed: seq<TransferOperation>, now: Instant)
    ensures CutList(cfg, s, listed, now) <= listed
    ensures forall j: nat | j < |CutList(cfg, s, listed, now)| :: Reaches(cfg, NewPass(s, listed), j, now)
  {
  }

  lemma CutPassReaches(cfg: Config, s: State, p: nat, now: Instant)
    requires Sound(s) && p in s.passes
    ensures var cut := CutState(cfg, s, now).passes[p];
            && cut.listed <= s.passes[p].listed && FirstLeft(cut) == FirstLeft(s.passes[p]) && cut.live == s.passes[p].live
            && forall i: nat | FirstLeft(cut) <= i < |cut.listed| :: Reaches(cfg, s.passes[p], i, now)
  {
    ListsAreLong(s);
    hide Sound;
  }

  lemma CutStateInStep(cfg: Config, s: State, now: Instant)
    requires InStep(s)
    ensures InStep(CutState(cfg, s, now))
  {
    assert Sound(s);
    hide *;
    CutStateCuts(cfg, s, now);
    CutIsInStep(cfg, s, CutState(cfg, s, now), now);
  }

  lemma CutMayBegin(cfg: Config, s: State, q: nat, limit: nat, listed: seq<TransferOperation>, now: Instant)
    requires Enabled(s, BeginPass(q, limit, listed))
    ensures Enabled(CutState(cfg, s, now), BeginPass(q, |CutList(cfg, s, listed, now)|, CutList(cfg, s, listed, now)))
  {
    CutListReaches(cfg, s, listed, now);
    hide CutList, ListedByStatuses, Cut;
    var short := CutList(cfg, s, listed, now);
    assert listed[..|short|] == short;
    CutListing(s.store.transfers, limit, listed, |short|);
  }

  lemma CutOnlyLists(cfg: Config, pass: Pass, now: Instant)
    ensures Cut(cfg, pass, now) == pass.(listed := Cut(cfg, pass, now).listed)
  {
    hide Horizon;
  }

  lemma BegunIsCut(cfg: Config, s: State, q: nat, listed: seq<TransferOperation>, now: Instant)
    requires Sound(s) && q !in s.passes
    ensures CutsShort(cfg, Begun(s, q, listed), Begun(CutState(cfg, s, now), q, CutList(cfg, s, listed, now)), now)
  {
    var c := CutState(cfg, s, now);
    hide Sound, CutState, CutShort, Cut;
    CutStateCuts(cfg, s, now);
    CutIsShort(cfg, NewPass(s, listed), now);
    CutOnlyLists(cfg, NewPass(s, listed), now);
    assert NewPass(c, CutList(cfg, s, listed, now)) == Cut(cfg, NewPass(s, listed), now);
  }

  lemma CutSharesConfirmable(cfg: Config, s: State, listed: seq<TransferOperation>, now: Instant)
    requires Sound(s) && SharesConfirmable(CutState(cfg, s, now), CutList(cfg, s, listed, now))
    ensures MeetsConfirmable(cfg, s, listed, now)
  {
    var c, short := CutState(cfg, s, now), CutList(cfg, s, listed, now);
    var p: nat, i: nat, j: nat :| SharedAt(c, short, p, i, j) && Confirmable(c.passes[p].listed[i]);
    CutPassReaches(cfg, s, p, now);
    CutListReaches(cfg, s, listed, now);
    hide Sound, CutState, CutList, Reaches, Confirmable;
    assert SharedAt(s, listed, p, i, j) && BothReach(cfg, s, listed, p, i, j, now);
  }

  lemma CutSharesWritable(cfg: Config, s: State, listed: seq<TransferOperation>, now: Instant)
    requires Sound(s) && SharesWritable(CutState(cfg, s, now), CutList(cfg, s, listed, now))
    ensures MeetsWritable(cfg, s, listed, now)
  {
    var c, short := CutState(cfg, s, now), CutList(cfg, s, listed, now);
    var p: nat, i: nat, j: nat :| SharedAt(c, short, p, i, j) && Writable(c.passes[p].listed[i], c.passes[p].live);
    CutPassReaches(cfg, s, p, now);
    CutListReaches(cfg, s, listed, now);
    hide Sound, CutState, CutList, Reaches, Writable;
    assert SharedAt(s, listed, p, i, j) && BothReach(cfg, s, listed, p, i, j, now);
  }

  // ------------------------------------------------------------------- the unsafe halves

  /** One row and everything but one pass are left as they were. */
  ghost predicate LeavesRow(s: State, t: State, p: nat, id: Id) {
    && p in s.passes && p in t.passes && t.passes == s.passes[p := t.passes[p]] && t.calls == s.calls
    && t.passes[p].listed == s.passes[p].listed && t.passes[p].live == s.passes[p].live
    && id in s.store.transfers && id in t.store.transfers && t.store.transfers[id] == s.store.transfers[id]
    && ReservationOf(t.store, id) == ReservationOf(s.store, id)
  }

  lemma SettleLeavesRow(s: State, p: nat, id: Id, now: Instant)
    requires Sound(s) && p in s.passes && MidOperation(s.passes[p]) && s.passes[p].next < |s.passes[p].listed|
    requires Current(s.passes[p]).operationId != id && id in s.store.transfers
    ensures var t := Settle(s, p, now);
            LeavesRow(s, t, p, id) && t.passes[p].next == s.passes[p].next + 1 && !MidOperation(t.passes[p])
  {
    hide Sound, ReleaseAssetLimitReservation, ConsumeAssetLimitReservation;
  }

  lemma VerdictLeavesRow(s: State, p: nat, id: Id, decision: Decision, now: Instant)
    requires Sound(s) && p in s.passes && !MidOperation(s.passes[p]) && s.passes[p].next < |s.passes[p].listed|
    requires Current(s.passes[p]).operationId != id && id in s.store.transfers
    ensures var t := CarryOut(s, p, decision, now);
            && LeavesRow(s, t, p, id)
            && t.passes[p].next == s.passes[p].next + (if decision == Noop then 1 else 0)
            && (MidOperation(t.passes[p]) <==> decision != Noop)
  {
    hide Sound;
  }

  /** The transactions are seen on chain only after the instant given. */
  function SeenAfter(late: Instant): History {
    (kind, txHash, now) => if now <= late then InMempool else OnChain
  }

  lemma SeenAfterKeepsVerdicts(late: Instant)
    ensures KeepsVerdicts(SeenAfter(late))
  {
  }

  /** Steps left until the pass has reached the k-th operation of its list. */
  function Distance(pass: Pass, k: nat): nat
    requires FirstLeft(pass) <= k
  {
    2 * (k - FirstLeft(pass)) + if MidOperation(pass) then 1 else 0
  }

  /** The next step of a pass at the instant `now`, while every transaction waits in the mempool. */
  function NextStep(pass: Pass, p: nat, now: Instant): Event {
    if MidOperation(pass) then SettleReservation(p, now) else Examine(p, now, InMempool)
  }

  lemma NextStepIsSteady(cfg: Config, s: State, p: nat, k: nat, now: Instant, late: Instant)
    requires p in s.passes && s.passes[p].next < k && Reaches(cfg, s.passes[p], k, now) && now <= late
    ensures var e := NextStep(s.passes[p], p, now);
            && Enabled(s, e) && Disciplined(cfg, s, e) && InTime(e, now) && AnsweredBy(SeenAfter(late), s, e) && After(e, now) == now
  {
  }

  lemma NextStepLeavesRow(cfg: Config, s: State, p: nat, k: nat, id: Id, now: Instant)
    requires Sound(s) && p in s.passes && s.passes[p].next < k && Reaches(cfg, s.passes[p], k, now) && id in s.store.transfers
    requires Current(s.passes[p]).operationId != id && Enabled(s, NextStep(s.passes[p], p, now))
    ensures var t := Apply(cfg, s, NextStep(s.passes[p], p, now));
            && LeavesRow(s, t, p, id) && s.passes[p].next <= t.passes[p].next <= k && Reaches(cfg, t.passes[p], k, now)
            && Distance(t.passes[p], k) < Distance(s.passes[p], k)
  {
    hide Sound, CarryOut, Settle, Decide, LeavesRow, Blocked;
    var pass := s.passes[p];
    if MidOperation(pass) {
      SettleLeavesRow(s, p, id, now);
    } else {
      VerdictLeavesRow(s, p, id, Decide(cfg, Current(pass), now, InMempool), now);
    }
    assert LeavesRow(s, Apply(cfg, s, NextStep(pass, p, now)), p, id);
    RowLeft(s, Apply(cfg, s, NextStep(pass, p, now)), p, id);
  }

  lemma RowLeft(s: State, t: State, p: nat, id: Id)
    requires LeavesRow(s, t, p, id)
    ensures p in s.passes && p in t.passes && t.passes[p].listed == s.passes[p].listed && t.passes[p].live == s.passes[p].live
  {
  }

  lemma RowLeftAgain(s: State, t: State, u: State, p: nat, id: Id)
    requires LeavesRow(s, t, p, id) && LeavesRow(t, u, p, id)
    ensures LeavesRow(s, u, p, id)
  {
  }

  /** A pass that nothing stops can reach any operation it has still to examine at one instant,
      without touching its row. */
  lemma {:induction false} Reach(cfg: Config, s: State, p: nat, k: nat, id: Id, now: Instant, late: Instant)
    returns (events: seq<Event>, t: State)
    requires Sound(s) && p in s.passes && Reaches(cfg, s.passes[p], k, now) && now <= late && id in s.store.transfers
    requires forall j | s.passes[p].next <= j < k :: s.passes[p].listed[j].operationId != id
    ensures SteadyRun(cfg, SeenAfter(late), now, s, events, t) && ClockAfter(events, now) == now
    ensures Sound(t) && LeavesRow(s, t, p, id)
    ensures t.passes[p].next == k && !MidOperation(t.passes[p])
    decreases Distance(s.passes[p], k)
  {
    hide Sound, SteadyRun, Apply, Disciplined, Enabled, InTime, After, AnsweredBy, Blocked, SeenAfter, ReservationOf;
    var pass := s.passes[p];
    if pass.next == k {
      events, t := [], s;
      SteadyNothing(cfg, SeenAfter(late), now, s);
    } else {
      var e := NextStep(pass, p, now);
      NextStepIsSteady(cfg, s, p, k, now, late);
      NextStepLeavesRow(cfg, s, p, k, id, now);
      SoundStep(cfg, s, e);
      var next := Apply(cfg, s, e);
      hide NextStep;
      var rest: seq<Event>;
      rest, t := Reach(cfg, next, p, k, id, now, late);
      SteadyFirst(cfg, SeenAfter(late), now, s, e, rest, t);
      RowLeftAgain(s, next, t, p, id);
      events := [e] + rest;
    }
  }

  /** Two passes can meet at an operation both have still to examine. */
  lemma Meet(cfg: Config, u: State, p: nat, i: nat, q: nat, j: nat, now: Instant, late: Instant) returns (events: seq<Event>, t: State)
    requires Sound(u) && p in u.passes && q in u.passes && p != q && Distinct(u.passes[p].listed) && Distinct(u.passes[q].listed)
    requires Reaches(cfg, u.passes[p], i, now) && Reaches(cfg, u.passes[q], j, now) && now <= late
    requires u.passes[p].listed[i] == u.passes[q].listed[j] && u.passes[p].listed[i].operationId in u.store.transfers
    ensures SteadyRun(cfg, SeenAfter(late), now, u, events, t) && ClockAfter(events, now) == now
    ensures Sound(t) && Together(t, p, q) && Current(t.passes[p]) == u.passes[p].listed[i]
    ensures t.passes[p].live == u.passes[p].live && t.passes[q].live == u.passes[q].live
  {
    hide Sound, SteadyRun, SeenAfter, Blocked, ReservationOf;
    var id := u.passes[p].listed[i].operationId;
    var first, m := Reach(cfg, u, p, i, id, now, late);
    var second: seq<Event>;
    second, t := Reach(cfg, m, q, j, id, now, late);
    hide Reaches, ClockAfter;
    SteadyConcat(cfg, SeenAfter(late), now, u, first, m, second, t);
    events := first + second;
  }

  /** By now settlement gives the operation up, whether it waits for its call or for the chain. */
  predicate IsLate(cfg: Config, op: TransferOperation, late: Instant) {
    late - op.updatedAt > cfg.reservedTimeout && late - op.updatedAt > cfg.submittedTimeout
  }

  function LateFor(cfg: Config, op: TransferOperation, now: Instant): (late: Instant)
    ensures now <= late && IsLate(cfg, op, late)
  {
    var wait := if cfg.reservedTimeout < cfg.submittedTimeout then cfg.submittedTimeout else cfg.reservedTimeout;
    if now <= op.updatedAt + wait then op.updatedAt + wait + 1 else now
  }

  lemma LateVerdicts(cfg: Config, op: TransferOperation, late: Instant)
    requires op.Pending() && IsLate(cfg, op, late)
    ensures Decide(cfg, op, late, InMempool).Fail?
    ensures Decide(cfg, op, late + 1, OnChain) != Noop && (Confirmable(op) ==> Decide(cfg, op, late + 1, OnChain) == Confirm)
  {
  }

  lemma LooksLate(cfg: Config, s: State, p: nat, now: Instant, late: Instant)
    requires p in s.passes && !MidOperation(s.passes[p]) && s.passes[p].next < |s.passes[p].listed|
    requires Writable(Current(s.passes[p]), s.passes[p].live)
    ensures var answer := if now <= late then InMempool else OnChain;
            var e := Examine(p, now, answer);
            && Enabled(s, e) && Disciplined(cfg, s, e) && AnsweredBy(SeenAfter(late), s, e)
            && Apply(cfg, s, e) == CarryOut(s, p, Decide(cfg, Current(s.passes[p]), now, answer), now)
  {
    hide CarryOut, Decide;
  }

  lemma SettlesNext(cfg: Config, s: State, p: nat, decision: Decision, now: Instant, at: Instant, chain: History)
    requires p in s.passes && !MidOperation(s.passes[p]) && s.passes[p].next < |s.passes[p].listed| && decision != Noop
    ensures var t, e := CarryOut(s, p, decision, now), SettleReservation(p, at);
            && Enabled(t, e) && Disciplined(cfg, t, e) && AnsweredBy(chain, t, e) && Apply(cfg, t, e) == Settle(t, p, at)
  {
    hide CommitConfirmed, CommitFailed, Settle;
    assert Apply(cfg, CarryOut(s, p, decision, now), SettleReservation(p, at)) == Settle(CarryOut(s, p, decision, now), p, at);
  }

  lemma SteadyOne(cfg: Config, chain: History, clock: Instant, s: State, e: Event, t: State)
    requires Enabled(s, e) && Disciplined(cfg, s, e) && InTime(e, clock) && AnsweredBy(chain, s, e) && t == Apply(cfg, s, e)
    ensures SteadyRun(cfg, chain, clock, s, [e], t) && ClockAfter([e], clock) == After(e, clock)
  {
    hide Enabled, Disciplined, InTime, AnsweredBy, Apply, After;
    SteadyNothing(cfg, chain, After(e, clock), t);
    SteadyFirst(cfg, chain, clock, s, e, [], t);
    assert [e] + [] == [e];
  }

  lemma FailedRow(s: State, p: nat, message: string, reason: string, now: Instant)
    requires p in s.passes && s.passes[p].next < |s.passes[p].listed|
    ensures var id, t := Current(s.passes[p]).operationId, CarryOut(s, p, Fail(message, reason), now);
            && id in t.store.transfers && t.store.transfers[id].Terminal() && t.store.transfers[id].failedAt == Some(now)
  {
  }

  lemma RewrittenRow(s: State, q: nat, decision: Decision, now: Instant)
    requires q in s.passes && s.passes[q].next < |s.passes[q].listed| && decision != Noop
    ensures var id, t := Current(s.passes[q]).operationId, CarryOut(s, q, decision, now);
            && id in t.store.transfers && (t.store.transfers[id].failedAt == Some(now) || t.store.transfers[id].failedAt == None)
  {
  }

  /** The other pass confirms what was given up, over a released reservation, and consumes it. */
  lemma ConfirmsGivenUp(s: State, p: nat, q: nat, message: string, reason: string, now: Instant, later: Instant)
    requires Sound(s) && ReachedTogether(s, p, q)
    ensures var m := GivenUp(s, p, message, reason, now);
            && q in m.passes && m.passes[q] == s.passes[q]
            && var t := CarryOut(m, q, Confirm, later);
               && q in t.passes && MidOperation(t.passes[q]) && t.passes[q].next < |t.passes[q].listed|
               && !AllCovered(t.store) && Settle(t, q, later).revived != []
  {
    var op := Current(s.passes[p]);
    CurrentIsPending(s, p);
    assert op.operationId in s.store.reservations && SnapshotOk(s.store, op);
    hide Sound, WellFormed, SnapshotOk, SameTransfer;
    FailThenRelease(s, p, message, reason, now);
    var m := GivenUp(s, p, message, reason, now);
    assert m.store.reservations[op.operationId].status == RELEASED;
    hide GivenUp, ReleaseReservation;
    ConfirmThenConsume(m, q, later);
    MidAfterConfirm(m, q, later);
    hide CarryOut, Settle;
    assert !Covered(CarryOut(m, q, Confirm, later).store, op.operationId);
  }

  lemma MidAfterConfirm(s: State, q: nat, now: Instant)
    requires q in s.passes && s.passes[q].next < |s.passes[q].listed|
    ensures var t := CarryOut(s, q, Confirm, now); q in t.passes && MidOperation(t.passes[q]) && t.passes[q].next < |t.passes[q].listed|
  {
  }

  lemma OtherPassStays(s: State, p: nat, q: nat, message: string, reason: string, now: Instant)
    requires Together(s, p, q)
    ensures q in GivenUp(s, p, message, reason, now).passes && GivenUp(s, p, message, reason, now).passes[q] == s.passes[q]
  {
    FailThenRelease(s, p, message, reason, now);
    hide GivenUp;
  }

  lemma GivesUp(cfg: Config, s: State, p: nat, late: Instant) returns (message: string, reason: string)
    requires p in s.passes && !MidOperation(s.passes[p]) && s.passes[p].next < |s.passes[p].listed|
    requires var op := Current(s.passes[p]); op.Pending() && Writable(op, s.passes[p].live) && IsLate(cfg, op, late)
    ensures var failed := CarryOut(s, p, Fail(message, reason), late);
            && SteadyRun(cfg, SeenAfter(late), late, s, [Examine(p, late, InMempool)], failed)
            && SteadyRun(cfg, SeenAfter(late), late, failed, [SettleReservation(p, late)], GivenUp(s, p, message, reason, late))
  {
    var chain, decision := SeenAfter(late), Decide(cfg, Current(s.passes[p]), late, InMempool);
    LateVerdicts(cfg, Current(s.passes[p]), late);
    message, reason := decision.message, decision.releaseReason;
    hide Decide, Apply, Enabled, Disciplined, AnsweredBy, SeenAfter, CarryOut, Settle, SteadyRun, IsLate, Writable;
    LooksLate(cfg, s, p, late, late);
    SteadyOne(cfg, chain, late, s, Examine(p, late, InMempool), CarryOut(s, p, decision, late));
    SettlesNext(cfg, s, p, decision, late, late, chain);
    SteadyOne(cfg, chain, late, CarryOut(s, p, decision, late), SettleReservation(p, late), GivenUp(s, p, message, reason, late));
  }

  lemma LooksAgain(cfg: Config, s: State, q: nat, late: Instant) returns (decision: Decision)
    requires q in s.passes && !MidOperation(s.passes[q]) && s.passes[q].next < |s.passes[q].listed|
    requires var op := Current(s.passes[q]); op.Pending() && Writable(op, s.passes[q].live) && IsLate(cfg, op, late)
    ensures decision != Noop && (Confirmable(Current(s.passes[q])) ==> decision == Confirm)
    ensures var t := CarryOut(s, q, decision, late + 1);
            && q in t.passes && MidOperation(t.passes[q]) && t.passes[q].next < |t.passes[q].listed|
            && SteadyRun(cfg, SeenAfter(late), late, s, [Examine(q, late + 1, OnChain)], t)
            && SteadyRun(cfg, SeenAfter(late), late + 1, t, [SettleReservation(q, late + 1)], Settle(t, q, late + 1))
  {
    var chain := SeenAfter(late);
    decision := Decide(cfg, Current(s.passes[q]), late + 1, OnChain);
    LateVerdicts(cfg, Current(s.passes[q]), late);
    hide Decide, Apply, Disciplined, AnsweredBy, SeenAfter, CarryOut, Settle, SteadyRun, IsLate, Writable;
    LooksLate(cfg, s, q, late + 1, late);
    var t := CarryOut(s, q, decision, late + 1);
    SteadyOne(cfg, chain, late, s, Examine(q, late + 1, OnChain), t);
    SettlesNext(cfg, s, q, decision, late + 1, late + 1, chain);
    SteadyOne(cfg, chain, late + 1, t, SettleReservation(q, late + 1), Settle(t, q, late + 1));
  }

  /** What two passes write that disagree about an operation. */
  datatype Disagreement = Disagreement(failed: State, released: State, rewritten: State, settled: State)

  ghost predicate Disagrees(cfg: Config, s: State, p: nat, q: nat, late: Instant, d: Disagreement) {
    && Together(s, p, q)
    && var id := Current(s.passes[p]).operationId;
       && SteadyRun(cfg, SeenAfter(late), late, s, [Examine(p, late, InMempool)], d.failed)
       && SteadyRun(cfg, SeenAfter(late), late, d.failed, [SettleReservation(p, late)], d.released)
       && SteadyRun(cfg, SeenAfter(late), late, d.released, [Examine(q, late + 1, OnChain)], d.rewritten)
       && SteadyRun(cfg, SeenAfter(late), late + 1, d.rewritten, [SettleReservation(q, late + 1)], d.settled)
       && id in d.failed.store.transfers && d.failed.store.transfers[id].Terminal()
       && id in d.rewritten.store.transfers && d.rewritten.store.transfers[id] != d.failed.store.transfers[id]
       && (Confirmable(Current(s.passes[p])) ==> !AllCovered(d.rewritten.store) && d.settled.revived != [])
  }

  /** One pass gives the operation up while it waits, the other looks a moment later. */
  lemma Disagree(cfg: Config, s: State, p: nat, q: nat, late: Instant) returns (d: Disagreement)
    requires Sound(s) && Together(s, p, q) && IsLate(cfg, Current(s.passes[p]), late)
    requires Writable(Current(s.passes[p]), s.passes[p].live) && Writable(Current(s.passes[p]), s.passes[q].live)
    ensures Disagrees(cfg, s, p, q, late, d)
  {
    CurrentPendingNow(s, p);
    hide Sound, SeenAfter, CarryOut, Settle, SteadyRun, IsLate, Writable, AllCovered, Confirmable, GivenUp;
    var message, reason := GivesUp(cfg, s, p, late);
    FailedRow(s, p, message, reason, late);
    OtherPassStays(s, p, q, message, reason, late);
    var released := GivenUp(s, p, message, reason, late);
    var decision := LooksAgain(cfg, released, q, late);
    RewrittenRow(released, q, decision, late + 1);
    var rewritten := CarryOut(released, q, decision, late + 1);
    if Confirmable(Current(s.passes[p])) { ConfirmsGivenUp(s, p, q, message, reason, late, late + 1); }
    d := Disagreement(CarryOut(s, p, Fail(message, reason), late), released, rewritten, Settle(rewritten, q, late + 1));
  }

  lemma ListedOnce(s: State, p: nat)
    requires InStep(s) && p in s.passes
    ensures Distinct(s.passes[p].listed)
  {
    assert ListIsFresh(s, s.passes[p]);
    hide Sound;
  }

  lemma BegunIsSound(s: State, q: nat, limit: nat, listed: seq<TransferOperation>)
    requires InStep(s) && Enabled(s, BeginPass(q, limit, listed))
    ensures Sound(Begun(s, q, listed)) && q !in s.passes && Distinct(listed)
    ensures forall j | 0 <= j < |listed| :: listed[j].operationId in s.store.transfers && listed[j].Pending()
  {
    SoundBegin(s, q, limit, listed);
    hide InStep, Sound;
    forall j | 0 <= j < |listed| ensures listed[j].operationId in s.store.transfers && listed[j].Pending() {
      assert IsPendingRow(s.store.transfers, listed[j]);
    }
  }

  lemma RowChanged(s: Store, t: Store, id: Id)
    requires id in s.transfers && s.transfers[id].Terminal() && id in t.transfers && t.transfers[id] != s.transfers[id]
    ensures !KeepsFinished(s, t)
  {
  }

  /** What becomes of a shared operation: `a` leads to an outcome, `b` to another in its place, and
      `c` settles that one's reservation. */
  ghost predicate GoesWrong(cfg: Config, u: State, op: TransferOperation, now: Instant, late: Instant,
                            a: seq<Event>, b: seq<Event>, c: seq<Event>, d: Disagreement) {
    && SteadyRun(cfg, SeenAfter(late), now, u, a, d.failed)
    && SteadyRun(cfg, SeenAfter(late), ClockAfter(a, now), d.failed, b, d.rewritten)
    && SteadyRun(cfg, SeenAfter(late), now, u, a + b, d.rewritten)
    && SteadyRun(cfg, SeenAfter(late), now, u, a + b + c, d.settled)
    && !KeepsFinished(d.failed.store, d.rewritten.store)
    && (Confirmable(op) ==> !AllCovered(d.rewritten.store) && d.settled.revived != [])
  }

  lemma JoinsUp(cfg: Config, u: State, m: State, p: nat, q: nat, now: Instant, late: Instant, before: seq<Event>, d: Disagreement)
    returns (a: seq<Event>, b: seq<Event>, c: seq<Event>)
    requires SteadyRun(cfg, SeenAfter(late), now, u, before, m) && ClockAfter(before, now) == now <= late
    requires Disagrees(cfg, m, p, q, late, d)
    ensures GoesWrong(cfg, u, Current(m.passes[p]), now, late, a, b, c, d)
  {
    var chain, first := SeenAfter(late), [Examine(p, late, InMempool)];
    SteadyFrom(cfg, chain, now, late, m, first, d.failed);
    hide SteadyRun, SeenAfter, AllCovered, Confirmable;
    SteadyConcat(cfg, chain, now, u, before, m, first, d.failed);
    a, b, c := before + first, [SettleReservation(p, late)] + [Examine(q, late + 1, OnChain)], [SettleReservation(q, late + 1)];
    SteadyConcat(cfg, chain, late, d.failed, [SettleReservation(p, late)], d.released, [Examine(q, late + 1, OnChain)], d.rewritten);
    SteadyConcat(cfg, chain, now, u, a, d.failed, b, d.rewritten);
    SteadyConcat(cfg, chain, now, u, a + b, d.rewritten, c, d.settled);
    RowChanged(d.failed.store, d.rewritten.store, Current(m.passes[p]).operationId);
  }

  /** A first reading at `late` is one from any earlier instant on. */
  lemma SteadyFrom(cfg: Config, chain: History, now: Instant, late: Instant, s: State, events: seq<Event>, t: State)
    requires |events| == 1 && events[0].Examine? && events[0].now == late && now <= late
    requires SteadyRun(cfg, chain, late, s, events, t)
    ensures SteadyRun(cfg, chain, now, s, events, t)
  {
    hide Apply, Enabled, Disciplined, AnsweredBy;
  }

  /** Where the two passes are to meet. */
  lemma MeetingPlace(cfg: Config, s: State, q: nat, limit: nat, listed: seq<TransferOperation>, p: nat, i: nat, j: nat, now: Instant)
    requires InStep(s) && Enabled(s, BeginPass(q, limit, listed)) && SharedAt(s, listed, p, i, j)
    requires Writable(s.passes[p].listed[i], s.passes[p].live) && BothReach(cfg, s, listed, p, i, j, now)
    ensures var u := Begun(s, q, listed);
            && Sound(u) && p in u.passes && q in u.passes && p != q && u.passes[p] == s.passes[p] && u.passes[q] == NewPass(s, listed)
            && Distinct(u.passes[p].listed) && Distinct(u.passes[q].listed)
            && Reaches(cfg, u.passes[p], i, now) && Reaches(cfg, u.passes[q], j, now)
            && i < |u.passes[p].listed| && j < |u.passes[q].listed| && u.passes[p].listed[i] == u.passes[q].listed[j]
            && u.passes[p].listed[i].operationId in u.store.transfers
            && Writable(u.passes[p].listed[i], u.passes[p].live) && Writable(u.passes[p].listed[i], u.passes[q].live)
  {
    SharedIsStored(s, limit, listed, p, i, j);
    ListedOnce(s, p);
    BegunIsSound(s, q, limit, listed);
    hide InStep, ListedByStatuses, Sound, Reaches, Writable, Distinct;
  }

  /** Two passes that both get to a shared operation disagree about it. */
  lemma MeetAndDisagree(cfg: Config, s: State, q: nat, limit: nat, listed: seq<TransferOperation>, p: nat, i: nat, j: nat, now: Instant)
    returns (late: Instant, a: seq<Event>, b: seq<Event>, c: seq<Event>, d: Disagreement)
    requires InStep(s) && Enabled(s, BeginPass(q, limit, listed)) && SharedAt(s, listed, p, i, j)
    requires Writable(s.passes[p].listed[i], s.passes[p].live) && BothReach(cfg, s, listed, p, i, j, now)
    ensures GoesWrong(cfg, Begun(s, q, listed), s.passes[p].listed[i], now, late, a, b, c, d)
  {
    var op, u := s.passes[p].listed[i], Begun(s, q, listed);
    hide *;
    MeetingPlace(cfg, s, q, limit, listed, p, i, j, now);
    late := LateFor(cfg, op, now);
    var before, m := Meet(cfg, u, p, i, q, j, now, late);
    AreTogether(m, p, q);
    d := Disagree(cfg, m, p, q, late);
    a, b, c := JoinsUp(cfg, u, m, p, q, now, late, before, d);
  }

  lemma AreTogether(s: State, p: nat, q: nat)
    requires Together(s, p, q)
    ensures p in s.passes && q in s.passes && s.passes[p].next < |s.passes[p].listed| && s.passes[q].next < |s.passes[q].listed|
    ensures Current(s.passes[p]) == Current(s.passes[q])
  {
  }

  /** Early enough, nothing stops a pass. */
  function EarlyFor(cfg: Config, listed: seq<TransferOperation>): (early: Instant)
    ensures forall op | op in listed :: early - op.updatedAt <= cfg.reservedTimeout
  {
    if listed == [] then 0
    else
      var rest := EarlyFor(cfg, listed[1..]);
      var own := listed[0].updatedAt + cfg.reservedTimeout;
      assert listed == [listed[0]] + listed[1..];
      if own < rest then own else rest
  }

  lemma EarlyReaches(cfg: Config, s: State, listed: seq<TransferOperation>, p: nat, i: nat, j: nat) returns (now: Instant)
    requires SharedAt(s, listed, p, i, j)
    ensures BothReach(cfg, s, listed, p, i, j, now)
  {
    now := EarlyFor(cfg, s.passes[p].listed + listed);
    forall op | op in s.passes[p].listed || op in listed ensures now - op.updatedAt <= cfg.reservedTimeout {
      assert op in s.passes[p].listed + listed;
    }
    hide EarlyFor;
  }

  // ------------------------------------------------------------------------- the results

  lemma MayBegin(cfg: Config, s: State, q: nat, limit: nat, listed: seq<TransferOperation>, events: seq<Event>, t: State)
    requires InStep(s) && Enabled(s, BeginPass(q, limit, listed)) && !SharesConfirmable(s, listed)
    requires DisciplinedRun(cfg, Begun(s, q, listed), events, t)
    ensures AllCovered(t.store) && t.revived == []
  {
    BegunIsUnrevived(s, q, limit, listed);
    hide InStep, Enabled, DisciplinedRun, AllCovered, SharesConfirmable, Guarded, Begun, ConsumptionsGuarded;
    assert Guarded(Begun(s, q, listed));
    UnrevivedRun(cfg, Begun(s, q, listed), events, t);
    GuardedRun(cfg, Begun(s, q, listed), events, t);
  }

  lemma MayBeginFor(cfg: Config, s: State, q: nat, limit: nat, listed: seq<TransferOperation>, a: seq<Event>, m: State, b: seq<Event>, t: State)
    requires InStep(s) && Enabled(s, BeginPass(q, limit, listed)) && !SharesWritable(s, listed)
    requires DisciplinedRun(cfg, Begun(s, q, listed), a, m) && DisciplinedRun(cfg, m, b, t)
    ensures KeepsFinished(m.store, t.store)
  {
    hide InStep, Enabled, DisciplinedRun, SharesWritable, Exclusive, Begun, KeepsFinished;
    BegunIsExclusive(s, q, limit, listed);
    ExclusiveRun(cfg, Begun(s, q, listed), a, m);
    ExclusiveRun(cfg, m, b, t);
  }

  /** The overlap with every list cut where its pass will stop. */
  lemma BeginsCut(cfg: Config, s: State, q: nat, limit: nat, listed: seq<TransferOperation>, now: Instant)
    requires InStep(s) && Enabled(s, BeginPass(q, limit, listed))
    ensures var c, short := CutState(cfg, s, now), CutList(cfg, s, listed, now);
            && InStep(c) && Enabled(c, BeginPass(q, |short|, short))
            && CutsShort(cfg, Begun(s, q, listed), Begun(c, q, short), now)
            && (SharesConfirmable(c, short) ==> MeetsConfirmable(cfg, s, listed, now))
            && (SharesWritable(c, short) ==> MeetsWritable(cfg, s, listed, now))
  {
    BegunIsSound(s, q, limit, listed);
    hide *;
    InStepIsSound(s);
    CutStateInStep(cfg, s, now);
    CutMayBegin(cfg, s, q, limit, listed, now);
    BegunIsCut(cfg, s, q, listed, now);
    if SharesConfirmable(CutState(cfg, s, now), CutList(cfg, s, listed, now)) { CutSharesConfirmable(cfg, s, listed, now); }
    if SharesWritable(CutState(cfg, s, now), CutList(cfg, s, listed, now)) { CutSharesWritable(cfg, s, listed, now); }
  }

  lemma SteadyMayBegin(cfg: Config, s: State, q: nat, limit: nat, listed: seq<TransferOperation>, now: Instant,
                       chain: History, events: seq<Event>, t: State)
    requires InStep(s) && Enabled(s, BeginPass(q, limit, listed)) && !MeetsConfirmable(cfg, s, listed, now)
    requires SteadyRun(cfg, chain, now, Begun(s, q, listed), events, t)
    ensures AllCovered(t.store) && t.revived == []
  {
    hide *;
    var c, short := CutState(cfg, s, now), CutList(cfg, s, listed, now);
    BeginsCut(cfg, s, q, limit, listed, now);
    var v := CutRun(cfg, chain, now, Begun(s, q, listed), events, t, Begun(c, q, short), now);
    CutKeepsAll(cfg, t, v, now);
    MayBegin(cfg, c, q, |short|, short, events, v);
  }

  lemma SteadyMayBeginFor(cfg: Config, s: State, q: nat, limit: nat, listed: seq<TransferOperation>, now: Instant,
                          chain: History, a: seq<Event>, m: State, b: seq<Event>, t: State)
    requires InStep(s) && Enabled(s, BeginPass(q, limit, listed)) && !MeetsWritable(cfg, s, listed, now)
    requires SteadyRun(cfg, chain, now, Begun(s, q, listed), a, m) && SteadyRun(cfg, chain, ClockAfter(a, now), m, b, t)
    ensures KeepsFinished(m.store, t.store)
  {
    hide *;
    var c, short := CutState(cfg, s, now), CutList(cfg, s, listed, now);
    BeginsCut(cfg, s, q, limit, listed, now);
    var m', t': State;
    m' := CutRun(cfg, chain, now, Begun(s, q, listed), a, m, Begun(c, q, short), now);
    t' := CutRun(cfg, chain, ClockAfter(a, now), m, b, t, m', now);
    CutKeepsAll(cfg, m, m', now);
    CutKeepsAll(cfg, t, t', now);
    MayBeginFor(cfg, c, q, |short|, short, a, m', b, t');
  }

  lemma ConfirmableGoesWrong(cfg: Config, s: State, q: nat, limit: nat, listed: seq<TransferOperation>, now: Instant)
    returns (chain: History, a: seq<Event>, t: State, b: seq<Event>, u: State)
    requires InStep(s) && Enabled(s, BeginPass(q, limit, listed)) && MeetsConfirmable(cfg, s, listed, now)
    ensures KeepsVerdicts(chain)
    ensures SteadyRun(cfg, chain, now, Begun(s, q, listed), a, t) && !AllCovered(t.store)
    ensures SteadyRun(cfg, chain, now, Begun(s, q, listed), b, u) && u.revived != []
  {
    var p: nat, i: nat, j: nat :| SharedAt(s, listed, p, i, j) && Confirmable(s.passes[p].listed[i]) && BothReach(cfg, s, listed, p, i, j, now);
    hide InStep, Enabled, SteadyRun, SeenAfter, MeetsConfirmable, Begun, KeepsFinished, AllCovered, BothReach, ClockAfter, KeepsVerdicts;
    var late, x, y, z, d := MeetAndDisagree(cfg, s, q, limit, listed, p, i, j, now);
    chain, a, t, b, u := SeenAfter(late), x + y, d.rewritten, x + y + z, d.settled;
    SeenAfterKeepsVerdicts(late);
  }

  lemma WritableGoesWrong(cfg: Config, s: State, q: nat, limit: nat, listed: seq<TransferOperation>, now: Instant)
    returns (chain: History, a: seq<Event>, m: State, b: seq<Event>, t: State)
    requires InStep(s) && Enabled(s, BeginPass(q, limit, listed)) && MeetsWritable(cfg, s, listed, now)
    ensures KeepsVerdicts(chain)
    ensures SteadyRun(cfg, chain, now, Begun(s, q, listed), a, m) && SteadyRun(cfg, chain, ClockAfter(a, now), m, b, t)
    ensures !KeepsFinished(m.store, t.store)
  {
    var p: nat, i: nat, j: nat :| SharedAt(s, listed, p, i, j) && Writable(s.passes[p].listed[i], s.passes[p].live)
                                  && BothReach(cfg, s, listed, p, i, j, now);
    hide InStep, Enabled, SteadyRun, SeenAfter, MeetsWritable, Begun, KeepsFinished, AllCovered, BothReach, ClockAfter, KeepsVerdicts;
    var late, x, y, z, d := MeetAndDisagree(cfg, s, q, limit, listed, p, i, j, now);
    chain, a, m, b, t := SeenAfter(late), x, d.failed, y, d.rewritten;
    SeenAfterKeepsVerdicts(late);
  }

  /** A second pass may begin beside a running one exactly when the two share no AGENT operation
      that is SUBMITTED with a hash. Then, and only then, all otherwise disciplined continuations
      keep every outgoing operation covered; and then, and only then, none revives a released
      reservation. */
  lemma OverlapIsSafeIffNothingShared(cfg: Config, s: State, q: nat, limit: nat, listed: seq<TransferOperation>)
    requires InStep(s) && Enabled(s, BeginPass(q, limit, listed))
    ensures Begun(s, q, listed) == Apply(cfg, s, BeginPass(q, limit, listed))
    ensures (forall events, t | DisciplinedRun(cfg, Begun(s, q, listed), events, t) :: AllCovered(t.store))
            <==> !SharesConfirmable(s, listed)
    ensures (forall events, t | DisciplinedRun(cfg, Begun(s, q, listed), events, t) :: t.revived == [])
            <==> !SharesConfirmable(s, listed)
  {
    hide InStep, DisciplinedRun, AllCovered, ListedByStatuses, SteadyRun, KeepsVerdicts;
    if SharesConfirmable(s, listed) {
      var p: nat, i: nat, j: nat :| SharedAt(s, listed, p, i, j) && Confirmable(s.passes[p].listed[i]);
      var now := EarlyReaches(cfg, s, listed, p, i, j);
      assert MeetsConfirmable(cfg, s, listed, now);
      hide Begun;
      var chain, a, t, b, u := ConfirmableGoesWrong(cfg, s, q, limit, listed, now);
      SteadyIsDisciplined(cfg, chain, now, Begun(s, q, listed), a, t);
      SteadyIsDisciplined(cfg, chain, now, Begun(s, q, listed), b, u);
    } else {
      forall events, t | DisciplinedRun(cfg, Begun(s, q, listed), events, t) ensures AllCovered(t.store) && t.revived == [] {
        MayBegin(cfg, s, q, limit, listed, events, t);
      }
    }
  }

  /** And exactly when they share no operation that both may write, of whatever actor, an outcome
      that is stored at any point of any otherwise disciplined continuation is there to stay. */
  lemma OverlapIsFinalIffNothingShared(cfg: Config, s: State, q: nat, limit: nat, listed: seq<TransferOperation>)
    requires InStep(s) && Enabled(s, BeginPass(q, limit, listed))
    ensures (forall a, m, b, t | DisciplinedRun(cfg, Begun(s, q, listed), a, m) && DisciplinedRun(cfg, m, b, t) ::
               KeepsFinished(m.store, t.store))
            <==> !SharesWritable(s, listed)
  {
    hide InStep, DisciplinedRun, KeepsFinished, ListedByStatuses, SteadyRun, KeepsVerdicts, Begun;
    if SharesWritable(s, listed) {
      var p: nat, i: nat, j: nat :| SharedAt(s, listed, p, i, j) && Writable(s.passes[p].listed[i], s.passes[p].live);
      var now := EarlyReaches(cfg, s, listed, p, i, j);
      assert MeetsWritable(cfg, s, listed, now);
      var chain, a, m, b, t := WritableGoesWrong(cfg, s, q, limit, listed, now);
      SteadyIsDisciplined(cfg, chain, now, Begun(s, q, listed), a, m);
      SteadyIsDisciplined(cfg, chain, ClockAfter(a, now), m, b, t);
    } else {
      forall a, m, b, t | DisciplinedRun(cfg, Begun(s, q, listed), a, m) && DisciplinedRun(cfg, m, b, t)
        ensures KeepsFinished(m.store, t.store)
      {
        MayBeginFor(cfg, s, q, limit, listed, a, m, b, t);
      }
    }
  }

  /** The same from an instant on, with a clock that does not go back and a chain that keeps its
      verdicts: only what neither pass is stopped from getting to is shared in earnest. */
  lemma SteadyOverlapIsSafeIffNeverMet(cfg: Config, s: State, q: nat, limit: nat, listed: seq<TransferOperation>, now: Instant)
    requires InStep(s) && Enabled(s, BeginPass(q, limit, listed))
    ensures (forall chain, events, t | KeepsVerdicts(chain) && SteadyRun(cfg, chain, now, Begun(s, q, listed), events, t) ::
               AllCovered(t.store))
            <==> !MeetsConfirmable(cfg, s, listed, now)
    ensures (forall chain, events, t | KeepsVerdicts(chain) && SteadyRun(cfg, chain, now, Begun(s, q, listed), events, t) ::
               t.revived == [])
            <==> !MeetsConfirmable(cfg, s, listed, now)
  {
    hide InStep, Enabled, AllCovered, MeetsConfirmable, SteadyRun, KeepsVerdicts, Begun;
    if MeetsConfirmable(cfg, s, listed, now) {
      var chain, a, t, b, u := ConfirmableGoesWrong(cfg, s, q, limit, listed, now);
    } else {
      forall chain, events, t | KeepsVerdicts(chain) && SteadyRun(cfg, chain, now, Begun(s, q, listed), events, t)
        ensures AllCovered(t.store) && t.revived == []
      {
        SteadyMayBegin(cfg, s, q, limit, listed, now, chain, events, t);
      }
    }
  }

  lemma SteadyOverlapIsFinalIffNeverMet(cfg: Config, s: State, q: nat, limit: nat, listed: seq<TransferOperation>, now: Instant)
    requires InStep(s) && Enabled(s, BeginPass(q, limit, listed))
    ensures (forall chain, a, m, b, t | KeepsVerdicts(chain) && SteadyRun(cfg, chain, now, Begun(s, q, listed), a, m)
                                        && SteadyRun(cfg, chain, ClockAfter(a, now), m, b, t) ::
               KeepsFinished(m.store, t.store))
            <==> !MeetsWritable(cfg, s, listed, now)
  {
    hide InStep, Enabled, KeepsFinished, MeetsWritable, SteadyRun, KeepsVerdicts, Begun, ClockAfter;
    if MeetsWritable(cfg, s, listed, now) {
      var chain, a, m, b, t := WritableGoesWrong(cfg, s, q, limit, listed, now);
    } else {
      forall chain, a, m, b, t | KeepsVerdicts(chain) && SteadyRun(cfg, chain, now, Begun(s, q, listed), a, m)
                                 && SteadyRun(cfg, chain, ClockAfter(a, now), m, b, t)
        ensures KeepsFinished(m.store, t.store)
      {
        SteadyMayBeginFor(cfg, s, q, limit, listed, now, chain, a, m, b, t);
      }
    }
  }

  /** With nothing shared a second pass cannot take usage above a limit that stands. */
  lemma OverlapKeepsLimit(cfg: Config, s: State, q: nat, limit: nat, listed: seq<TransferOperation>, events: seq<Event>, t: State,
                          key: LimitKey, window: LimitWindow, start: Instant)
    requires InStep(s) && Enabled(s, BeginPass(q, limit, listed)) && !SharesConfirmable(s, listed)
    requires DisciplinedRun(cfg, Begun(s, q, listed), events, t)
    requires LimitStandsThroughout(cfg, Begun(s, q, listed), events, key, window) && LimitIn(t, key, window).Some?
    requires LimitIn(s, key, window).Some? ==> Used(s.store.reservations, key, window, start) <= LimitIn(s, key, window).value
    ensures Used(t.store.reservations, key, window, start) <= LimitIn(t, key, window).value
  {
    MayBegin(cfg, s, q, limit, listed, events, t);
    BegunIsSound(s, q, limit, listed);
    assert s.revived == [];
    hide InStep, Sound, ListedByStatuses, DisciplinedRun, LimitStandsThroughout, Used, SharesConfirmable, AllCovered;
    DisciplinedIsRun(cfg, Begun(s, q, listed), events, t);
    LimitBoundOverRuns(cfg, Begun(s, q, listed), events, t, key, window, start);
  }
}
