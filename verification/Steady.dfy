/** Runs under a clock that never goes back and a chain that keeps its verdicts, and how far a pass
    gets in one: not past a RESERVED operation that is overdue and whose call was running when the
    pass listed it. */
module Steady {
  import opened Domain
  import opened Tables
  import opened Protocol
  import opened Interleavings
  import opened Discipline
  import opened Guards

  /** What a chain answers about a transaction hash at every instant. */
  type History = (ChainKind, string, Instant) -> ChainAnswer

  predicate IsVerdict(answer: ChainAnswer) {
    answer.OnChain? || answer.Rejected?
  }

  ghost predicate KeepsVerdicts(chain: History) {
    forall kind, txHash, earlier, later | earlier <= later && IsVerdict(chain(kind, txHash, earlier)) ::
      chain(kind, txHash, later) == chain(kind, txHash, earlier)
  }

  /** The event reads the clock no earlier than at the instant given. An admission reads its windows
      first and stamps its row later. */
  predicate InTime(e: Event, clock: Instant) {
    clock <= After(e, clock) && (e.Admit? ==> e.now <= e.written)
  }

  /** The reading of the event, if it has one. */
  function After(e: Event, clock: Instant): Instant {
    match e
    case StartTransfer(_, _, _, _, _, now) => now
    case Admit(_, _, written) => written
    case SaveSubmitted(_, now) => now
    case Compensate(_, now) => now
    case SaveFailed(_, now) => now
    case Examine(_, now, _) => now
    case SettleReservation(_, now) => now
    case ChangePolicy(_, _, _, now) => now
    case _ => clock
  }

  /** A pass that looks a transaction up is told what the chain's history says. */
  predicate AnsweredBy(chain: History, s: State, e: Event) {
    e.Examine? && e.pass in s.passes && s.passes[e.pass].next < |s.passes[e.pass].listed| ==>
      var op := Current(s.passes[e.pass]);
      op.status == SUBMITTED && op.txHash.GetOr("") != "" ==> e.answer == chain(op.key.chain, op.txHash.GetOr(""), e.now)
  }

  /** A disciplined run from the instant `clock` on. */
  ghost predicate SteadyRun(cfg: Config, chain: History, clock: Instant, s: State, events: seq<Event>, t: State)
    decreases |events|
  {
    if events == [] then s == t
    else
      && Enabled(s, events[0]) && Disciplined(cfg, s, events[0])
      && InTime(events[0], clock) && AnsweredBy(chain, s, events[0])
      && SteadyRun(cfg, chain, After(events[0], clock), Apply(cfg, s, events[0]), events[1..], t)
  }

  /** The clock at the end of a run. */
  function ClockAfter(events: seq<Event>, clock: Instant): Instant
    decreases |events|
  {
    if events == [] then clock else ClockAfter(events[1..], After(events[0], clock))
  }

  lemma {:induction false} SteadyIsDisciplined(cfg: Config, chain: History, clock: Instant, s: State, events: seq<Event>, t: State)
    requires SteadyRun(cfg, chain, clock, s, events, t)
    ensures DisciplinedRun(cfg, s, events, t)
    decreases |events|
  {
    hide Apply, Enabled, Disciplined, InTime, After, AnsweredBy;
    if events != [] {
      SteadyIsDisciplined(cfg, chain, After(events[0], clock), Apply(cfg, s, events[0]), events[1..], t);
    }
  }

  lemma SteadyFirst(cfg: Config, chain: History, clock: Instant, s: State, e: Event, rest: seq<Event>, t: State)
    requires Enabled(s, e) && Disciplined(cfg, s, e) && InTime(e, clock) && AnsweredBy(chain, s, e)
    requires SteadyRun(cfg, chain, After(e, clock), Apply(cfg, s, e), rest, t)
    ensures SteadyRun(cfg, chain, clock, s, [e] + rest, t)
    ensures ClockAfter([e] + rest, clock) == ClockAfter(rest, After(e, clock))
  {
    hide Apply, Enabled, Disciplined, InTime, After, AnsweredBy;
    assert ([e] + rest)[1..] == rest;
  }

  lemma SteadyNothing(cfg: Config, chain: History, clock: Instant, s: State)
    ensures SteadyRun(cfg, chain, clock, s, [], s) && ClockAfter([], clock) == clock
  {
  }

  lemma {:induction false} SteadyConcat(cfg: Config, chain: History, clock: Instant, s: State, a: seq<Event>, m: State, b: seq<Event>, t: State)
    requires SteadyRun(cfg, chain, clock, s, a, m) && SteadyRun(cfg, chain, ClockAfter(a, clock), m, b, t)
    ensures SteadyRun(cfg, chain, clock, s, a + b, t) && ClockAfter(a + b, clock) == ClockAfter(b, ClockAfter(a, clock))
    decreases |a|
  {
    hide Apply, Enabled, Disciplined, InTime, After, AnsweredBy;
    if a == [] {
      assert a + b == b;
    } else {
      assert (a + b)[0] == a[0] && (a + b)[1..] == a[1..] + b;
      SteadyConcat(cfg, chain, After(a[0], clock), Apply(cfg, s, a[0]), a[1..], m, b, t);
    }
  }

  // ----------------------------------------------------------------- what stops a pass

  /** From this instant on no disciplined pass gets past the copy: it would time out an operation
      whose call was running when it was listed. */
  predicate Blocked(cfg: Config, op: TransferOperation, live: set<Id>, now: Instant) {
    op.status == RESERVED && op.operationId in live && now - op.updatedAt > cfg.reservedTimeout
  }

  /** The pass can still get to this place of its list. */
  predicate Reaches(cfg: Config, pass: Pass, k: nat, now: Instant) {
    && FirstLeft(pass) <= k < |pass.listed|
    && forall j | FirstLeft(pass) <= j < k :: !Blocked(cfg, pass.listed[j], pass.live, now)
  }

  /** How much of its list a pass can still get to. */
  function Horizon(cfg: Config, listed: seq<TransferOperation>, live: set<Id>, from: nat, now: Instant): (k: nat)
    requires from <= |listed|
    ensures from <= k <= |listed| && (forall j | from <= j < k :: !Blocked(cfg, listed[j], live, now))
    ensures k < |listed| ==> Blocked(cfg, listed[k], live, now)
    decreases |listed| - from
  {
    if from == |listed| || Blocked(cfg, listed[from], live, now) then from
    else Horizon(cfg, listed, live, from + 1, now)
  }

  function Cut(cfg: Config, pass: Pass, now: Instant): Pass {
    if FirstLeft(pass) > |pass.listed| then pass
    else pass.(listed := pass.listed[..Horizon(cfg, pass.listed, pass.live, FirstLeft(pass), now)])
  }

  /** The state with every list cut where its pass will stop. */
  function CutState(cfg: Config, s: State, now: Instant): State {
    s.(passes := map p | p in s.passes :: Cut(cfg, s.passes[p], now))
  }

  predicate CutShort(cfg: Config, a: Pass, b: Pass, now: Instant) {
    && b == a.(listed := b.listed) && b.listed <= a.listed && FirstLeft(b) <= |b.listed|
    && (|b.listed| < |a.listed| ==> Blocked(cfg, a.listed[|b.listed|], a.live, now))
  }

  ghost predicate CutsShort(cfg: Config, s: State, t: State, now: Instant) {
    && t == s.(passes := t.passes) && t.passes.Keys == s.passes.Keys
    && forall p | p in s.passes :: CutShort(cfg, s.passes[p], t.passes[p], now)
  }

  /** A pass that can move can move in its cut list, and does the same. */
  lemma CutExamine(cfg: Config, s: State, t: State, p: nat, clock: Instant, answer: ChainAnswer, now: Instant)
    requires CutsShort(cfg, s, t, now) && now <= clock
    requires Enabled(s, Examine(p, clock, answer)) && Disciplined(cfg, s, Examine(p, clock, answer))
    ensures Enabled(t, Examine(p, clock, answer)) && Disciplined(cfg, t, Examine(p, clock, answer))
    ensures Current(t.passes[p]) == Current(s.passes[p]) && s.passes[p].next < |t.passes[p].listed|
  {
    assert CutShort(cfg, s.passes[p], t.passes[p], now);
  }

  lemma CutCarryOut(cfg: Config, s: State, t: State, p: nat, decision: Decision, clock: Instant, now: Instant)
    requires CutsShort(cfg, s, t, now)
    requires p in s.passes && !MidOperation(s.passes[p]) && s.passes[p].next < |t.passes[p].listed|
    ensures s.passes[p].next < |s.passes[p].listed| && t.passes[p].next < |t.passes[p].listed|
    ensures CutsShort(cfg, CarryOut(s, p, decision, clock), CarryOut(t, p, decision, clock), now)
  {
    assert CutShort(cfg, s.passes[p], t.passes[p], now);
    hide CommitConfirmed, CommitFailed, Blocked;
  }

  lemma CutSettle(cfg: Config, s: State, t: State, p: nat, clock: Instant, now: Instant)
    requires CutsShort(cfg, s, t, now)
    requires p in s.passes && MidOperation(s.passes[p]) && s.passes[p].next < |s.passes[p].listed|
    ensures p in t.passes && t.passes[p].next < |t.passes[p].listed| && MidOperation(t.passes[p])
    ensures CutsShort(cfg, Settle(s, p, clock), Settle(t, p, clock), now)
  {
    assert CutShort(cfg, s.passes[p], t.passes[p], now);
    hide ConsumeReservation, ReleaseReservation, Blocked;
  }

  /** Calls do not look at passes. */
  lemma CutElsewhere(cfg: Config, s: State, t: State, e: Event, now: Instant)
    requires CutsShort(cfg, s, t, now) && Enabled(s, e)
    requires !e.BeginPass? && !e.Examine? && !e.SettleReservation? && !e.EndPass? && !e.StopPass? && !e.Crash?
    ensures Enabled(t, e) && CutsShort(cfg, Apply(cfg, s, e), Apply(cfg, t, e), now)
  {
    hide CutShort, Verdict, Catch, NextPolicy, TransferAction, Reservation, ReleaseReservation, CommitTransfer;
  }

  lemma CutStopped(cfg: Config, s: State, t: State, now: Instant)
    requires CutsShort(cfg, s, t, now)
    ensures forall p | p in s.passes :: Stopped(t.passes[p]) == Stopped(s.passes[p])
    ensures StoppedByCrash(t.passes) == StoppedByCrash(s.passes)
  {
    forall p | p in s.passes ensures Stopped(t.passes[p]) == Stopped(s.passes[p]) {
      assert CutShort(cfg, s.passes[p], t.passes[p], now);
    }
    hide CutShort, Stopped;
  }

  lemma CutEnds(cfg: Config, s: State, t: State, e: Event, now: Instant)
    requires CutsShort(cfg, s, t, now) && Enabled(s, e) && (e.EndPass? || e.StopPass? || e.Crash?)
    ensures Enabled(t, e) && CutsShort(cfg, Apply(cfg, s, e), Apply(cfg, t, e), now)
  {
    CutStopped(cfg, s, t, now);
    if e.EndPass? { assert CutShort(cfg, s.passes[e.pass], t.passes[e.pass], now); }
    hide Blocked, StoppedByCrash, Stopped;
  }

  lemma CutBegins(cfg: Config, s: State, t: State, e: Event, now: Instant)
    requires CutsShort(cfg, s, t, now) && Enabled(s, e) && Disciplined(cfg, s, e) && e.BeginPass?
    ensures Enabled(t, e) && Disciplined(cfg, t, e) && CutsShort(cfg, Apply(cfg, s, e), Apply(cfg, t, e), now)
  {
    assert t == s;
    hide ListedByStatuses;
  }

  lemma CutStep(cfg: Config, s: State, t: State, e: Event, clock: Instant, now: Instant)
    requires CutsShort(cfg, s, t, now) && now <= clock && Enabled(s, e) && Disciplined(cfg, s, e) && InTime(e, clock)
    ensures Enabled(t, e) && Disciplined(cfg, t, e) && CutsShort(cfg, Apply(cfg, s, e), Apply(cfg, t, e), now)
  {
    hide CutsShort, CarryOut, Settle, Decide;
    if e.BeginPass? {
      CutBegins(cfg, s, t, e, now);
    } else if e.Examine? {
      CutExamine(cfg, s, t, e.pass, e.now, e.answer, now);
      CutCarryOut(cfg, s, t, e.pass, Decide(cfg, Current(s.passes[e.pass]), e.now, e.answer), e.now, now);
    } else if e.SettleReservation? {
      CutSettle(cfg, s, t, e.pass, e.now, now);
    } else if e.EndPass? || e.StopPass? || e.Crash? {
      CutEnds(cfg, s, t, e, now);
    } else {
      CutElsewhere(cfg, s, t, e, now);
      assert Disciplined(cfg, t, e);
    }
  }

  /** A steady run does the same when every list is cut where its pass will stop. */
  lemma {:induction false} CutRun(cfg: Config, chain: History, clock: Instant, s: State, events: seq<Event>, t: State, u: State, now: Instant)
    returns (v: State)
    requires SteadyRun(cfg, chain, clock, s, events, t) && CutsShort(cfg, s, u, now) && now <= clock
    ensures DisciplinedRun(cfg, u, events, v) && CutsShort(cfg, t, v, now)
    ensures now <= ClockAfter(events, clock)
    decreases |events|
  {
    hide CutsShort, Apply, Enabled, Disciplined, AnsweredBy;
    if events == [] {
      v := u;
    } else {
      CutStep(cfg, s, u, events[0], clock, now);
      v := CutRun(cfg, chain, After(events[0], clock), Apply(cfg, s, events[0]), events[1..], t, Apply(cfg, u, events[0]), now);
    }
  }

  lemma CutKeepsAll(cfg: Config, s: State, t: State, now: Instant)
    requires CutsShort(cfg, s, t, now)
    ensures t.store == s.store && t.revived == s.revived
  {
  }

  // ------------------------------------------------------------- cutting keeps the invariant

  lemma CutIsShort(cfg: Config, pass: Pass, now: Instant)
    requires FirstLeft(pass) <= |pass.listed|
    ensures CutShort(cfg, pass, Cut(cfg, pass, now), now) && FirstLeft(Cut(cfg, pass, now)) == FirstLeft(pass)
  {
  }

  lemma ListsAreLong(s: State)
    requires Sound(s)
    ensures forall p | p in s.passes :: FirstLeft(s.passes[p]) <= |s.passes[p].listed|
  {
    forall p | p in s.passes ensures FirstLeft(s.passes[p]) <= |s.passes[p].listed| {
      assert PassOk(s.store, s.passes[p]);
    }
    hide Sound;
  }

  lemma CutStateCuts(cfg: Config, s: State, now: Instant)
    requires Sound(s)
    ensures CutsShort(cfg, s, CutState(cfg, s, now), now)
  {
    ListsAreLong(s);
    hide Sound, CutShort, Cut;
    forall p | p in s.passes ensures CutShort(cfg, s.passes[p], CutState(cfg, s, now).passes[p], now) {
      CutIsShort(cfg, s.passes[p], now);
    }
  }

  lemma CutIsSound(cfg: Config, s: State, t: State, now: Instant)
    requires Sound(s) && CutsShort(cfg, s, t, now)
    ensures Sound(t)
  {
    forall p | p in t.passes ensures PassOk(t.store, t.passes[p]) {
      assert CutShort(cfg, s.passes[p], t.passes[p], now) && PassOk(s.store, s.passes[p]);
      hide StoreOk, SnapshotOk, Blocked;
    }
    hide StoreOk, PassOk, CutShort, CallOk;
  }

  lemma CutIsInStep(cfg: Config, s: State, t: State, now: Instant)
    requires InStep(s) && CutsShort(cfg, s, t, now)
    ensures InStep(t)
  {
    CutIsSound(cfg, s, t, now);
    CutStopped(cfg, s, t, now);
    hide Sound, Agree, CallAgrees, StoppedByCrash;
    forall p | p in t.passes
      ensures t.passes[p].next <= |t.passes[p].listed| && PassAgrees(t.store, t.passes[p]) && ListIsFresh(t, t.passes[p])
              && NotMidOnCall(t, t.passes[p])
    {
      CutListIsFresh(cfg, s, t, p, now);
    }
    hide CutShort, ListIsFresh, PassAgrees, NotMidOnCall;
  }

  lemma CutListIsFresh(cfg: Config, s: State, t: State, p: nat, now: Instant)
    requires PassesAgree(s) && CutsShort(cfg, s, t, now) && p in t.passes
    ensures t.passes[p].next <= |t.passes[p].listed| && PassAgrees(t.store, t.passes[p]) && ListIsFresh(t, t.passes[p])
            && NotMidOnCall(t, t.passes[p])
  {
    var a, b := s.passes[p], t.passes[p];
    assert CutShort(cfg, a, b, now);
    assert forall j | 0 <= j < |b.listed| :: b.listed[j] == a.listed[j];
    hide Blocked;
    forall j | FirstLeft(b) <= j < |b.listed| ensures SnapshotIsFresh(t, b.listed[j], b.live) {
      assert SnapshotIsFresh(s, a.listed[j], a.live);
    }
  }

  /** What is listed up to some place could have been listed under a smaller limit. */
  lemma CutListing(transfers: map<Id, TransferOperation>, limit: nat, listed: seq<TransferOperation>, k: nat)
    requires ListedByStatuses(transfers, limit, listed) && k <= |listed|
    ensures ListedByStatuses(transfers, k, listed[..k])
  {
    assert forall j | 0 <= j < k :: listed[..k][j] == listed[j];
    forall id | id in transfers && transfers[id].Pending() && transfers[id] !in listed[..k]
      ensures forall j | 0 <= j < k :: listed[..k][j].updatedAt <= transfers[id].updatedAt
    {
      CutIsOlder(transfers, limit, listed, k, id);
    }
    hide IsPendingRow;
  }

  lemma CutIsOlder(transfers: map<Id, TransferOperation>, limit: nat, listed: seq<TransferOperation>, k: nat, id: Id)
    requires ListedByStatuses(transfers, limit, listed) && k <= |listed|
    requires id in transfers && transfers[id].Pending() && transfers[id] !in listed[..k]
    ensures forall j | 0 <= j < k :: listed[j].updatedAt <= transfers[id].updatedAt
  {
    hide IsPendingRow, Distinct;
    assert listed == listed[..k] + listed[k..];
    if transfers[id] in listed[k..] {
      var i :| k <= i < |listed| && listed[i] == transfers[id];
    }
  }
}
