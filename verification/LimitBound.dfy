/** How far usage can get above a limit, over all runs: by the reservations settlement revives
    from RELEASED to CONSUMED and by nothing else. */
module LimitBound {
  import opened Wrappers
  import opened Domain
  import opened LimitWindows
  import opened Usage
  import opened Tables
  import opened Protocol
  import opened Interleavings

  function LimitIn(s: State, key: LimitKey, window: LimitWindow): Option<nat> {
    LimitOf(PolicyOf(s.store.policies, key), window)
  }

  /** The limit is set before and after the step and was not lowered by it. */
  ghost predicate LimitStands(s: State, t: State, key: LimitKey, window: LimitWindow) {
    && LimitIn(s, key, window).Some?
    && LimitIn(t, key, window).Some?
    && LimitIn(s, key, window).value <= LimitIn(t, key, window).value
  }

  ghost predicate LimitStandsThroughout(cfg: Config, s: State, events: seq<Event>, key: LimitKey, window: LimitWindow)
    decreases |events|
  {
    events != [] && Enabled(s, events[0]) ==>
      && LimitStands(s, Apply(cfg, s, events[0]), key, window)
      && LimitStandsThroughout(cfg, Apply(cfg, s, events[0]), events[1..], key, window)
  }

  /** The amounts of this window that were consumed after having been released. */
  function RevivedIn(s: State, key: LimitKey, window: LimitWindow, start: Instant): nat {
    SeqSum(s.revived, Query(key, window, start, ANY))
  }

  ghost predicate WithinLimit(s: State, key: LimitKey, window: LimitWindow, start: Instant) {
    LimitIn(s, key, window).Some? ==>
      Used(s.store.reservations, key, window, start) <= LimitIn(s, key, window).value + RevivedIn(s, key, window, start)
  }

  /** Admission never pushes usage over the limit in force when it happens. */
  lemma AdmissionStaysWithin(s: Store, id: Id, key: LimitKey, amount: nat, b: Boundaries, now: Instant,
                             k: LimitKey, window: LimitWindow, start: Instant)
    requires id !in s.reservations
    requires Verdict(s, key, amount, b).None?
    ensures var before := Used(s.reservations, k, window, start);
            var after := Used(s.reservations[id := Reservation(id, key, amount, b, now)], k, window, start);
            var limit := LimitOf(PolicyOf(s.policies, k), window);
            || after == before
            || (limit.Some? ==> after <= limit.value)
  {
    hide Verdict;
    VerdictMeansRoom(s, key, amount, b);
    SumUpdate(s.reservations, id, Reservation(id, key, amount, b, now), Query(k, window, start, COUNTED));
  }

  lemma ReleaseLowersUsage(s: Store, id: Id, reason: string, now: Instant, key: LimitKey, window: LimitWindow, start: Instant)
    ensures Used(ReleaseReservation(s, id, reason, now).reservations, key, window, start) <= Used(s.reservations, key, window, start)
  {
    if id in s.reservations {
      SumUpdate(s.reservations, id, ReleaseAssetLimitReservation(s.reservations[id], reason, now), Query(key, window, start, COUNTED));
    }
  }

  /** Consuming a counted reservation moves nothing; consuming a released one brings its amount
      back. */
  lemma ConsumeMovesUsage(s: Store, id: Id, now: Instant, key: LimitKey, window: LimitWindow, start: Instant)
    ensures Used(ConsumeReservation(s, id, now).reservations, key, window, start)
         == Used(s.reservations, key, window, start)
            + if id in s.reservations && s.reservations[id].status == RELEASED
              then Weight(s.reservations[id], Query(key, window, start, ANY)) else 0
  {
    if id in s.reservations {
      SumUpdate(s.reservations, id, ConsumeAssetLimitReservation(s.reservations[id], now), Query(key, window, start, COUNTED));
    }
  }

  lemma RevivalCounts(revived: seq<AssetLimitReservation>, r: AssetLimitReservation, q: Query)
    ensures SeqSum(revived + [r], q) == SeqSum(revived, q) + Weight(r, q)
  {
    assert (revived + [r])[..|revived|] == revived;
  }

  lemma PoliciesUntouched(s: Store, id: Id, reason: string, now: Instant)
    ensures ConsumeReservation(s, id, now).policies == s.policies
    ensures ReleaseReservation(s, id, reason, now).policies == s.policies
  {
  }

  lemma SettleWithin(s: State, p: nat, now: Instant, key: LimitKey, window: LimitWindow, start: Instant)
    requires p in s.passes && MidOperation(s.passes[p]) && s.passes[p].next < |s.passes[p].listed|
    requires WithinLimit(s, key, window, start)
    ensures WithinLimit(Settle(s, p, now), key, window, start)
  {
    hide Used, ConsumeReservation, ReleaseReservation, SeqSum, LimitOf, PolicyOf;
    var pass := s.passes[p];
    var id := Current(pass).operationId;
    var reason := if pass.step.Releasing? then pass.step.reason else "";
    PoliciesUntouched(s.store, id, reason, now);
    ReleaseLowersUsage(s.store, id, reason, now, key, window, start);
    ConsumeMovesUsage(s.store, id, now, key, window, start);
    if id in s.store.reservations {
      RevivalCounts(s.revived, s.store.reservations[id], Query(key, window, start, ANY));
    }
  }

  lemma AdmitWithin(s: State, id: Id, b: Boundaries, now: Instant, key: LimitKey, window: LimitWindow, start: Instant)
    requires Sound(s) && id in s.calls && s.calls[id].step == Admitting
    requires WithinLimit(s, key, window, start)
    ensures WithinLimit(TryAdmit(s, id, b, now), key, window, start)
  {
    assert CallOk(s.store, id, s.calls[id]);
    hide Used, Verdict, SeqSum, LimitOf, PolicyOf, Sound;
    var op := s.calls[id].operation;
    if Verdict(s.store, op.key, op.requestedAmount, b).None? {
      AdmissionStaysWithin(s.store, id, op.key, op.requestedAmount, b, now, key, window, start);
    }
  }

  lemma ReleaseWithin(s: State, id: Id, now: Instant, key: LimitKey, window: LimitWindow, start: Instant)
    requires id in s.calls && s.calls[id].step.Compensating?
    requires WithinLimit(s, key, window, start)
    ensures WithinLimit(ReleaseInCatch(s, id, now), key, window, start)
  {
    hide Used, ReleaseReservation, SeqSum, LimitOf, PolicyOf;
    var reason := "transfer_failed:" + TransferAction(s.calls[id].operation.key);
    PoliciesUntouched(s.store, id, reason, now);
    ReleaseLowersUsage(s.store, id, reason, now, key, window, start);
  }

  /** The remaining steps write no reservation. */
  predicate LeavesReservations(e: Event) {
    !e.Admit? && !e.Compensate? && !e.SettleReservation?
  }

  lemma OthersLeaveReservations(cfg: Config, s: State, e: Event)
    requires Enabled(s, e) && LeavesReservations(e)
    ensures Apply(cfg, s, e).store.reservations == s.store.reservations
    ensures Apply(cfg, s, e).revived == s.revived
    ensures !e.ChangePolicy? ==> Apply(cfg, s, e).store.policies == s.store.policies
  {
    hide Decide, Catch, NextPolicy, CarryOut;
    if e.Examine? { VerdictLeavesReservations(s, e.pass, Decide(cfg, Current(s.passes[e.pass]), e.now, e.answer), e.now); }
  }

  lemma VerdictLeavesReservations(s: State, p: nat, decision: Decision, now: Instant)
    requires p in s.passes && s.passes[p].next < |s.passes[p].listed|
    ensures var t := CarryOut(s, p, decision, now);
            t.store.reservations == s.store.reservations && t.store.policies == s.store.policies && t.revived == s.revived
  {
  }

  lemma WithinLimitStep(cfg: Config, s: State, e: Event, key: LimitKey, window: LimitWindow, start: Instant)
    requires Sound(s) && Enabled(s, e)
    requires LimitStands(s, Apply(cfg, s, e), key, window)
    requires WithinLimit(s, key, window, start)
    ensures WithinLimit(Apply(cfg, s, e), key, window, start)
  {
    hide Sound, Used, SeqSum, LimitOf, PolicyOf, TryAdmit, ReleaseInCatch, Settle;
    match e {
      case Admit(id, now, written) => AdmitWithin(s, id, cfg.windows(now), written, key, window, start);
      case Compensate(id, now) => ReleaseWithin(s, id, now, key, window, start);
      case SettleReservation(p, now) => SettleWithin(s, p, now, key, window, start);
      case _ => hide Apply; OthersLeaveReservations(cfg, s, e);
    }
  }

  predicate LeavesPolicies(events: seq<Event>) {
    forall i | 0 <= i < |events| :: !events[i].ChangePolicy?
  }

  lemma StepLeavesPolicies(cfg: Config, s: State, e: Event)
    requires Enabled(s, e) && !e.ChangePolicy?
    ensures Apply(cfg, s, e).store.policies == s.store.policies
  {
    hide TryAdmit, Settle, ReleaseInCatch;
    match e {
      case Admit(id, now, written) => AdmissionLeavesPolicies(s, id, cfg.windows(now), written);
      case Compensate(id, now) => CompensationLeavesPolicies(s, id, now);
      case SettleReservation(p, now) => SettlingLeavesPolicies(s, p, now);
      case _ => hide Apply; OthersLeaveReservations(cfg, s, e);
    }
  }

  lemma AdmissionLeavesPolicies(s: State, id: Id, b: Boundaries, now: Instant)
    requires id in s.calls
    ensures TryAdmit(s, id, b, now).store.policies == s.store.policies
  {
    hide Verdict, Reservation;
  }

  lemma CompensationLeavesPolicies(s: State, id: Id, now: Instant)
    requires id in s.calls && s.calls[id].step.Compensating?
    ensures ReleaseInCatch(s, id, now).store.policies == s.store.policies
  {
    hide TransferAction, ReleaseAssetLimitReservation;
  }

  lemma SettlingLeavesPolicies(s: State, p: nat, now: Instant)
    requires p in s.passes && MidOperation(s.passes[p]) && s.passes[p].next < |s.passes[p].listed|
    ensures Settle(s, p, now).store.policies == s.store.policies
  {
    hide ReleaseAssetLimitReservation, ConsumeAssetLimitReservation;
  }

  /** A limit stands as long as the owner leaves it alone. */
  lemma {:induction false} LimitStandsUntouched(cfg: Config, s: State, events: seq<Event>, t: State, key: LimitKey, window: LimitWindow)
    requires Run(cfg, s, events, t) && LeavesPolicies(events) && LimitIn(s, key, window).Some?
    ensures LimitStandsThroughout(cfg, s, events, key, window) && LimitIn(t, key, window) == LimitIn(s, key, window)
    decreases |events|
  {
    hide Apply, Enabled;
    if events != [] {
      StepLeavesPolicies(cfg, s, events[0]);
      LimitStandsUntouched(cfg, Apply(cfg, s, events[0]), events[1..], t, key, window);
    }
  }

  lemma {:induction false} StandsOn(cfg: Config, s: State, a: seq<Event>, m: State, b: seq<Event>, key: LimitKey, window: LimitWindow)
    requires Run(cfg, s, a, m) && LimitStandsThroughout(cfg, s, a, key, window) && LimitStandsThroughout(cfg, m, b, key, window)
    ensures LimitStandsThroughout(cfg, s, a + b, key, window)
    decreases |a|
  {
    hide Apply, Enabled, LimitStands;
    if a == [] {
      assert a + b == b;
    } else {
      assert (a + b)[0] == a[0] && (a + b)[1..] == a[1..] + b;
      StandsOn(cfg, Apply(cfg, s, a[0]), a[1..], m, b, key, window);
    }
  }

  /** In every window whose limit stays set and is never lowered, usage is at all times at most
      the limit plus what was revived, whatever interleaves. */
  lemma {:induction false} LimitBoundOverRuns(cfg: Config, s: State, events: seq<Event>, t: State,
                                              key: LimitKey, window: LimitWindow, start: Instant)
    requires Sound(s) && Run(cfg, s, events, t)
    requires LimitStandsThroughout(cfg, s, events, key, window)
    requires WithinLimit(s, key, window, start)
    ensures WithinLimit(t, key, window, start)
    decreases |events|
  {
    hide Sound, WithinLimit, Apply, LimitStands, Enabled;
    if events != [] {
      SoundStep(cfg, s, events[0]);
      WithinLimitStep(cfg, s, events[0], key, window, start);
      LimitBoundOverRuns(cfg, Apply(cfg, s, events[0]), events[1..], t, key, window, start);
    }
  }

  lemma LimitBoundFromFresh(cfg: Config, s: State, events: seq<Event>, t: State, key: LimitKey, window: LimitWindow, start: Instant)
    requires Initial(s) && Run(cfg, s, events, t)
    requires LimitStandsThroughout(cfg, s, events, key, window) && LimitIn(t, key, window).Some?
    ensures Used(t.store.reservations, key, window, start) <= LimitIn(t, key, window).value + RevivedIn(t, key, window, start)
  {
    InitialIsSound(s);
    NothingInWindow(s.store.reservations, Query(key, window, start, COUNTED));
    LimitBoundOverRuns(cfg, s, events, t, key, window, start);
  }

  /** From a fresh database and with nothing revived the limit itself is the bound. */
  lemma LimitHoldsWithoutRevival(cfg: Config, s: State, events: seq<Event>, t: State,
                                 key: LimitKey, window: LimitWindow, start: Instant)
    requires Initial(s) && Run(cfg, s, events, t)
    requires LimitStandsThroughout(cfg, s, events, key, window) && LimitIn(t, key, window).Some?
    requires t.revived == []
    ensures Used(t.store.reservations, key, window, start) <= LimitIn(t, key, window).value
  {
    LimitBoundFromFresh(cfg, s, events, t, key, window, start);
  }

  // ------------------------------------------------------------------ what the owner sets

  /** The owner gives this limit, or none, for the window. */
  predicate Gives(patch: PolicyPatch, window: LimitWindow, limit: Option<nat>) {
    match window
    case Daily => patch.daily == Set(limit)
    case Weekly => patch.weekly == Set(limit)
    case Monthly => patch.monthly == Set(limit)
  }

  /** The event is no change of this limit. */
  predicate LeavesLimit(e: Event, key: LimitKey, window: LimitWindow) {
    e.ChangePolicy? && e.key == key ==>
      match window
      case Daily => e.patch.daily == Keep
      case Weekly => e.patch.weekly == Keep
      case Monthly => e.patch.monthly == Keep
  }

  lemma LimitKept(cfg: Config, s: State, e: Event, key: LimitKey, window: LimitWindow)
    requires Enabled(s, e) && LeavesLimit(e, key, window)
    ensures LimitIn(Apply(cfg, s, e), key, window) == LimitIn(s, key, window)
  {
    if !e.ChangePolicy? {
      StepLeavesPolicies(cfg, s, e);
      hide Apply, Enabled;
    }
  }

  lemma {:induction false} LimitKeptOver(cfg: Config, s: State, events: seq<Event>, t: State, key: LimitKey, window: LimitWindow)
    requires Run(cfg, s, events, t) && forall i | 0 <= i < |events| :: LeavesLimit(events[i], key, window)
    ensures LimitIn(t, key, window) == LimitIn(s, key, window)
    decreases |events|
  {
    hide Apply, Enabled, LimitIn, LeavesLimit;
    if events != [] {
      LimitKept(cfg, s, events[0], key, window);
      LimitKeptOver(cfg, Apply(cfg, s, events[0]), events[1..], t, key, window);
    }
  }

  lemma LimitGiven(cfg: Config, s: State, key: LimitKey, patch: PolicyPatch, author: ActorRole, now: Instant, window: LimitWindow, limit: Option<nat>)
    requires Gives(patch, window, limit)
    ensures LimitIn(Apply(cfg, s, ChangePolicy(key, patch, author, now)), key, window) == limit
  {
  }

  /** From the moment the owner gives a limit, and until the owner changes it, an admission leaves
      usage of its window at most at that limit, and a rejection on account of the window names
      that limit. A limit that is taken away rejects nothing. */
  lemma LimitTakesEffect(cfg: Config, s: State, key: LimitKey, patch: PolicyPatch, author: ActorRole, now: Instant,
                         more: seq<Event>, m: State, id: Id, at: Instant, written: Instant, window: LimitWindow, limit: Option<nat>)
    requires Sound(m) && Run(cfg, Apply(cfg, s, ChangePolicy(key, patch, author, now)), more, m)
    requires Gives(patch, window, limit) && forall i | 0 <= i < |more| :: LeavesLimit(more[i], key, window)
    requires Enabled(m, Admit(id, at, written)) && m.calls[id].operation.key == key
    ensures var t := Apply(cfg, m, Admit(id, at, written));
            var start := match window
                         case Daily => cfg.windows(at).daily.start
                         case Weekly => cfg.windows(at).weekly.start
                         case Monthly => cfg.windows(at).monthly.start;
            if id in t.store.reservations then
              && t.calls[id].step == Broadcasting
              && (limit.Some? ==> Used(t.store.reservations, key, window, start) <= limit.value)
            else
              && t.store == m.store && t.calls[id].step.SavingFailed?
              && var failure := t.calls[id].step.failure;
                 && failure.code == "ASSET_LIMIT_EXCEEDED" && failure.limit.Some?
                 && (failure.limit.value.window == window ==> limit == Some(failure.limit.value.limitAmount))
  {
    hide *;
    OwnerMayChange(s, key, patch, author, now);
    LimitGiven(cfg, s, key, patch, author, now, window, limit);
    AdmittingCall(m, id, at, written);
    CallIsUnreserved(m, id);
    LimitKeptOver(cfg, Apply(cfg, s, ChangePolicy(key, patch, author, now)), more, m, key, window);
    AdmitIsTry(cfg, m, id, at, written);
    StartOfWindow(cfg.windows(at), window);
    AdmittedUnder(m, id, cfg.windows(at), written, window, limit);
  }

  lemma OwnerMayChange(s: State, key: LimitKey, patch: PolicyPatch, author: ActorRole, now: Instant)
    ensures Enabled(s, ChangePolicy(key, patch, author, now))
  {
  }

  lemma AdmittingCall(s: State, id: Id, at: Instant, written: Instant)
    requires Enabled(s, Admit(id, at, written))
    ensures id in s.calls && s.calls[id].step == Admitting
  {
  }

  lemma CallIsUnreserved(s: State, id: Id)
    requires Sound(s) && id in s.calls && s.calls[id].step == Admitting
    ensures id !in s.store.reservations && !s.calls[id].hasReservation
  {
    assert CallOk(s.store, id, s.calls[id]);
    hide Sound;
  }

  lemma AdmitIsTry(cfg: Config, s: State, id: Id, at: Instant, written: Instant)
    requires Enabled(s, Admit(id, at, written))
    ensures id in s.calls && s.calls[id].step == Admitting
    ensures Apply(cfg, s, Admit(id, at, written)) == TryAdmit(s, id, cfg.windows(at), written)
  {
    hide TryAdmit;
  }

  lemma StartOfWindow(b: Boundaries, window: LimitWindow)
    ensures b.Of(window).start == match window case Daily => b.daily.start case Weekly => b.weekly.start case Monthly => b.monthly.start
  {
  }

  lemma AdmittedUnder(s: State, id: Id, b: Boundaries, written: Instant, window: LimitWindow, limit: Option<nat>)
    requires id in s.calls && id !in s.store.reservations && !s.calls[id].hasReservation
    requires LimitIn(s, s.calls[id].operation.key, window) == limit
    ensures var t := TryAdmit(s, id, b, written);
            && id in t.calls
            && if id in t.store.reservations then
                 && t.calls[id].step == Broadcasting
                 && (limit.Some? ==> Used(t.store.reservations, s.calls[id].operation.key, window, b.Of(window).start) <= limit.value)
               else
                 && t.store == s.store && t.calls[id].step.SavingFailed?
                 && var failure := t.calls[id].step.failure;
                    && failure.code == "ASSET_LIMIT_EXCEEDED" && failure.limit.Some?
                    && (failure.limit.value.window == window ==> limit == Some(failure.limit.value.limitAmount))
  {
    var op := s.calls[id].operation;
    RejectionNamesLimit(s.store, op.key, op.requestedAmount, b, window);
    if Verdict(s.store, op.key, op.requestedAmount, b).None? {
      VerdictMeansRoom(s.store, op.key, op.requestedAmount, b);
      SumUpdate(s.store.reservations, id, Reservation(id, op.key, op.requestedAmount, b, written),
                Query(op.key, window, b.Of(window).start, COUNTED));
    }
    hide Verdict, Sum;
  }

  lemma RejectionNamesLimit(s: Store, key: LimitKey, amount: nat, b: Boundaries, window: LimitWindow)
    ensures var verdict := Verdict(s, key, amount, b);
            verdict.Some? && verdict.value.window == window ==> LimitOf(PolicyOf(s.policies, key), window) == Some(verdict.value.limitAmount)
  {
    hide TableTotals;
  }
}
