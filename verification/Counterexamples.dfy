/** Concrete runs from a fresh database, one for every configuration, key and amount, that show
    what the results on coverage and limits do not promise. In each the daily limit is the amount
    of a single transfer. */
module Counterexamples {
  import opened Wrappers
  import opened Domain
  import opened LimitWindows
  import opened Usage
  import opened Tables
  import opened Protocol
  import opened Interleavings
  import opened LimitBound
  import opened Discipline
  import opened Safety
  import opened Guards
  import opened WithoutDiscipline
  import opened Broadcasts
  import opened Overspending

  // ------------------------------------------------------------------------ common states

  /** A fresh database with a daily limit. */
  function Fresh(key: LimitKey, amount: nat): State {
    State(Store(map[], map[], map[key := AssetLimitPolicy(key, Some(amount), None, None, Owner, 0, 0)], []), map[], map[], [], {})
  }

  function Transfer(id: Id, key: LimitKey, amount: nat): TransferOperation {
    CreateTransferOperation(id, Agent, key, Address("to", "to"), amount, 0)
  }

  function Start(id: Id, key: LimitKey, amount: nat): Event {
    StartTransfer(id, Agent, key, Address("to", "to"), amount, 0)
  }

  /** What the first transfer reserves, admitted at the instant given. */
  function Reserved(cfg: Config, key: LimitKey, amount: nat, at: Instant): AssetLimitReservation {
    Reservation("a", key, amount, cfg.windows(at), at)
  }

  /** The first transfer has been admitted and waits for the chain. */
  function Waiting(cfg: Config, key: LimitKey, amount: nat, at: Instant): State {
    var op := Transfer("a", key, amount);
    State(Store(map["a" := op], map["a" := Reserved(cfg, key, amount, at)], Fresh(key, amount).store.policies, []),
          map["a" := Call(op, true, Broadcasting)], map[], [], {})
  }

  lemma FreshIsInitial(key: LimitKey, amount: nat)
    ensures Initial(Fresh(key, amount))
    ensures LimitIn(Fresh(key, amount), key, Daily) == Some(amount)
    ensures LimitIn(Fresh(key, amount), key, Weekly).None? && LimitIn(Fresh(key, amount), key, Monthly).None?
  {
  }

  /** A transfer of the limit fits when nothing counts in its window. */
  lemma FitsWhenUnused(s: Store, key: LimitKey, amount: nat, b: Boundaries)
    requires s.policies == Fresh(key, amount).store.policies && Used(s.reservations, key, Daily, b.daily.start) == 0
    ensures Verdict(s, key, amount, b).None?
  {
    FreshIsInitial(key, amount);
    VerdictMeansRoom(s, key, amount, b);
    hide Verdict, Used, Fresh;
    forall window: LimitWindow | LimitOf(PolicyOf(s.policies, key), window).Some?
      ensures Used(s.reservations, key, window, b.Of(window).start) + amount <= LimitOf(PolicyOf(s.policies, key), window).value
    {
      match window case Daily => case Weekly => case Monthly =>
    }
  }

  lemma FirstIsAdmitted(cfg: Config, key: LimitKey, amount: nat, at: Instant)
    requires Supported(key) && amount > 0
    ensures DisciplinedRun(cfg, Fresh(key, amount), [Start("a", key, amount)] + [Admit("a", at, at)], Waiting(cfg, key, amount, at))
  {
    var s := Fresh(key, amount);
    var op := Transfer("a", key, amount);
    var s1 := StartCall(s, op);
    FitsWhenUnused(s1.store, key, amount, cfg.windows(at));
    hide Verdict, DisciplinedRun;
    assert Waiting(cfg, key, amount, at) == TryAdmit(s1, "a", cfg.windows(at), at);
    DisciplinedOne(cfg, s, Start("a", key, amount));
    DisciplinedThen(cfg, s, [Start("a", key, amount)], s1, Admit("a", at, at));
  }

  lemma WaitingIsReached(cfg: Config, key: LimitKey, amount: nat, at: Instant)
    requires Supported(key) && amount > 0
    ensures Sound(Waiting(cfg, key, amount, at))
  {
    var s := Fresh(key, amount);
    FreshIsInitial(key, amount);
    InitialIsSound(s);
    FirstIsAdmitted(cfg, key, amount, at);
    hide *;
    DisciplinedIsRun(cfg, s, [Start("a", key, amount)] + [Admit("a", at, at)], Waiting(cfg, key, amount, at));
    SoundRun(cfg, s, [Start("a", key, amount)] + [Admit("a", at, at)], Waiting(cfg, key, amount, at));
  }

  // -------------------------------------------------------- timing out a call that still runs

  function ListedWaiting(cfg: Config, key: LimitKey, amount: nat): State {
    Waiting(cfg, key, amount, 0).(passes := map[0 := Pass([Transfer("a", key, amount)], 0, Examining, {"a"})])
  }

  lemma ListWaiting(cfg: Config, key: LimitKey, amount: nat)
    ensures var e := BeginPass(0, 100, [Transfer("a", key, amount)]);
            var s := Waiting(cfg, key, amount, 0);
            Enabled(s, e) && Disciplined(cfg, s, e) && Apply(cfg, s, e) == ListedWaiting(cfg, key, amount)
  {
    var s := Waiting(cfg, key, amount, 0);
    assert IsPendingRow(s.store.transfers, Transfer("a", key, amount));
    assert s.calls.Keys == {"a"};
  }

  lemma ExamineLate(cfg: Config, key: LimitKey, amount: nat, late: Instant)
    requires late > cfg.reservedTimeout
    ensures var s := ListedWaiting(cfg, key, amount);
            var decision := Fail("Transfer reservation expired before broadcast completed", "reservation_timeout");
            && Enabled(s, Examine(0, late, NotFound))
            && Apply(cfg, s, Examine(0, late, NotFound)) == CarryOut(s, 0, decision, late)
            && ReachedReserved(s, 0) && Current(s.passes[0]).actorRole == Agent && Current(s.passes[0]).operationId == "a"
            && "a" in s.calls && OnItsWay(s.calls["a"])
  {
  }

  /** A pass times out a transfer that waits for the chain, and the transfer then goes out: it ends
      stored as SUBMITTED over a released reservation. */
  lemma CoverageFailsByTimeout(cfg: Config, key: LimitKey, amount: nat) returns (events: seq<Event>, t: State)
    requires Supported(key) && amount > 0
    ensures Initial(Fresh(key, amount)) && Run(cfg, Fresh(key, amount), events, t) && !AllCovered(t.store)
  {
    var s, listed, late := Fresh(key, amount), ListedWaiting(cfg, key, amount), cfg.reservedTimeout + 1;
    FreshIsInitial(key, amount);
    FirstIsAdmitted(cfg, key, amount, 0);
    ListWaiting(cfg, key, amount);
    WaitingIsReached(cfg, key, amount, 0);
    ExamineLate(cfg, key, amount, late);
    hide Fresh, Initial, Waiting, ListedWaiting, Apply, Enabled, Sound, CarryOut, DisciplinedRun, Run, Disciplined,
      AllCovered, ReachedReserved, OnItsWay, Start;
    SoundStep(cfg, Waiting(cfg, key, amount, 0), BeginPass(0, 100, [Transfer("a", key, amount)]));
    var first := [Start("a", key, amount)] + [Admit("a", 0, 0)];
    DisciplinedThen(cfg, s, first, Waiting(cfg, key, amount, 0), BeginPass(0, 100, [Transfer("a", key, amount)]));
    first := first + [BeginPass(0, 100, [Transfer("a", key, amount)])];
    DisciplinedIsRun(cfg, s, first, listed);
    RunThen(cfg, s, first, listed, Examine(0, late, NotFound));
    first := first + [Examine(0, late, NotFound)];
    var m := Apply(cfg, listed, Examine(0, late, NotFound));
    var rest, u := RunningCallGoesOutUncovered(cfg, listed, 0, "Transfer reservation expired before broadcast completed",
                                               "reservation_timeout", late, "hash");
    DisciplinedIsRun(cfg, m, rest, u);
    RunConcat(cfg, s, first, m, rest, u);
    events, t := first + rest, u;
    UncoveredBy(t, "a");
  }

  lemma UncoveredBy(t: State, id: Id)
    requires id in t.store.transfers && t.store.transfers[id].Outgoing()
    requires id in t.store.reservations && t.store.reservations[id].status == RELEASED
    ensures !AllCovered(t.store)
  {
    assert !Covered(t.store, id);
  }

  // ------------------------------------------------------------------- two passes at once

  /** The first transfer has been sent and saved, and nothing is running. */
  function Sent(cfg: Config, key: LimitKey, amount: nat): State {
    State(Store(map["a" := Copy(key, amount)], map["a" := Reserved(cfg, key, amount, 0)], Fresh(key, amount).store.policies,
                [TransferAudit(Agent, TransferAction(key), SUCCESS, "a")]),
          map[], map[], [], {})
  }

  /** What both passes list. */
  function Copy(key: LimitKey, amount: nat): TransferOperation {
    MarkTransferSubmitted(Transfer("a", key, amount), "hash", 0)
  }

  lemma FirstIsSent(cfg: Config, key: LimitKey, amount: nat)
    requires Supported(key) && amount > 0
    ensures DisciplinedRun(cfg, Fresh(key, amount), SendFirst(key, amount), Sent(cfg, key, amount))
  {
    var s, w := Fresh(key, amount), Waiting(cfg, key, amount, 0);
    FirstIsAdmitted(cfg, key, amount, 0);
    hide DisciplinedRun, Reserved, TransferAction;
    var first := [Start("a", key, amount)] + [Admit("a", 0, 0)];
    DisciplinedThen(cfg, s, first, w, BroadcastReturns("a", "hash"));
    DisciplinedThen(cfg, s, first + [BroadcastReturns("a", "hash")], HoldHash(w, "a", "hash"), SaveSubmitted("a", 0));
    assert CommitSubmitted(HoldHash(w, "a", "hash"), "a", 0) == Sent(cfg, key, amount);
  }

  /** Both passes have listed it. */
  function ListedTwice(cfg: Config, key: LimitKey, amount: nat): State {
    var pass := Pass([Copy(key, amount)], 0, Examining, {});
    Sent(cfg, key, amount).(passes := map[0 := pass, 1 := pass])
  }

  function BeginBoth(key: LimitKey, amount: nat): seq<Event> {
    [BeginPass(0, 100, [Copy(key, amount)])] + [BeginPass(1, 100, [Copy(key, amount)])]
  }

  lemma BothBegin(cfg: Config, key: LimitKey, amount: nat)
    ensures Run(cfg, Sent(cfg, key, amount), BeginBoth(key, amount), ListedTwice(cfg, key, amount))
  {
    var s, op := Sent(cfg, key, amount), Copy(key, amount);
    assert IsPendingRow(s.store.transfers, op);
    assert s.calls.Keys == {};
    hide Copy, Reserved, TransferAction, Fresh;
    var one := s.(passes := map[0 := Pass([op], 0, Examining, {})]);
    assert Apply(cfg, s, BeginPass(0, 100, [op])) == one;
    assert Apply(cfg, one, BeginPass(1, 100, [op])) == ListedTwice(cfg, key, amount);
    assert Run(cfg, s, [], s);
    RunThen(cfg, s, [], s, BeginPass(0, 100, [op]));
    assert [] + [BeginPass(0, 100, [op])] == [BeginPass(0, 100, [op])];
    RunThen(cfg, s, [BeginPass(0, 100, [op])], one, BeginPass(1, 100, [op]));
  }

  function SendFirst(key: LimitKey, amount: nat): seq<Event> {
    [Start("a", key, amount)] + [Admit("a", 0, 0)] + [BroadcastReturns("a", "hash")] + [SaveSubmitted("a", 0)]
  }

  lemma ReachingLeavesPolicies(key: LimitKey, amount: nat)
    ensures LeavesPolicies(SendFirst(key, amount) + BeginBoth(key, amount))
  {
  }

  lemma ListedTwiceIsReached(cfg: Config, key: LimitKey, amount: nat) returns (events: seq<Event>)
    requires Supported(key) && amount > 0
    ensures Run(cfg, Fresh(key, amount), events, ListedTwice(cfg, key, amount)) && Sound(ListedTwice(cfg, key, amount))
    ensures LeavesPolicies(events)
  {
    var s, first := Fresh(key, amount), SendFirst(key, amount);
    FirstIsSent(cfg, key, amount);
    hide *;
    FreshIsInitial(key, amount);
    InitialIsSound(s);
    BothBegin(cfg, key, amount);
    events := first + BeginBoth(key, amount);
    ReachingLeavesPolicies(key, amount);
    DisciplinedIsRun(cfg, s, first, Sent(cfg, key, amount));
    RunConcat(cfg, s, first, Sent(cfg, key, amount), BeginBoth(key, amount), ListedTwice(cfg, key, amount));
    SoundRun(cfg, s, events, ListedTwice(cfg, key, amount));
  }

  /** One pass writes the transfer off, the other confirms it: it ends stored as CONFIRMED over a
      released reservation. */
  lemma CoverageFailsByOverlap(cfg: Config, key: LimitKey, amount: nat) returns (events: seq<Event>, t: State)
    requires Supported(key) && amount > 0
    ensures Initial(Fresh(key, amount)) && Run(cfg, Fresh(key, amount), events, t) && !AllCovered(t.store)
  {
    var s, both := Fresh(key, amount), ListedTwice(cfg, key, amount);
    FreshIsInitial(key, amount);
    assert ReachedTogether(both, 0, 1);
    var first := ListedTwiceIsReached(cfg, key, amount);
    hide *;
    t := RejectThenConfirm(cfg, both, 0, 1, 0);
    var rest := [Examine(0, 0, Rejected(None)), SettleReservation(0, 0)] + [Examine(1, 0, OnChain)];
    DisciplinedIsRun(cfg, both, rest, t);
    RunConcat(cfg, s, first, both, rest, t);
    events := first + rest;
  }

  /** And the second call waits for admission. */
  function SecondCalls(cfg: Config, key: LimitKey, amount: nat): State {
    StartCall(ListedTwice(cfg, key, amount), Transfer("b", key, amount))
  }

  lemma UsedByFirst(cfg: Config, key: LimitKey, amount: nat)
    ensures Used(SecondCalls(cfg, key, amount).store.reservations, key, Daily, cfg.windows(0).daily.start) == amount
    ensures Used(map["a" := ReleaseAssetLimitReservation(Reserved(cfg, key, amount, 0), "chain_failed", 0)],
                 key, Daily, cfg.windows(0).daily.start) == 0
  {
    var r, q := Reserved(cfg, key, amount, 0), Query(key, Daily, cfg.windows(0).daily.start, COUNTED);
    SumUpdate(map[], "a", r, q);
    SumUpdate(map[], "a", ReleaseAssetLimitReservation(r, "chain_failed", 0), q);
    assert map[]["a" := r] == map["a" := r];
  }

  lemma SecondFits(cfg: Config, key: LimitKey, amount: nat)
    ensures FitsAfterWriteOff(cfg, SecondCalls(cfg, key, amount), 0, 1, "b", 0)
  {
    var s := SecondCalls(cfg, key, amount);
    assert ReachedTogether(s, 0, 1);
    UsedByFirst(cfg, key, amount);
    FailThenRelease(s, 0, "Transaction failed on chain", "chain_failed", 0);
    hide Verdict, WrittenOff, Used;
    var off := WrittenOff(s, 0, 0).store;
    assert off.reservations == map["a" := ReleaseAssetLimitReservation(Reserved(cfg, key, amount, 0), "chain_failed", 0)];
    FitsWhenUnused(off, key, amount, cfg.windows(0));
  }

  lemma SecondIsStarted(cfg: Config, key: LimitKey, amount: nat) returns (events: seq<Event>)
    requires Supported(key) && amount > 0
    ensures Run(cfg, Fresh(key, amount), events, SecondCalls(cfg, key, amount)) && Sound(SecondCalls(cfg, key, amount))
    ensures LeavesPolicies(events)
  {
    var e := Start("b", key, amount);
    events := ListedTwiceIsReached(cfg, key, amount);
    assert Enabled(ListedTwice(cfg, key, amount), e);
    assert Apply(cfg, ListedTwice(cfg, key, amount), e) == SecondCalls(cfg, key, amount);
    hide Run, Sound, ListedTwice, SecondCalls, Apply, Enabled;
    RunThen(cfg, Fresh(key, amount), events, ListedTwice(cfg, key, amount), e);
    SoundStep(cfg, ListedTwice(cfg, key, amount), e);
    events := events + [e];
  }

  lemma RevivedAmount(cfg: Config, t: State, key: LimitKey, amount: nat)
    requires t.revived == [] + [ReleaseAssetLimitReservation(Reserved(cfg, key, amount, 0), "chain_failed", 0)]
    ensures RevivedIn(t, key, Daily, cfg.windows(0).daily.start) == amount
  {
    RevivalCounts([], t.revived[0], Query(key, Daily, cfg.windows(0).daily.start, ANY));
  }

  lemma RevivalLeavesPolicies(before: seq<Event>, p: nat, q: nat, other: Id, now: Instant)
    requires LeavesPolicies(before)
    ensures LeavesPolicies(before + RevivalEvents(p, q, other, now))
  {
  }

  /** Two passes at once let spending rise above a limit that stands throughout, by all that was
      revived: the bound on every run is attained. */
  lemma OverlapExceedsLimit(cfg: Config, key: LimitKey, amount: nat) returns (events: seq<Event>, t: State)
    requires Supported(key) && amount > 0
    ensures Initial(Fresh(key, amount)) && Run(cfg, Fresh(key, amount), events, t)
    ensures LimitStandsThroughout(cfg, Fresh(key, amount), events, key, Daily) && LimitIn(t, key, Daily) == Some(amount)
    ensures var start := cfg.windows(0).daily.start;
            Used(t.store.reservations, key, Daily, start) == 2 * amount == amount + RevivedIn(t, key, Daily, start)
  {
    var s, second := Fresh(key, amount), SecondCalls(cfg, key, amount);
    FreshIsInitial(key, amount);
    SecondFits(cfg, key, amount);
    UsedByFirst(cfg, key, amount);
    SecondFacts(cfg, key, amount);
    var first := SecondIsStarted(cfg, key, amount);
    hide Fresh, Initial, SecondCalls, Run, Sound, DisciplinedRun, Used, RevivedIn, RevivalEvents, FitsAfterWriteOff,
      LeavesPolicies, LimitIn, Reserved, Transfer;
    t := OverlapRevives(cfg, second, 0, 1, "b", 0);
    var rest := RevivalEvents(0, 1, "b", 0);
    DisciplinedIsRun(cfg, second, rest, t);
    RunConcat(cfg, s, first, second, rest, t);
    RevivalLeavesPolicies(first, 0, 1, "b", 0);
    events := first + rest;
    LimitStandsUntouched(cfg, s, events, t, key, Daily);
    RevivedAmount(cfg, t, key, amount);
    assert cfg.windows(0).Of(Daily) == cfg.windows(0).daily;
  }

  lemma SecondFacts(cfg: Config, key: LimitKey, amount: nat)
    ensures var s := SecondCalls(cfg, key, amount);
            && 0 in s.passes && s.passes[0].next < |s.passes[0].listed| && Current(s.passes[0]).operationId == "a"
            && "b" in s.calls && s.calls["b"].operation.key == key && s.calls["b"].operation.requestedAmount == amount
            && "a" in s.store.reservations && s.store.reservations["a"] == Reserved(cfg, key, amount, 0) && s.revived == []
  {
    hide Reserved;
  }

  // --------------------------------------------------- broadcasts that are written off later

  /** The first transfer was handed to the chain and the process crashed before saving it. */
  function Crashed(cfg: Config, key: LimitKey, amount: nat, at: Instant): State {
    Waiting(cfg, key, amount, at).(calls := map[])
  }

  lemma FirstIsLost(cfg: Config, key: LimitKey, amount: nat, at: Instant)
    requires Supported(key) && amount > 0
    ensures DisciplinedRun(cfg, Fresh(key, amount), [Start("a", key, amount)] + [Admit("a", at, at)] + [BroadcastReturns("a", "hash")] + [Crash],
                           Crashed(cfg, key, amount, at))
  {
    var s, w := Fresh(key, amount), Waiting(cfg, key, amount, at);
    FirstIsAdmitted(cfg, key, amount, at);
    hide DisciplinedRun, Reserved;
    var first := [Start("a", key, amount)] + [Admit("a", at, at)];
    var held := HoldHash(w, "a", "hash");
    assert StoppedByCrash(held.passes) == {};
    assert Apply(cfg, held, Crash) == Crashed(cfg, key, amount, at);
    DisciplinedThen(cfg, s, first, w, BroadcastReturns("a", "hash"));
    DisciplinedThen(cfg, s, first + [BroadcastReturns("a", "hash")], held, Crash);
  }

  const EXPIRED := Fail("Transfer reservation expired before broadcast completed", "reservation_timeout")

  /** A pass has listed it. */
  function CrashedListed(cfg: Config, key: LimitKey, amount: nat, at: Instant): State {
    Crashed(cfg, key, amount, at).(passes := map[0 := Pass([Transfer("a", key, amount)], 0, Examining, {})])
  }

  /** And written it off. */
  function Expired(cfg: Config, key: LimitKey, amount: nat, at: Instant): State {
    Settle(CarryOut(CrashedListed(cfg, key, amount, at), 0, EXPIRED, at), 0, at)
  }

  lemma LostIsListed(cfg: Config, key: LimitKey, amount: nat, at: Instant)
    ensures var e := BeginPass(0, 100, [Transfer("a", key, amount)]);
            var s := Crashed(cfg, key, amount, at);
            Enabled(s, e) && Disciplined(cfg, s, e) && Apply(cfg, s, e) == CrashedListed(cfg, key, amount, at)
  {
    var s := Crashed(cfg, key, amount, at);
    assert IsPendingRow(s.store.transfers, Transfer("a", key, amount));
    assert s.calls.Keys == {};
    hide Reserved, Fresh;
  }

  lemma ListedExpires(cfg: Config, key: LimitKey, amount: nat, at: Instant)
    requires at > cfg.reservedTimeout
    ensures var s, e := CrashedListed(cfg, key, amount, at), Examine(0, at, NotFound);
            && Enabled(s, e) && Disciplined(cfg, s, e) && Apply(cfg, s, e) == CarryOut(s, 0, EXPIRED, at)
            && Enabled(Apply(cfg, s, e), SettleReservation(0, at))
  {
    hide Reserved, Fresh;
  }

  lemma LostIsWrittenOff(cfg: Config, key: LimitKey, amount: nat, at: Instant)
    requires at > cfg.reservedTimeout
    ensures DisciplinedRun(cfg, Crashed(cfg, key, amount, at),
                           [BeginPass(0, 100, [Transfer("a", key, amount)])] + [Examine(0, at, NotFound)] + [SettleReservation(0, at)],
                           Expired(cfg, key, amount, at))
  {
    var s, op, listed := Crashed(cfg, key, amount, at), Transfer("a", key, amount), CrashedListed(cfg, key, amount, at);
    LostIsListed(cfg, key, amount, at);
    ListedExpires(cfg, key, amount, at);
    hide DisciplinedRun, Crashed, CrashedListed, Transfer, CarryOut, Settle, Disciplined;
    DisciplinedOne(cfg, s, BeginPass(0, 100, [op]));
    hide Apply;
    DisciplinedThen(cfg, s, [BeginPass(0, 100, [op])], listed, Examine(0, at, NotFound));
    SettleNext(cfg, CarryOut(listed, 0, EXPIRED, at), 0, at);
    SettleIsDisciplined(cfg, CarryOut(listed, 0, EXPIRED, at), 0, at);
    DisciplinedThen(cfg, s, [BeginPass(0, 100, [op])] + [Examine(0, at, NotFound)], CarryOut(listed, 0, EXPIRED, at), SettleReservation(0, at));
  }

  lemma SettleIsDisciplined(cfg: Config, s: State, p: nat, now: Instant)
    requires Enabled(s, SettleReservation(p, now))
    ensures Disciplined(cfg, s, SettleReservation(p, now))
  {
  }

  lemma ExpiredFacts(cfg: Config, key: LimitKey, amount: nat, at: Instant)
    ensures var s := Expired(cfg, key, amount, at);
            && s.store.transfers.Keys == {"a"} && s.store.transfers["a"].status == FAILED && s.store.transfers["a"].actorRole == Agent
            && s.store.transfers["a"].key == key && s.store.transfers["a"].requestedAmount == amount
            && s.store.reservations == map["a" := ReleaseAssetLimitReservation(Reserved(cfg, key, amount, at), "reservation_timeout", at)]
            && s.store.policies == Fresh(key, amount).store.policies && s.calls == map[]
  {
    hide Reserved;
  }

  lemma ExpiredFrees(cfg: Config, key: LimitKey, amount: nat, at: Instant)
    ensures Used(Expired(cfg, key, amount, at).store.reservations, key, Daily, cfg.windows(at).daily.start) == 0
  {
    ExpiredFacts(cfg, key, amount, at);
    hide Expired;
    var r := ReleaseAssetLimitReservation(Reserved(cfg, key, amount, at), "reservation_timeout", at);
    SumUpdate(map[], "a", r, Query(key, Daily, cfg.windows(at).daily.start, COUNTED));
    assert map[]["a" := r] == map["a" := r];
  }

  /** The second transfer is admitted on the freed limit and handed to the chain. */
  function BothSent(cfg: Config, key: LimitKey, amount: nat, at: Instant): State {
    HoldHash(AdmittedState(StartCall(Expired(cfg, key, amount, at), Transfer("b", key, amount)), "b", cfg.windows(at), at), "b", "hash")
  }

  lemma SecondIsSent(cfg: Config, key: LimitKey, amount: nat, at: Instant)
    requires Supported(key) && amount > 0
    ensures DisciplinedRun(cfg, Expired(cfg, key, amount, at), [Start("b", key, amount)] + [Admit("b", at, at)] + [BroadcastReturns("b", "hash")],
                           BothSent(cfg, key, amount, at))
  {
    var s := Expired(cfg, key, amount, at);
    ExpiredFacts(cfg, key, amount, at);
    ExpiredFrees(cfg, key, amount, at);
    hide Expired, DisciplinedRun, Verdict, Used, Fresh;
    var started := StartCall(s, Transfer("b", key, amount));
    FitsWhenUnused(started.store, key, amount, cfg.windows(at));
    var admitted := AdmittedState(started, "b", cfg.windows(at), at);
    assert Apply(cfg, started, Admit("b", at, at)) == admitted;
    DisciplinedOne(cfg, s, Start("b", key, amount));
    DisciplinedThen(cfg, s, [Start("b", key, amount)], started, Admit("b", at, at));
    DisciplinedThen(cfg, s, [Start("b", key, amount)] + [Admit("b", at, at)], admitted, BroadcastReturns("b", "hash"));
  }

  function SendTwice(key: LimitKey, amount: nat, at: Instant): seq<Event> {
    ([Start("a", key, amount)] + [Admit("a", at, at)] + [BroadcastReturns("a", "hash")] + [Crash])
    + ([BeginPass(0, 100, [Transfer("a", key, amount)])] + [Examine(0, at, NotFound)] + [SettleReservation(0, at)])
    + ([Start("b", key, amount)] + [Admit("b", at, at)] + [BroadcastReturns("b", "hash")])
  }

  lemma SendTwiceSends(key: LimitKey, amount: nat, at: Instant)
    ensures BroadcastIds(SendTwice(key, amount, at)) == {"a", "b"} && LeavesPolicies(SendTwice(key, amount, at))
  {
    var events := SendTwice(key, amount, at);
    assert events[2] == BroadcastReturns("a", "hash") && events[9] == BroadcastReturns("b", "hash");
  }

  lemma BothInWindow(cfg: Config, key: LimitKey, amount: nat, at: Instant)
    ensures var t := BothSent(cfg, key, amount, at);
            && BroadcastIn(SendTwice(key, amount, at), t.store, key, Daily, cfg.windows(at).daily.start) == {"a", "b"}
            && WrittenOffIn(SendTwice(key, amount, at), t.store, key, Daily, cfg.windows(at).daily.start) == {"a"}
  {
    ExpiredFacts(cfg, key, amount, at);
    SendTwiceSends(key, amount, at);
    hide Expired, BroadcastIds, SendTwice, Fresh;
  }

  lemma BothTotals(cfg: Config, key: LimitKey, amount: nat, at: Instant)
    ensures var t := BothSent(cfg, key, amount, at);
            && {"a", "b"} <= t.store.transfers.Keys
            && TotalRequested(t.store.transfers, {"a", "b"}) == 2 * amount
            && TotalRequested(t.store.transfers, {"a"}) == amount
            && forall id | id in t.store.transfers :: !t.store.transfers[id].Outgoing()
  {
    ExpiredFacts(cfg, key, amount, at);
    hide Expired, Fresh, Reserved;
    var t := BothSent(cfg, key, amount, at);
    TotalWithout(t.store.transfers, {"a", "b"}, "a");
    assert {"a", "b"} - {"a"} == {"b"};
    TotalWithout(t.store.transfers, {"b"}, "b");
    TotalWithout(t.store.transfers, {"a"}, "a");
  }

  /** Late enough for settlement to give up a transfer created at instant 0. */
  function LateEnough(cfg: Config): (at: Instant)
    ensures at > cfg.reservedTimeout
  {
    if cfg.reservedTimeout > 0 then cfg.reservedTimeout + 1 else 1
  }

  /** Even under the discipline agents can hand more to the chain than a limit that stands, by all
      that was written off after its broadcast: the bound is attained. None of it is stored as
      outgoing. */
  lemma BroadcastsExceedLimit(cfg: Config, key: LimitKey, amount: nat) returns (events: seq<Event>, t: State, start: Instant)
    requires Supported(key) && amount > 0
    ensures Initial(Fresh(key, amount)) && DisciplinedRun(cfg, Fresh(key, amount), events, t)
    ensures LimitStandsThroughout(cfg, Fresh(key, amount), events, key, Daily) && LimitIn(t, key, Daily) == Some(amount)
    ensures TotalRequested(t.store.transfers, BroadcastIn(events, t.store, key, Daily, start)) == 2 * amount
         == amount + TotalRequested(t.store.transfers, WrittenOffIn(events, t.store, key, Daily, start))
    ensures forall id | id in t.store.transfers :: !t.store.transfers[id].Outgoing()
  {
    var s, at := Fresh(key, amount), LateEnough(cfg);
    start := cfg.windows(at).daily.start;
    hide *;
    BothInWindow(cfg, key, amount, at);
    BothTotals(cfg, key, amount, at);
    FreshIsInitial(key, amount);
    SendTwiceSends(key, amount, at);
    SecondIsSent(cfg, key, amount, at);
    t := BothSent(cfg, key, amount, at);
    var lost := LosesFirst(cfg, key, amount, at);
    events := SendTwice(key, amount, at);
    SendTwiceIs(key, amount, at, lost);
    DisciplinedConcat(cfg, s, lost, Expired(cfg, key, amount, at),
                      [Start("b", key, amount)] + [Admit("b", at, at)] + [BroadcastReturns("b", "hash")], t);
    DisciplinedIsRun(cfg, s, events, t);
    LimitStandsUntouched(cfg, s, events, t, key, Daily);
  }

  function LoseFirst(key: LimitKey, amount: nat, at: Instant): seq<Event> {
    ([Start("a", key, amount)] + [Admit("a", at, at)] + [BroadcastReturns("a", "hash")] + [Crash])
    + ([BeginPass(0, 100, [Transfer("a", key, amount)])] + [Examine(0, at, NotFound)] + [SettleReservation(0, at)])
  }

  lemma SendTwiceIs(key: LimitKey, amount: nat, at: Instant, lost: seq<Event>)
    requires lost == LoseFirst(key, amount, at)
    ensures SendTwice(key, amount, at) == lost + ([Start("b", key, amount)] + [Admit("b", at, at)] + [BroadcastReturns("b", "hash")])
  {
  }

  /** The first transfer is handed to the chain, lost, and written off. */
  lemma LosesFirst(cfg: Config, key: LimitKey, amount: nat, at: Instant) returns (events: seq<Event>)
    requires Supported(key) && amount > 0 && at > cfg.reservedTimeout
    ensures events == LoseFirst(key, amount, at)
    ensures DisciplinedRun(cfg, Fresh(key, amount), events, Expired(cfg, key, amount, at))
  {
    FirstIsLost(cfg, key, amount, at);
    LostIsWrittenOff(cfg, key, amount, at);
    hide DisciplinedRun, Fresh, Crashed, Expired;
    events := LoseFirst(key, amount, at);
    DisciplinedConcat(cfg, Fresh(key, amount), [Start("a", key, amount)] + [Admit("a", at, at)] + [BroadcastReturns("a", "hash")] + [Crash],
                      Crashed(cfg, key, amount, at),
                      [BeginPass(0, 100, [Transfer("a", key, amount)])] + [Examine(0, at, NotFound)] + [SettleReservation(0, at)],
                      Expired(cfg, key, amount, at));
  }

  // ---------------------------------------- a written-off broadcast whose room is taken for good

  /** A pass is still there after `Expired`; then the second transfer is admitted and all stops. */
  function SecondLost(cfg: Config, key: LimitKey, amount: nat, at: Instant): State {
    AdmittedState(StartCall(Expired(cfg, key, amount, at), Transfer("b", key, amount)), "b", cfg.windows(at), at).(calls := map[], passes := map[])
  }

  lemma SecondIsLost(cfg: Config, key: LimitKey, amount: nat, at: Instant) returns (t: State)
    requires Supported(key) && amount > 0
    ensures DisciplinedRun(cfg, Expired(cfg, key, amount, at), [Start("b", key, amount)] + [Admit("b", at, at)] + [Crash], t)
    ensures t.store == SecondLost(cfg, key, amount, at).store && Idle(t)
  {
    var s := Expired(cfg, key, amount, at);
    ExpiredFacts(cfg, key, amount, at);
    ExpiredFrees(cfg, key, amount, at);
    hide Expired, DisciplinedRun, Verdict, Used, Fresh, Idle;
    var started := StartCall(s, Transfer("b", key, amount));
    FitsWhenUnused(started.store, key, amount, cfg.windows(at));
    var admitted := AdmittedState(started, "b", cfg.windows(at), at);
    assert Apply(cfg, started, Admit("b", at, at)) == admitted;
    DisciplinedOne(cfg, s, Start("b", key, amount));
    DisciplinedThen(cfg, s, [Start("b", key, amount)], started, Admit("b", at, at));
    t := CrashClears(cfg, admitted);
    DisciplinedConcat(cfg, s, [Start("b", key, amount)] + [Admit("b", at, at)], admitted, [Crash], t);
  }

  lemma SecondLostFacts(cfg: Config, key: LimitKey, amount: nat, at: Instant)
    ensures var s := SecondLost(cfg, key, amount, at).store;
            && s.transfers.Keys == {"a", "b"} && s.reservations.Keys == {"a", "b"} && s.transfers["b"] == Transfer("b", key, amount)
            && s.transfers["a"].status == FAILED && s.transfers["a"].actorRole == Agent && s.transfers["a"].requestedAmount == amount
            && s.reservations["a"] == ReleaseAssetLimitReservation(Reserved(cfg, key, amount, at), "reservation_timeout", at)
            && s.reservations["b"] == Reservation("b", key, amount, cfg.windows(at), at)
  {
    ExpiredFacts(cfg, key, amount, at);
    hide Expired, Reserved, ReleaseAssetLimitReservation;
  }

  /** The account of the window once a pass has failed the second transfer and been stopped. */
  lemma StuckAccount(cfg: Config, key: LimitKey, amount: nat, at: Instant, s: State, t: State, events: seq<Event>)
    requires s.store == SecondLost(cfg, key, amount, at).store && DealtWith(s, t, "b", false) && Extends(s.store, t.store)
    requires BroadcastIds(events) == {"a"}
    ensures var start := cfg.windows(at).daily.start;
            && WrittenOffIn(events, t.store, key, Daily, start) == {"a"} && StuckIn(events, t, key, Daily, start) == {"b"}
            && {"a", "b"} <= t.store.transfers.Keys
            && TotalRequested(t.store.transfers, {"a"}) == amount && TotalRequested(t.store.transfers, {"b"}) == amount
  {
    SecondLostFacts(cfg, key, amount, at);
    hide SecondLost, BroadcastIds;
    TotalWithout(t.store.transfers, {"a"}, "a");
    TotalWithout(t.store.transfers, {"b"}, "b");
  }

  lemma LosesFirstSends(key: LimitKey, amount: nat, at: Instant)
    ensures BroadcastIds(LoseFirst(key, amount, at) + ([Start("b", key, amount)] + [Admit("b", at, at)] + [Crash])) == {"a"}
    ensures LeavesPolicies(LoseFirst(key, amount, at) + ([Start("b", key, amount)] + [Admit("b", at, at)] + [Crash]))
  {
    var events := LoseFirst(key, amount, at) + ([Start("b", key, amount)] + [Admit("b", at, at)] + [Crash]);
    assert events[2] == BroadcastReturns("a", "hash");
  }

  lemma OnlyPending(cfg: Config, key: LimitKey, amount: nat, at: Instant)
    ensures PendingIds(SecondLost(cfg, key, amount, at).store.transfers) == {"b"}
  {
    SecondLostFacts(cfg, key, amount, at);
    hide SecondLost;
  }

  lemma SecondFails(cfg: Config, key: LimitKey, amount: nat, at: Instant, m: State) returns (events: seq<Event>, t: State)
    requires Sound(m) && Idle(m) && m.store == SecondLost(cfg, key, amount, at).store
    ensures DisciplinedRun(cfg, m, events, t) && Quiet(events) && DealtWith(m, t, "b", false)
  {
    OnlyPending(cfg, key, amount, at);
    SecondLostFacts(cfg, key, amount, at);
    hide Sound, Idle, DisciplinedRun, DealtWith, SecondLost, PendingIds, Quiet;
    events, t := DealWith(cfg, m, "b", false);
  }

  /** Not every broadcast that is written off makes room: here the second transfer was never sent,
      and the pass that failed it was stopped before it released the reservation. However the run
      goes on, agents hand no more than the limit to the chain unless more is written off. */
  lemma WrittenOffButStuck(cfg: Config, key: LimitKey, amount: nat) returns (events: seq<Event>, t: State, start: Instant)
    requires Supported(key) && amount > 0
    ensures Initial(Fresh(key, amount)) && DisciplinedRun(cfg, Fresh(key, amount), events, t)
    ensures LimitStandsThroughout(cfg, Fresh(key, amount), events, key, Daily) && LimitIn(t, key, Daily) == Some(amount)
    ensures TotalRequested(t.store.transfers, WrittenOffIn(events, t.store, key, Daily, start)) == amount
    ensures forall more, u | Continues(cfg, events, t, more, u, key, Daily, start) ::
              TotalRequested(u.store.transfers, BroadcastIn(events + more, u.store, key, Daily, start)) <= LimitIn(u, key, Daily).value
  {
    var s, at := Fresh(key, amount), LateEnough(cfg);
    start := cfg.windows(at).daily.start;
    hide *;
    FreshIsInitial(key, amount);
    var lost := LosesFirst(cfg, key, amount, at);
    var second := [Start("b", key, amount)] + [Admit("b", at, at)] + [Crash];
    var m := SecondIsLost(cfg, key, amount, at);
    LosesFirstSends(key, amount, at);
    DisciplinedConcat(cfg, s, lost, Expired(cfg, key, amount, at), second, m);
    InitialInStep(s);
    InStepRun(cfg, s, lost + second, m);
    InStepIsSound(m);
    var third: seq<Event>;
    third, t := SecondFails(cfg, key, amount, at, m);
    RunKeepsSound(cfg, m, third, t);
    events := lost + second + third;
    QuietSendsNothing(third);
    BroadcastIdsJoin(lost + second, third);
    StuckAccount(cfg, key, amount, at, m, t, events);
    DisciplinedConcat(cfg, s, lost + second, m, third, t);
    StandsFromFresh(cfg, key, amount, lost + second, third, t);
    MayExceedIffMoreWrittenOffThanStuck(cfg, s, events, t, key, Daily, start);
    NoExcess(cfg, events, t, key, Daily, start);
  }

  lemma StandsFromFresh(cfg: Config, key: LimitKey, amount: nat, a: seq<Event>, b: seq<Event>, t: State)
    requires DisciplinedRun(cfg, Fresh(key, amount), a + b, t) && LeavesPolicies(a) && LeavesPolicies(b)
    ensures LimitStandsThroughout(cfg, Fresh(key, amount), a + b, key, Daily) && LimitIn(t, key, Daily) == Some(amount)
  {
    FreshIsInitial(key, amount);
    assert LeavesPolicies(a + b);
    hide *;
    DisciplinedIsRun(cfg, Fresh(key, amount), a + b, t);
    LimitStandsUntouched(cfg, Fresh(key, amount), a + b, t, key, Daily);
  }

  lemma NoExcess(cfg: Config, events: seq<Event>, t: State, key: LimitKey, window: LimitWindow, start: Instant)
    requires !exists more, u :: Continues(cfg, events, t, more, u, key, window, start)
                                && TotalRequested(u.store.transfers, BroadcastIn(events + more, u.store, key, window, start))
                                   > LimitIn(u, key, window).value
    ensures forall more, u | Continues(cfg, events, t, more, u, key, window, start) ::
              TotalRequested(u.store.transfers, BroadcastIn(events + more, u.store, key, window, start)) <= LimitIn(u, key, window).value
  {
    hide DisciplinedRun, LimitStandsThroughout, WritesOffNothing, TotalRequested, BroadcastIn, LimitIn;
  }
}
