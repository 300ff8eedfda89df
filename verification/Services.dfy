/** The services as they run when nothing interleaves: imperative code over the database, each
    proved to take the steps of the transition system. */
module Services {
  import opened Wrappers
  import opened Domain
  import opened LimitWindows
  import opened Usage
  import opened Tables
  import opened Protocol
  import opened Interleavings
  import opened Discipline
  import opened Database

  function ChainName(chain: ChainKind): string {
    match chain
    case Ckb => "ckb"
    case Evm => "evm"
  }

  function UnsupportedTarget(key: LimitKey): Failure {
    Failure("VALIDATION_ERROR", "Unsupported asset limit target: " + ChainName(key.chain) + "/" + AssetName(key.asset), None)
  }

  /** The pairs a limit can be set for. */
  const TARGETS: set<LimitKey> := {LimitKey(Ckb, CKB), LimitKey(Evm, ETH), LimitKey(Evm, USDT), LimitKey(Evm, USDC)}

  predicate IsUnsupported(f: Failure, key: LimitKey) {
    && f.code == "VALIDATION_ERROR" && f.limit == None
    && f.message == "Unsupported asset limit target: " + (if key.chain == Ckb then "ckb/" else "evm/")
                    + match key.asset case CKB => "CKB" case ETH => "ETH" case USDT => "USDT" case USDC => "USDC"
  }

  /** The error of an amount for which one window has no room. */
  predicate IsOverLimit(f: Failure, key: LimitKey, window: LimitWindow, limit: Option<nat>, used: nat, amount: nat, resetsAt: Instant) {
    && f.code == "ASSET_LIMIT_EXCEEDED"
    && f.message == (match key.asset case CKB => "CKB" case ETH => "ETH" case USDT => "USDT" case USDC => "USDC")
                    + (match window case Daily => " daily" case Weekly => " weekly" case Monthly => " monthly") + " limit exceeded"
    && f.limit.Some? && Describes(f.limit.value, key, window, limit, used, amount, resetsAt)
  }

  /** What an admission answers, given the three limits. */
  ghost predicate Answers(r: Result<AssetLimitReservation, Failure>, table: ReservationTable, daily: Option<nat>, weekly: Option<nat>,
                          monthly: Option<nat>, id: Id, key: LimitKey, amount: nat, b: Boundaries, written: Instant)
  {
    var day, week := Used(table, key, Daily, b.daily.start), Used(table, key, Weekly, b.weekly.start);
    var month := Used(table, key, Monthly, b.monthly.start);
    if NoRoom(daily, day, amount) then
      r.Err? && IsOverLimit(r.error, key, Daily, daily, day, amount, b.daily.resetsAt)
    else if NoRoom(weekly, week, amount) then
      r.Err? && IsOverLimit(r.error, key, Weekly, weekly, week, amount, b.weekly.resetsAt)
    else if NoRoom(monthly, month, amount) then
      r.Err? && IsOverLimit(r.error, key, Monthly, monthly, month, amount, b.monthly.resetsAt)
    else
      r == Ok(AssetLimitReservation(
        operationId := id, key := key, amount := amount,
        dailyWindowStart := b.daily.start, weeklyWindowStart := b.weekly.start, monthlyWindowStart := b.monthly.start,
        createdAt := written, status := ACTIVE, releaseReason := None, settledAt := None, updatedAt := written))
  }

  /** The error the limit check would throw. */
  ghost function Rejection(s: Store, key: LimitKey, amount: nat, b: Boundaries): Option<Failure> {
    match Verdict(s, key, amount, b)
    case Some(detail) => Some(LimitFailure(detail))
    case None => None
  }

  ghost function Answer(s: Store, id: Id, key: LimitKey, amount: nat, b: Boundaries, written: Instant): Result<AssetLimitReservation, Failure> {
    match Rejection(s, key, amount, b)
    case Some(failure) => Err(failure)
    case None => Ok(Reservation(id, key, amount, b, written))
  }

  lemma VerdictAnswers(s: Store, id: Id, key: LimitKey, amount: nat, b: Boundaries, written: Instant,
                       daily: Option<nat>, weekly: Option<nat>, monthly: Option<nat>)
    requires AreLimits(s.policies, key, daily, weekly, monthly)
    ensures Answers(Answer(s, id, key, amount, b, written), s.reservations, daily, weekly, monthly, id, key, amount, b, written)
  {
    hide Verdict, Used, LimitFailure, IsOverLimit, Describes, AreLimits;
    VerdictInWords(s, key, amount, b, daily, weekly, monthly);
    if Verdict(s, key, amount, b).Some? {
      FailureInWords(Verdict(s, key, amount, b).value);
    }
  }

  lemma FailureInWords(detail: LimitDetail)
    ensures forall key, window, limit, used, amount, resetsAt | Describes(detail, key, window, limit, used, amount, resetsAt) ::
              IsOverLimit(LimitFailure(detail), key, window, limit, used, amount, resetsAt)
  {
    var text := (match detail.key.asset case CKB => "CKB" case ETH => "ETH" case USDT => "USDT" case USDC => "USDC");
    var window := match detail.window case Daily => " daily" case Weekly => " weekly" case Monthly => " monthly";
    assert " " + WindowName(detail.window) == window;
    assert LimitFailure(detail).message == text + window + " limit exceeded" by {
      assert text + " " + WindowName(detail.window) == text + (" " + WindowName(detail.window));
    }
    hide LimitFailure, WindowName;
  }

  /** Usage in the current one of the windows given. */
  ghost function UsedNow(s: Store, key: LimitKey, window: LimitWindow, b: Boundaries): nat {
    Used(s.reservations, key, window, b.Of(window).start)
  }

  class AssetLimitService {
    const db: WalletDatabase
    const zone: Zone

    constructor (db: WalletDatabase, zone: Zone)
      ensures this.db == db && this.zone == zone
    {
      this.db, this.zone := db, zone;
    }

    /** The part of `reserveForAgentTransfer` that runs under the lock. A rejection changes
        nothing; an admission adds one active reservation, raises usage by exactly the amount
        and leaves every set limit respected. */
    method ReserveForAgentTransfer(id: Id, key: LimitKey, amount: nat, now: Instant, written: Instant)
      returns (r: Result<AssetLimitReservation, Failure>)
      requires db.Valid() && id !in db.reservations
      modifies db
      ensures db.Valid()
      ensures r.Err? ==> db.Contents() == old(db.Contents())
      ensures key !in TARGETS ==> r.Err? && IsUnsupported(r.error, key)
      ensures key in TARGETS ==>
        forall daily, weekly, monthly | AreLimits(old(db.policies), key, daily, weekly, monthly) ::
          Answers(r, old(db.reservations), daily, weekly, monthly, id, key, amount, GetAssetLimitWindowBoundaries(zone, now), written)
      ensures Supported(key) ==> r == Answer(old(db.Contents()), id, key, amount, GetAssetLimitWindowBoundaries(zone, now), written)
      ensures r.Ok? ==> db.Contents() == old(db.Contents()).(reservations := old(db.reservations)[id := r.value])
      ensures r.Ok? ==> forall window: LimitWindow ::
        var b := GetAssetLimitWindowBoundaries(zone, now);
        && UsedNow(db.Contents(), key, window, b) == old(UsedNow(db.Contents(), key, window, b)) + amount
        && (LimitOf(PolicyOf(db.policies, key), window).Some? ==>
              UsedNow(db.Contents(), key, window, b) <= LimitOf(PolicyOf(db.policies, key), window).value)
    {
      hide GetAssetLimitWindowBoundaries, EvaluateLimitExceedance, TableTotals, Used, Answers, LimitFailure;
      forall daily, weekly, monthly | AreLimits(db.policies, key, daily, weekly, monthly)
        ensures Answers(Answer(db.Contents(), id, key, amount, GetAssetLimitWindowBoundaries(zone, now), written), db.reservations,
                        daily, weekly, monthly, id, key, amount, GetAssetLimitWindowBoundaries(zone, now), written)
      {
        VerdictAnswers(db.Contents(), id, key, amount, GetAssetLimitWindowBoundaries(zone, now), written, daily, weekly, monthly);
      }
      if !Supported(key) {
        return Err(UnsupportedTarget(key));
      }
      var b := GetAssetLimitWindowBoundaries(zone, now);
      var policy := PolicyOf(db.policies, key);
      var rows := db.ListByChainAsset(key);
      var usage := CalculateUsageTotals(rows, b, key);
      TotalsMeasureTable(usage, rows, db.reservations, key, b);
      var detail := EvaluateLimitExceedance(key, amount, policy, usage, b);
      match detail {
        case Some(d) =>
          return Err(LimitFailure(d));
        case None =>
          var reservation := Reservation(id, key, amount, b, written);
          AdmissionRaisesUsage(db.Contents(), id, key, amount, b, written);
          db.SaveReservation(reservation);
          return Ok(reservation);
      }
    }

    method ConsumeReservation(id: Id, now: Instant)
      requires db.Valid()
      modifies db
      ensures db.Valid() && db.Contents() == Tables.ConsumeReservation(old(db.Contents()), id, now)
      ensures IsConsumed(old(db.reservations), db.reservations, id, now)
    {
      if id in db.reservations {
        db.SaveReservation(ConsumeAssetLimitReservation(db.reservations[id], now));
      }
    }

    method ReleaseReservation(id: Id, reason: string, now: Instant)
      requires db.Valid()
      modifies db
      ensures db.Valid() && db.Contents() == Tables.ReleaseReservation(old(db.Contents()), id, reason, now)
      ensures IsReleased(old(db.reservations), db.reservations, id, reason, now)
    {
      if id in db.reservations {
        db.SaveReservation(ReleaseAssetLimitReservation(db.reservations[id], reason, now));
      }
    }

    /** Saves the patched policy with its audit record and returns what the owner then sees. */
    method UpdatePolicy(key: LimitKey, patch: PolicyPatch, author: ActorRole, now: Instant)
      returns (r: Result<map<LimitWindow, WindowUsage>, Failure>)
      requires db.Valid() && forall k | k in db.policies :: db.policies[k].key == k
      modifies db
      ensures db.Valid() && forall k | k in db.policies :: db.policies[k].key == k
      ensures key !in TARGETS ==> r.Err? && IsUnsupported(r.error, key) && db.Contents() == old(db.Contents())
      ensures key in TARGETS ==>
        && db.Contents() == Tables.UpdatePolicy(old(db.Contents()), key, patch, author, now)
        && r.Ok? && IsOwnerEntry(r.value, db.Contents(), key, GetAssetLimitWindowBoundaries(zone, now))
        && db.transfers == old(db.transfers) && db.reservations == old(db.reservations)
        && key in db.policies && db.policies == old(db.policies)[key := db.policies[key]]
        && IsUpdated(old(db.policies), db.policies[key], key, patch, author, now)
        && db.audits == old(db.audits) + [LimitAudit(author, key, db.policies[key])]
    {
      hide GetAssetLimitWindowBoundaries, IsOwnerEntry;
      if !Supported(key) {
        return Err(UnsupportedTarget(key));
      }
      var next := NextPolicy(PolicyOf(db.policies, key), key, patch, author, now);
      db.SavePolicy(next);
      db.SaveAudit(LimitAudit(author, key, next));
      var entry := BuildOwnerEntry(key, GetAssetLimitWindowBoundaries(zone, now));
      return Ok(entry);
    }

    method BuildOwnerEntry(key: LimitKey, b: Boundaries) returns (entry: map<LimitWindow, WindowUsage>)
      requires db.Valid()
      ensures IsOwnerEntry(entry, db.Contents(), key, b)
    {
      hide Sum;
      var rows := db.ListByChainAsset(key);
      var usage := CalculateUsageTotals(rows, b, key);
      TotalsMeasureTable(usage, rows, db.reservations, key, b);
      var policy := PolicyOf(db.policies, key);
      entry := map[Daily := OwnerView(policy, usage, b, Daily),
                   Weekly := OwnerView(policy, usage, b, Weekly),
                   Monthly := OwnerView(policy, usage, b, Monthly)];
    }
  }

  /** A missing row stays missing, a CONSUMED one stays as it is, and any other becomes CONSUMED. */
  predicate IsConsumed(s: ReservationTable, t: ReservationTable, id: Id, now: Instant) {
    if id in s && s[id].status != CONSUMED
    then t == s[id := s[id].(status := CONSUMED, releaseReason := None, settledAt := Some(now), updatedAt := now)]
    else t == s
  }

  /** A missing row stays missing, a RELEASED one stays as it is, and any other becomes RELEASED. */
  predicate IsReleased(s: ReservationTable, t: ReservationTable, id: Id, reason: string, now: Instant) {
    if id in s && s[id].status != RELEASED
    then t == s[id := s[id].(status := RELEASED, releaseReason := Some(reason), settledAt := Some(now), updatedAt := now)]
    else t == s
  }

  /** A limit that is given is the limit from now on, none included; a limit left out stays. */
  predicate IsPatched(next: Option<nat>, before: Option<nat>, patch: Patch) {
    match patch
    case Set(limit) => next == limit
    case Keep => next == before
  }

  /** The policy the owner's update leaves, made if there was none. */
  predicate IsUpdated(policies: map<LimitKey, AssetLimitPolicy>, next: AssetLimitPolicy, key: LimitKey, patch: PolicyPatch,
                      author: ActorRole, now: Instant)
  {
    && next.key == key && next.updatedBy == author && next.updatedAt == now
    && if key in policies then
         && next.createdAt == policies[key].createdAt
         && IsPatched(next.dailyLimit, policies[key].dailyLimit, patch.daily)
         && IsPatched(next.weeklyLimit, policies[key].weeklyLimit, patch.weekly)
         && IsPatched(next.monthlyLimit, policies[key].monthlyLimit, patch.monthly)
       else
         && next.createdAt == now
         && IsPatched(next.dailyLimit, None, patch.daily)
         && IsPatched(next.weeklyLimit, None, patch.weekly)
         && IsPatched(next.monthlyLimit, None, patch.monthly)
  }

  /** One window as the owner is shown it. */
  predicate Shows(view: WindowUsage, window: LimitWindow, limit: Option<nat>, consumed: nat, reserved: nat, resetsAt: Instant) {
    && view.window == window && view.limitAmount == limit
    && view.consumedAmount == consumed && view.reservedAmount == reserved
    && view.effectiveUsedAmount == consumed + reserved
    && view.remainingAmount == (match limit
                                case None => None
                                case Some(l) => Some(if consumed + reserved < l then l - (consumed + reserved) else 0))
    && view.resetsAt == resetsAt
  }

  /** One view a window, all of the stored policy and reservations. */
  ghost predicate IsOwnerEntry(entry: map<LimitWindow, WindowUsage>, s: Store, key: LimitKey, b: Boundaries) {
    && entry.Keys == {Daily, Weekly, Monthly}
    && Shows(entry[Daily], Daily, if key in s.policies then s.policies[key].dailyLimit else None,
             Sum(s.reservations, Query(key, Daily, b.daily.start, {CONSUMED})),
             Sum(s.reservations, Query(key, Daily, b.daily.start, {ACTIVE})), b.daily.resetsAt)
    && Shows(entry[Weekly], Weekly, if key in s.policies then s.policies[key].weeklyLimit else None,
             Sum(s.reservations, Query(key, Weekly, b.weekly.start, {CONSUMED})),
             Sum(s.reservations, Query(key, Weekly, b.weekly.start, {ACTIVE})), b.weekly.resetsAt)
    && Shows(entry[Monthly], Monthly, if key in s.policies then s.policies[key].monthlyLimit else None,
             Sum(s.reservations, Query(key, Monthly, b.monthly.start, {CONSUMED})),
             Sum(s.reservations, Query(key, Monthly, b.monthly.start, {ACTIVE})), b.monthly.resetsAt)
  }

  lemma AdmissionRaisesUsage(s: Store, id: Id, key: LimitKey, amount: nat, b: Boundaries, now: Instant)
    requires id !in s.reservations && Verdict(s, key, amount, b).None?
    ensures var t := Tables.SaveReservation(s, Reservation(id, key, amount, b, now));
            forall window: LimitWindow ::
              && UsedNow(t, key, window, b) == UsedNow(s, key, window, b) + amount
              && (LimitOf(PolicyOf(s.policies, key), window).Some? ==>
                    UsedNow(t, key, window, b) <= LimitOf(PolicyOf(s.policies, key), window).value)
  {
    VerdictMeansRoom(s, key, amount, b);
    hide Verdict;
    forall window: LimitWindow
      ensures UsedNow(Tables.SaveReservation(s, Reservation(id, key, amount, b, now)), key, window, b)
           == UsedNow(s, key, window, b) + amount
    {
      SumUpdate(s.reservations, id, Reservation(id, key, amount, b, now), Query(key, window, b.Of(window).start, COUNTED));
    }
  }

  // --------------------------------------------------------------------- the transfer call

  /** How the awaited steps of one transfer call turn out. */
  datatype Weather = Weather(
    admission: Option<Failure>,
    broadcast: Result<string, Failure>,
    submission: Option<Failure>)

  /** The instants at which the call reads the clock. */
  datatype Times = Times(created: Instant, admitted: Instant, reserved: Instant, submitted: Instant, released: Instant, failed: Instant)

  /** The first step that fails decides how the call turns out. */
  predicate TurnsOut(r: Result<string, Failure>, weather: Weather, actor: ActorRole, rejection: Option<Failure>) {
    if actor == Agent && weather.admission.Some? then r == Err(weather.admission.value)
    else if actor == Agent && rejection.Some? then r == Err(rejection.value)
    else if weather.broadcast.Err? then r == weather.broadcast
    else if weather.submission.Some? then r == Err(weather.submission.value)
    else r == weather.broadcast
  }

  class TransferService {
    const db: WalletDatabase
    const limits: AssetLimitService

    constructor (db: WalletDatabase, limits: AssetLimitService)
      ensures this.db == db && this.limits == limits
    {
      this.db, this.limits := db, limits;
    }

    /** The try block after the operation is saved: admission for an agent, the chain, and the
        transaction that saves SUBMITTED. Returns the hash, or the error on its way to the catch
        block together with the `hasReservation` flag. */
    method Attempt(op: TransferOperation, weather: Weather, times: Times, ghost cfg: Config, ghost s: State)
      returns (r: Result<string, Failure>, hasReservation: bool, ghost events: seq<Event>, ghost t: State)
      requires db.Valid() && limits.db == db && s.store == db.Contents()
      requires op.operationId in s.calls && op.operationId !in db.reservations && Supported(op.key)
      requires s.calls[op.operationId] == Call(op, false, if op.actorRole == Agent then Admitting else Broadcasting)
      requires cfg.windows(times.admitted) == GetAssetLimitWindowBoundaries(limits.zone, times.admitted)
      modifies db
      ensures db.Valid() && Run(cfg, s, events, t) && t.store == db.Contents()
      ensures r.Ok? ==> t == s.(store := t.store, calls := s.calls - {op.operationId})
      ensures r.Err? ==>
        t == s.(store := t.store, calls := s.calls[op.operationId := Catch(Call(op, hasReservation, Broadcasting), r.error)])
      ensures r.Ok? ==>
        && weather.broadcast == r && weather.submission.None?
        && db.transfers == old(db.transfers)[op.operationId := MarkTransferSubmitted(op, r.value, times.submitted)]
      ensures r.Err? ==> db.transfers == old(db.transfers)
      ensures hasReservation ==> op.actorRole == Agent
      ensures r.Ok? ==> hasReservation == (op.actorRole == Agent)
      ensures db.reservations == if hasReservation
        then old(db.reservations)[op.operationId :=
          Reservation(op.operationId, op.key, op.requestedAmount, GetAssetLimitWindowBoundaries(limits.zone, times.admitted), times.reserved)]
        else old(db.reservations)
      ensures db.policies == old(db.policies)
      ensures var rejection := Rejection(old(db.Contents()), op.key, op.requestedAmount, GetAssetLimitWindowBoundaries(limits.zone, times.admitted));
              && TurnsOut(r, weather, op.actorRole, rejection)
              && (hasReservation <==> op.actorRole == Agent && weather.admission.None? && rejection.None?)
      ensures db.audits == if r.Ok? then old(db.audits) + [TransferAudit(op.actorRole, TransferAction(op.key), SUCCESS, op.operationId)]
                           else old(db.audits)
    {
      hide GetAssetLimitWindowBoundaries, Run, Catch, Reservation, MarkTransferSubmitted, Rejection;
      hasReservation, events, t := false, [], s;
      RunNothing(cfg, s);
      if op.actorRole == Agent {
        var failure: Option<Failure>;
        failure, events, t := Admission(op, weather, times, cfg, s);
        if failure.Some? {
          return Err(failure.value), false, events, t;
        }
        hasReservation := true;
      }
      r, events, t := Broadcast(op, hasReservation, weather, times, cfg, s, events, t);
    }

    /** Admission of an agent's amount. */
    method Admission(op: TransferOperation, weather: Weather, times: Times, ghost cfg: Config, ghost s: State)
      returns (failure: Option<Failure>, ghost events: seq<Event>, ghost t: State)
      requires db.Valid() && limits.db == db && s.store == db.Contents()
      requires op.operationId in s.calls && op.operationId !in db.reservations && Supported(op.key)
      requires s.calls[op.operationId] == Call(op, false, Admitting)
      requires cfg.windows(times.admitted) == GetAssetLimitWindowBoundaries(limits.zone, times.admitted)
      modifies db
      ensures db.Valid() && Run(cfg, s, events, t) && t.store == db.Contents()
      ensures failure.Some? ==>
        && db.Contents() == old(db.Contents())
        && t == s.(calls := s.calls[op.operationId := Catch(Call(op, false, Broadcasting), failure.value)])
      ensures failure.None? ==>
        && t == s.(store := t.store, calls := s.calls[op.operationId := Call(op, true, Broadcasting)])
        && db.transfers == old(db.transfers) && db.policies == old(db.policies)
        && db.reservations == old(db.reservations)[op.operationId :=
             Reservation(op.operationId, op.key, op.requestedAmount, GetAssetLimitWindowBoundaries(limits.zone, times.admitted), times.reserved)]
        && db.audits == old(db.audits)
      ensures failure == if weather.admission.Some? then weather.admission
        else Rejection(old(db.Contents()), op.key, op.requestedAmount, GetAssetLimitWindowBoundaries(limits.zone, times.admitted))
    {
      hide GetAssetLimitWindowBoundaries, Run, Verdict, Used, Answers, LimitFailure;
      var id := op.operationId;
      RunNothing(cfg, s);
      if weather.admission.Some? {
        failure := weather.admission;
        RunThen(cfg, s, [], s, AdmitThrows(id, failure.value));
        return failure, [] + [AdmitThrows(id, failure.value)], Throw(s, id, failure.value);
      }
      var admitted := limits.ReserveForAgentTransfer(id, op.key, op.requestedAmount, times.admitted, times.reserved);
      RunThen(cfg, s, [], s, Admit(id, times.admitted, times.reserved));
      events, t := [] + [Admit(id, times.admitted, times.reserved)], TryAdmit(s, id, cfg.windows(times.admitted), times.reserved);
      failure := if admitted.Err? then Some(admitted.error) else None;
    }

    /** The chain and the transaction that follows it. */
    method Broadcast(op: TransferOperation, hasReservation: bool, weather: Weather, times: Times,
                     ghost cfg: Config, ghost s: State, ghost before: seq<Event>, ghost m: State)
      returns (r: Result<string, Failure>, ghost events: seq<Event>, ghost t: State)
      requires db.Valid() && m.store == db.Contents() && Run(cfg, s, before, m)
      requires op.operationId in m.calls && m.calls[op.operationId] == Call(op, hasReservation, Broadcasting)
      modifies db
      ensures db.Valid() && Run(cfg, s, events, t) && t.store == db.Contents()
      ensures db.reservations == old(db.reservations) && db.policies == old(db.policies)
      ensures r == if weather.broadcast.Ok? && weather.submission.Some? then Err(weather.submission.value) else weather.broadcast
      ensures db.audits == if r.Ok? then old(db.audits) + [TransferAudit(op.actorRole, TransferAction(op.key), SUCCESS, op.operationId)]
                           else old(db.audits)
      ensures r.Ok? ==>
        && weather.broadcast == r && weather.submission.None?
        && t == m.(store := t.store, calls := m.calls - {op.operationId})
        && db.transfers == old(db.transfers)[op.operationId := MarkTransferSubmitted(op, r.value, times.submitted)]
      ensures r.Err? ==>
        && t == m.(calls := m.calls[op.operationId := Catch(Call(op, hasReservation, Broadcasting), r.error)])
        && db.Contents() == old(db.Contents())
    {
      hide Run;
      var id := op.operationId;
      match weather.broadcast {
        case Err(failure) =>
          RunThen(cfg, s, before, m, BroadcastThrows(id, failure));
          return Err(failure), before + [BroadcastThrows(id, failure)], Throw(m, id, failure);
        case Ok(txHash) =>
          ghost var sent := HoldHash(m, id, txHash);
          RunThen(cfg, s, before, m, BroadcastReturns(id, txHash));
          events := before + [BroadcastReturns(id, txHash)];
          if weather.submission.Some? {
            var failure := weather.submission.value;
            RunThen(cfg, s, events, sent, SaveSubmittedThrows(id, failure));
            return Err(failure), events + [SaveSubmittedThrows(id, failure)], Throw(sent, id, failure);
          }
          var submitted := MarkTransferSubmitted(op, txHash, times.submitted);
          db.CommitTransfer(submitted, op.actorRole, TransferAction(op.key), SUCCESS);
          RunThen(cfg, s, events, sent, SaveSubmitted(id, times.submitted));
          return Ok(txHash), events + [SaveSubmitted(id, times.submitted)], CommitSubmitted(sent, id, times.submitted);
      }
    }

    /** The catch block: give the reservation back, then save the failure. */
    method HandleFailure(op: TransferOperation, failure: Failure, hasReservation: bool, times: Times,
                         ghost cfg: Config, ghost s: State, ghost before: seq<Event>, ghost m: State)
      returns (ghost events: seq<Event>, ghost t: State)
      requires db.Valid() && limits.db == db && m.store == db.Contents() && Run(cfg, s, before, m)
      requires op.operationId in m.calls
      requires m.calls[op.operationId] == Catch(Call(op, hasReservation, Broadcasting), failure)
      modifies db
      ensures db.Valid() && Run(cfg, s, events, t)
      ensures t == m.(store := db.Contents(), calls := m.calls - {op.operationId})
      ensures db.transfers == old(db.transfers)[op.operationId :=
        MarkTransferFailed(op, failure.code, failure.message, Some(failure.limit), times.failed)]
      ensures if hasReservation
              then IsReleased(old(db.reservations), db.reservations, op.operationId, "transfer_failed:" + TransferAction(op.key), times.released)
              else db.reservations == old(db.reservations)
      ensures db.policies == old(db.policies)
      ensures db.audits == old(db.audits) + [TransferAudit(op.actorRole, TransferAction(op.key), AUDIT_FAILED, op.operationId)]
    {
      hide Run;
      var id := op.operationId;
      events, t := before, m;
      if hasReservation {
        limits.ReleaseReservation(id, "transfer_failed:" + TransferAction(op.key), times.released);
        RunThen(cfg, s, events, t, Compensate(id, times.released));
        events, t := events + [Compensate(id, times.released)], ReleaseInCatch(t, id, times.released);
      }
      var failed := MarkTransferFailed(op, failure.code, failure.message, Some(failure.limit), times.failed);
      db.CommitTransfer(failed, op.actorRole, TransferAction(op.key), AUDIT_FAILED);
      RunThen(cfg, s, events, t, SaveFailed(id, times.failed));
      events, t := events + [SaveFailed(id, times.failed)], CommitCallFailed(t, id, times.failed);
    }

    /** The try and catch blocks together. */
    method TryAndCatch(op: TransferOperation, weather: Weather, times: Times, ghost cfg: Config, ghost s: State)
      returns (r: Result<string, Failure>, ghost events: seq<Event>)
      requires db.Valid() && limits.db == db && s.store == db.Contents()
      requires op.operationId in s.calls && op.operationId !in db.reservations && Supported(op.key)
      requires s.calls[op.operationId] == Call(op, false, if op.actorRole == Agent then Admitting else Broadcasting)
      requires cfg.windows(times.admitted) == GetAssetLimitWindowBoundaries(limits.zone, times.admitted)
      modifies db
      ensures db.Valid() && Run(cfg, s, events, s.(store := db.Contents(), calls := s.calls - {op.operationId}))
      ensures r.Ok? ==>
        && weather.broadcast == r
        && db.transfers == old(db.transfers)[op.operationId := MarkTransferSubmitted(op, r.value, times.submitted)]
        && db.reservations == if op.actorRole == Agent
             then old(db.reservations)[op.operationId :=
               Reservation(op.operationId, op.key, op.requestedAmount, GetAssetLimitWindowBoundaries(limits.zone, times.admitted), times.reserved)]
             else old(db.reservations)
      ensures r.Err? ==>
        && db.transfers == old(db.transfers)[op.operationId :=
             MarkTransferFailed(op, r.error.code, r.error.message, Some(r.error.limit), times.failed)]
        && forall k, window, start :: Used(db.reservations, k, window, start) == old(Used(db.reservations, k, window, start))
      ensures db.policies == old(db.policies)
      ensures db.audits == old(db.audits)
                           + [TransferAudit(op.actorRole, TransferAction(op.key), if r.Ok? then SUCCESS else AUDIT_FAILED, op.operationId)]
      ensures var b := GetAssetLimitWindowBoundaries(limits.zone, times.admitted);
              var rejection := Rejection(old(db.Contents()), op.key, op.requestedAmount, b);
              && TurnsOut(r, weather, op.actorRole, rejection)
              && (r.Err? ==>
                    if op.actorRole == Agent && weather.admission.None? && rejection.None?
                    then IsGivenBack(old(db.reservations), db.reservations, op.operationId, op.key, op.requestedAmount, b, times)
                    else db.reservations == old(db.reservations))
    {
      hide GetAssetLimitWindowBoundaries, Run, Used, Apply, Enabled, MarkTransferSubmitted, MarkTransferFailed, Rejection, TurnsOut,
        TransferAction, Reservation, IsReleased, IsGivenBack, Catch;
      var hasReservation: bool;
      ghost var t: State;
      r, hasReservation, events, t := Attempt(op, weather, times, cfg, s);
      if r.Err? {
        ghost var table := old(db.reservations);
        events, t := HandleFailure(op, r.error, hasReservation, times, cfg, s, events, t);
        if hasReservation {
          ghost var b := GetAssetLimitWindowBoundaries(limits.zone, times.admitted);
          GivenBack(table, db.reservations, op.operationId, op.key, op.requestedAmount, b, times);
          UsageRestored(table, db.reservations, op.operationId, op.key, op.requestedAmount, b, times);
        }
      }
      assert t == s.(store := db.Contents(), calls := s.calls - {op.operationId});
    }

    /** One whole call with nothing interleaved. It is a run of the transition system that
        leaves no call behind. Either the operation ends SUBMITTED with the hash the chain
        returned and, for an agent, an active reservation of its amount; or it ends FAILED with
        the code of the error and usage is what it was before, in every window of every key. */
    method Execute(id: Id, actor: ActorRole, key: LimitKey, target: TransferTarget, amount: nat, weather: Weather,
                   times: Times, ghost cfg: Config, ghost s: State)
      returns (r: Result<string, Failure>, ghost events: seq<Event>)
      requires db.Valid() && limits.db == db && s.store == db.Contents() && Sound(s)
      requires id !in db.transfers && actor != System && Supported(key) && amount > 0
      requires cfg.windows(times.admitted) == GetAssetLimitWindowBoundaries(limits.zone, times.admitted)
      modifies db
      ensures db.Valid() && Run(cfg, s, events, s.(store := db.Contents()))
      ensures match r
              case Ok(txHash) =>
                && weather.broadcast == Ok(txHash)
                && db.transfers == old(db.transfers)[id := TransferOperation(
                     operationId := id, actorRole := actor, key := key, target := target, requestedAmount := amount,
                     createdAt := times.created, status := SUBMITTED, txHash := Some(txHash), errorCode := None, errorMessage := None,
                     submittedAt := Some(times.submitted), confirmedAt := None, failedAt := None, limitSnapshot := None,
                     updatedAt := times.submitted)]
              case Err(failure) =>
                && db.transfers == old(db.transfers)[id := TransferOperation(
                     operationId := id, actorRole := actor, key := key, target := target, requestedAmount := amount,
                     createdAt := times.created, status := FAILED, txHash := None,
                     errorCode := Some(failure.code), errorMessage := Some(failure.message),
                     submittedAt := None, confirmedAt := None, failedAt := Some(times.failed), limitSnapshot := failure.limit,
                     updatedAt := times.failed)]
                && forall k, window, start :: Used(db.reservations, k, window, start) == old(Used(db.reservations, k, window, start))
      ensures var action := match key.asset
                            case CKB => "nervos.transfer_ckb"
                            case ETH => "ethereum.transfer_eth"
                            case USDT => "ethereum.transfer_usdt"
                            case USDC => "ethereum.transfer_usdc";
              db.audits == old(db.audits) + [TransferAudit(actor, action, if r.Ok? then SUCCESS else AUDIT_FAILED, id)]
      ensures db.policies == old(db.policies)
      ensures ComesOut(r, old(db.Contents()), db.reservations, id, actor, key, amount, weather, times,
                       GetAssetLimitWindowBoundaries(limits.zone, times.admitted))
    {
      hide GetAssetLimitWindowBoundaries, Run, Used, Apply, Enabled, Sound, Reservation, MarkTransferSubmitted, MarkTransferFailed,
        Rejection, ComesOut, TurnsOut, IsGivenBack, TransferAction;
      NewIdIsNowhere(s, id);
      ActionTexts(key);
      var op := CreateTransferOperation(id, actor, key, target, amount, times.created);
      db.SaveTransfer(op);
      ghost var start := StartTransfer(id, actor, key, target, amount, times.created);
      ghost var started := StartCall(s, op);
      MayStart(s, start);
      Started(s, op);
      hide StartCall, Run;
      SameRejection(s.store, started.store, key, amount, GetAssetLimitWindowBoundaries(limits.zone, times.admitted));
      r, events := TryAndCatch(op, weather, times, cfg, started);
      TurnedOut(r, s.store, db.reservations, id, actor, key, amount, weather, times, GetAssetLimitWindowBoundaries(limits.zone, times.admitted));
      RowOverwritten(s.store.transfers, id, op, db.transfers);
      if r.Ok? {
        StoredSubmitted(id, actor, key, target, amount, r.value, times);
      } else {
        StoredFailed(id, actor, key, target, amount, r.error, times);
      }
      WholeRun(cfg, s, start, events, db.Contents());
      events := [start] + events;
    }
  }

  lemma MayStart(s: State, e: Event)
    requires e.StartTransfer? && e.id !in s.store.transfers && e.actor != System && Supported(e.key) && e.amount > 0
    ensures Enabled(s, e)
  {
  }

  lemma Started(s: State, op: TransferOperation)
    ensures var t := StartCall(s, op);
            && t.store == SaveTransfer(s.store, op) && op.operationId in t.calls
            && t.calls[op.operationId] == Call(op, false, if op.actorRole == Agent then Admitting else Broadcasting)
            && (op.operationId !in s.calls ==> forall store :: t.(store := store, calls := t.calls - {op.operationId}) == s.(store := store))
  {
    if op.operationId !in s.calls {
      assert StartCall(s, op).calls - {op.operationId} == s.calls;
    }
  }

  lemma WholeRun(cfg: Config, s: State, start: Event, rest: seq<Event>, store: Store)
    requires start.StartTransfer? && Enabled(s, start) && start.id !in s.calls
    requires var started := StartCall(s, CreateTransferOperation(start.id, start.actor, start.key, start.target, start.amount, start.now));
             Run(cfg, started, rest, started.(store := store, calls := started.calls - {start.id}))
    ensures Run(cfg, s, [start] + rest, s.(store := store))
  {
    var op := CreateTransferOperation(start.id, start.actor, start.key, start.target, start.amount, start.now);
    StartRuns(cfg, s, start);
    Started(s, op);
    hide Run, StartCall, Enabled;
    RunConcat(cfg, s, [start], StartCall(s, op), rest, s.(store := store));
  }

  lemma StartRuns(cfg: Config, s: State, e: Event)
    requires e.StartTransfer? && Enabled(s, e)
    ensures Run(cfg, s, [e], StartCall(s, CreateTransferOperation(e.id, e.actor, e.key, e.target, e.amount, e.now)))
  {
    RunNothing(cfg, s);
    RunThen(cfg, s, [], s, e);
    assert [] + [e] == [e];
  }

  lemma RunNothing(cfg: Config, s: State)
    ensures Run(cfg, s, [], s)
  {
  }

  /** All that is left of a reservation that was made and released again: its row. */
  predicate IsGivenBack(s: ReservationTable, t: ReservationTable, id: Id, key: LimitKey, amount: nat, b: Boundaries, times: Times) {
    t == s[id := AssetLimitReservation(
      operationId := id, key := key, amount := amount,
      dailyWindowStart := b.daily.start, weeklyWindowStart := b.weekly.start, monthlyWindowStart := b.monthly.start,
      createdAt := times.reserved, status := RELEASED,
      releaseReason := Some("transfer_failed:" + match key.asset
                                                 case CKB => "nervos.transfer_ckb"
                                                 case ETH => "ethereum.transfer_eth"
                                                 case USDT => "ethereum.transfer_usdt"
                                                 case USDC => "ethereum.transfer_usdc"),
      settledAt := Some(times.released), updatedAt := times.released)]
  }

  lemma GivenBack(table: ReservationTable, after: ReservationTable, id: Id, key: LimitKey, amount: nat, b: Boundaries, times: Times)
    requires var mid := table[id := Reservation(id, key, amount, b, times.reserved)];
             IsReleased(mid, after, id, "transfer_failed:" + TransferAction(key), times.released)
    ensures IsGivenBack(table, after, id, key, amount, b, times)
  {
    var mid := table[id := Reservation(id, key, amount, b, times.reserved)];
    assert mid[id := after[id]] == table[id := after[id]];
  }

  /** Reserving and releasing again leaves usage as it was. */
  lemma UsageRestored(table: ReservationTable, after: ReservationTable, id: Id, key: LimitKey, amount: nat, b: Boundaries, times: Times)
    requires id !in table && IsGivenBack(table, after, id, key, amount, b, times)
    ensures forall k, window, start :: Used(after, k, window, start) == Used(table, k, window, start)
  {
    var released := after[id];
    forall k, window, start ensures Used(after, k, window, start) == Used(table, k, window, start) {
      SumUpdate(table, id, released, Query(k, window, start, COUNTED));
    }
  }

  /** How a call ends: by the first step that fails, with the reservation the check allows if it
      goes out, and with that reservation given back if it was made in vain. */
  ghost predicate ComesOut(r: Result<string, Failure>, before: Store, after: ReservationTable, id: Id, actor: ActorRole, key: LimitKey,
                           amount: nat, weather: Weather, times: Times, b: Boundaries)
  {
    forall daily, weekly, monthly, answer
      | AreLimits(before.policies, key, daily, weekly, monthly)
        && Answers(answer, before.reservations, daily, weekly, monthly, id, key, amount, b, times.reserved) ::
      && TurnsOut(r, weather, actor, if answer.Err? then Some(answer.error) else None)
      && (r.Ok? ==>
            if actor == Agent then answer.Ok? && after == before.reservations[id := answer.value] else after == before.reservations)
      && (r.Err? ==>
            if actor == Agent && weather.admission.None? && answer.Ok?
            then IsGivenBack(before.reservations, after, id, key, amount, b, times)
            else after == before.reservations)
  }

  lemma TurnedOut(r: Result<string, Failure>, before: Store, after: ReservationTable, id: Id, actor: ActorRole, key: LimitKey,
                  amount: nat, weather: Weather, times: Times, b: Boundaries)
    requires var rejection := Rejection(before, key, amount, b);
             && TurnsOut(r, weather, actor, rejection)
             && (r.Ok? ==> after == if actor == Agent then before.reservations[id := Reservation(id, key, amount, b, times.reserved)]
                                    else before.reservations)
             && (r.Err? ==> if actor == Agent && weather.admission.None? && rejection.None?
                            then IsGivenBack(before.reservations, after, id, key, amount, b, times)
                            else after == before.reservations)
    ensures ComesOut(r, before, after, id, actor, key, amount, weather, times, b)
  {
    hide Answers, AreLimits, Rejection, IsGivenBack, Reservation;
    OneAnswer(before, id, key, amount, b, times.reserved);
  }

  lemma RowOverwritten(before: map<Id, TransferOperation>, id: Id, op: TransferOperation, after: map<Id, TransferOperation>)
    requires id in after && after == before[id := op][id := after[id]]
    ensures after == before[id := after[id]]
  {
  }

  lemma ActionTexts(key: LimitKey)
    ensures TransferAction(key) == match key.asset
                                   case CKB => "nervos.transfer_ckb"
                                   case ETH => "ethereum.transfer_eth"
                                   case USDT => "ethereum.transfer_usdt"
                                   case USDC => "ethereum.transfer_usdc"
  {
  }

  lemma SameRejection(s: Store, t: Store, key: LimitKey, amount: nat, b: Boundaries)
    requires t.policies == s.policies && t.reservations == s.reservations
    ensures Rejection(t, key, amount, b) == Rejection(s, key, amount, b)
  {
  }

  lemma StoredSubmitted(id: Id, actor: ActorRole, key: LimitKey, target: TransferTarget, amount: nat, txHash: string, times: Times)
    ensures MarkTransferSubmitted(CreateTransferOperation(id, actor, key, target, amount, times.created), txHash, times.submitted)
         == TransferOperation(
              operationId := id, actorRole := actor, key := key, target := target, requestedAmount := amount,
              createdAt := times.created, status := SUBMITTED, txHash := Some(txHash), errorCode := None, errorMessage := None,
              submittedAt := Some(times.submitted), confirmedAt := None, failedAt := None, limitSnapshot := None,
              updatedAt := times.submitted)
  {
  }

  lemma StoredFailed(id: Id, actor: ActorRole, key: LimitKey, target: TransferTarget, amount: nat, failure: Failure, times: Times)
    ensures MarkTransferFailed(CreateTransferOperation(id, actor, key, target, amount, times.created),
                               failure.code, failure.message, Some(failure.limit), times.failed)
         == TransferOperation(
              operationId := id, actorRole := actor, key := key, target := target, requestedAmount := amount,
              createdAt := times.created, status := FAILED, txHash := None,
              errorCode := Some(failure.code), errorMessage := Some(failure.message),
              submittedAt := None, confirmedAt := None, failedAt := Some(times.failed), limitSnapshot := failure.limit,
              updatedAt := times.failed)
  {
  }

  /** There is one answer. */
  lemma OneAnswer(s: Store, id: Id, key: LimitKey, amount: nat, b: Boundaries, written: Instant)
    ensures forall daily, weekly, monthly, answer
      | AreLimits(s.policies, key, daily, weekly, monthly) && Answers(answer, s.reservations, daily, weekly, monthly, id, key, amount, b, written) ::
      && (answer.Err? <==> Rejection(s, key, amount, b).Some?)
      && (answer.Err? ==> Rejection(s, key, amount, b) == Some(answer.error))
      && (answer.Ok? ==> answer.value == Reservation(id, key, amount, b, written))
  {
    hide Answers, AreLimits, Rejection, LimitFailure, Reservation;
    forall daily, weekly, monthly, answer
      | AreLimits(s.policies, key, daily, weekly, monthly) && Answers(answer, s.reservations, daily, weekly, monthly, id, key, amount, b, written)
      ensures (answer.Err? <==> Rejection(s, key, amount, b).Some?)
      ensures (answer.Err? ==> Rejection(s, key, amount, b) == Some(answer.error))
      ensures (answer.Ok? ==> answer.value == Reservation(id, key, amount, b, written))
    {
      VerdictAnswers(s, id, key, amount, b, written, daily, weekly, monthly);
      AnswersAgree(s.reservations, daily, weekly, monthly, id, key, amount, b, written, answer,
                   Answer(s, id, key, amount, b, written));
    }
  }

  lemma AnswersAgree(table: ReservationTable, daily: Option<nat>, weekly: Option<nat>, monthly: Option<nat>, id: Id, key: LimitKey,
                     amount: nat, b: Boundaries, written: Instant,
                     x: Result<AssetLimitReservation, Failure>, y: Result<AssetLimitReservation, Failure>)
    requires Answers(x, table, daily, weekly, monthly, id, key, amount, b, written)
    requires Answers(y, table, daily, weekly, monthly, id, key, amount, b, written)
    ensures x == y
  {
    hide Used;
  }
}
