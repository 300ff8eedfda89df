/** The stored tables and the writes the services make to them. Each function is one save or
    one transaction. */
module Tables {
  import opened Wrappers
  import opened Domain
  import opened LimitWindows
  import opened Usage

  datatype Store = Store(
    transfers: map<Id, TransferOperation>,
    reservations: ReservationTable,
    policies: map<LimitKey, AssetLimitPolicy>,
    audits: seq<AuditLog>)

  function PolicyOf(policies: map<LimitKey, AssetLimitPolicy>, key: LimitKey): Option<AssetLimitPolicy> {
    if key in policies then Some(policies[key]) else None
  }

  function SaveTransfer(s: Store, op: TransferOperation): Store {
    s.(transfers := s.transfers[op.operationId := op])
  }

  /** An operation and the audit record about it, in one transaction. */
  function CommitTransfer(s: Store, op: TransferOperation, actor: ActorRole, action: string, result: AuditResult): Store {
    s.(transfers := s.transfers[op.operationId := op],
       audits := s.audits + [TransferAudit(actor, action, result, op.operationId)])
  }

  function SaveReservation(s: Store, r: AssetLimitReservation): Store {
    s.(reservations := s.reservations[r.operationId := r])
  }

  /** A missing reservation is left missing. */
  function ConsumeReservation(s: Store, id: Id, now: Instant): Store {
    if id !in s.reservations then s
    else s.(reservations := s.reservations[id := ConsumeAssetLimitReservation(s.reservations[id], now)])
  }

  function ReleaseReservation(s: Store, id: Id, reason: string, now: Instant): Store {
    if id !in s.reservations then s
    else s.(reservations := s.reservations[id := ReleaseAssetLimitReservation(s.reservations[id], reason, now)])
  }

  function UpdatePolicy(s: Store, key: LimitKey, patch: PolicyPatch, author: ActorRole, now: Instant): Store {
    var next := NextPolicy(PolicyOf(s.policies, key), key, patch, author, now);
    s.(policies := s.policies[key := next], audits := s.audits + [LimitAudit(author, key, next)])
  }

  /** The reservation a transfer admitted in the windows `b` gets. */
  function Reservation(id: Id, key: LimitKey, amount: nat, b: Boundaries, now: Instant): AssetLimitReservation {
    CreateAssetLimitReservation(id, key, amount, b.daily.start, b.weekly.start, b.monthly.start, now)
  }

  /** What the limit check answers on the stored policy and reservations. */
  ghost function Verdict(s: Store, key: LimitKey, amount: nat, b: Boundaries): Option<LimitDetail> {
    EvaluateLimitExceedance(key, amount, PolicyOf(s.policies, key), TableTotals(s.reservations, key, b), b)
  }

  /** The check passes exactly when the amount fits under every limit that is set. */
  lemma VerdictMeansRoom(s: Store, key: LimitKey, amount: nat, b: Boundaries)
    ensures Verdict(s, key, amount, b).None? <==>
            forall window: LimitWindow :: LimitOf(PolicyOf(s.policies, key), window).Some? ==>
              Used(s.reservations, key, window, b.Of(window).start) + amount <= LimitOf(PolicyOf(s.policies, key), window).value
  {
    hide TableTotals, Used;
    var policy, totals := PolicyOf(s.policies, key), TableTotals(s.reservations, key, b);
    forall window: LimitWindow
      ensures totals.Effective(window) == Used(s.reservations, key, window, b.Of(window).start)
    {
      EffectiveIsUsed(s.reservations, key, b, window);
    }
    FirstExceeded(key, amount, policy, totals, b);
  }

  /** There is a limit and the amount does not fit under it. */
  predicate NoRoom(limit: Option<nat>, used: nat, amount: nat) {
    limit.Some? && used + amount > limit.value
  }

  /** A window without room, as a rejection describes it. */
  predicate Describes(detail: LimitDetail, key: LimitKey, window: LimitWindow, limit: Option<nat>, used: nat, amount: nat, resetsAt: Instant) {
    && detail.key == key && detail.window == window
    && limit == Some(detail.limitAmount) && detail.usedAmount == used && detail.requestedAmount == amount
    && detail.remainingAmount == (if used < detail.limitAmount then detail.limitAmount - used else 0)
    && detail.resetsAt == resetsAt
  }

  /** The limits of a stored policy, or of none. */
  predicate AreLimits(policies: map<LimitKey, AssetLimitPolicy>, key: LimitKey, daily: Option<nat>, weekly: Option<nat>, monthly: Option<nat>) {
    if key in policies
    then policies[key].dailyLimit == daily && policies[key].weeklyLimit == weekly && policies[key].monthlyLimit == monthly
    else daily == None && weekly == None && monthly == None
  }

  /** The check looks at the day, the week and the month in turn, and describes the first window
      that has a limit and no room under it. */
  lemma VerdictInWords(s: Store, key: LimitKey, amount: nat, b: Boundaries, daily: Option<nat>, weekly: Option<nat>, monthly: Option<nat>)
    requires AreLimits(s.policies, key, daily, weekly, monthly)
    ensures var verdict := Verdict(s, key, amount, b);
            var day := Used(s.reservations, key, Daily, b.daily.start);
            var week := Used(s.reservations, key, Weekly, b.weekly.start);
            var month := Used(s.reservations, key, Monthly, b.monthly.start);
            if NoRoom(daily, day, amount)
            then verdict.Some? && Describes(verdict.value, key, Daily, daily, day, amount, b.daily.resetsAt)
            else if NoRoom(weekly, week, amount)
            then verdict.Some? && Describes(verdict.value, key, Weekly, weekly, week, amount, b.weekly.resetsAt)
            else if NoRoom(monthly, month, amount)
            then verdict.Some? && Describes(verdict.value, key, Monthly, monthly, month, amount, b.monthly.resetsAt)
            else verdict == None
  {
    hide TableTotals, Used;
    EffectiveIsUsed(s.reservations, key, b, Daily);
    EffectiveIsUsed(s.reservations, key, b, Weekly);
    EffectiveIsUsed(s.reservations, key, b, Monthly);
    hide UsageTotals.Effective;
  }

  lemma FirstExceeded(key: LimitKey, amount: nat, policy: Option<AssetLimitPolicy>, usage: UsageTotals, b: Boundaries)
    ensures EvaluateLimitExceedance(key, amount, policy, usage, b).None? <==>
            forall window: LimitWindow :: !Exceeds(amount, policy, usage, window)
  {
  }

  // ------------------------------------------------------------------------- conservation

  /** The amounts of one window by what has become of them. */
  ghost function Account(table: ReservationTable, q: Query, status: ReservationStatus): nat {
    Sum(table, q.In({status}))
  }

  /** Everything ever reserved in a window is reserved, consumed or released. */
  lemma CreatedIsAccountedFor(table: ReservationTable, q: Query)
    ensures Sum(table, q.In(ANY)) == Account(table, q, ACTIVE) + Account(table, q, CONSUMED) + Account(table, q, RELEASED)
    ensures Sum(table, q.In(COUNTED)) == Account(table, q, ACTIVE) + Account(table, q, CONSUMED)
  {
    hide Sum;
    SumSplit(table, q, {ACTIVE}, {CONSUMED});
    SumSplit(table, q, COUNTED, {RELEASED});
    assert {ACTIVE} + {CONSUMED} == COUNTED && COUNTED + {RELEASED} == ANY;
  }

  /** Admission opens the reserved account by the amount, and touches no other. */
  lemma AdmissionReserves(s: Store, id: Id, key: LimitKey, amount: nat, b: Boundaries, now: Instant, q: Query, status: ReservationStatus)
    requires id !in s.reservations
    ensures var after := SaveReservation(s, Reservation(id, key, amount, b, now)).reservations;
            Account(after, q, status) == Account(s.reservations, q, status)
              + if status == ACTIVE && q.key == key && q.start == b.Of(q.window).start then amount else 0
  {
    hide Sum;
    SumUpdate(s.reservations, id, Reservation(id, key, amount, b, now), q.In({status}));
  }

  /** Consuming and releasing move the row's amount from the account it was in to the consumed
      or the released one; the total reserved never changes. */
  lemma SettlementMoves(s: Store, id: Id, reason: string, now: Instant, q: Query, status: ReservationStatus)
    requires id in s.reservations
    ensures var row := s.reservations[id];
            var amount := Weight(row, q.In(ANY));
            var left := if status == row.status then amount else 0;
            && Account(ConsumeReservation(s, id, now).reservations, q, status) + left
               == Account(s.reservations, q, status) + (if status == CONSUMED then amount else 0)
            && Account(ReleaseReservation(s, id, reason, now).reservations, q, status) + left
               == Account(s.reservations, q, status) + (if status == RELEASED then amount else 0)
            && Sum(ConsumeReservation(s, id, now).reservations, q.In(ANY)) == Sum(s.reservations, q.In(ANY))
            && Sum(ReleaseReservation(s, id, reason, now).reservations, q.In(ANY)) == Sum(s.reservations, q.In(ANY))
  {
    hide Sum;
    var row := s.reservations[id];
    SumUpdate(s.reservations, id, ConsumeAssetLimitReservation(row, now), q.In({status}));
    SumUpdate(s.reservations, id, ReleaseAssetLimitReservation(row, reason, now), q.In({status}));
    SumUpdate(s.reservations, id, ConsumeAssetLimitReservation(row, now), q.In(ANY));
    SumUpdate(s.reservations, id, ReleaseAssetLimitReservation(row, reason, now), q.In(ANY));
  }

  // --------------------------------------------------------------------------------- texts

  function AssetName(asset: AssetKind): string {
    match asset
    case CKB => "CKB"
    case ETH => "ETH"
    case USDT => "USDT"
    case USDC => "USDC"
  }

  function WindowName(window: LimitWindow): string {
    match window
    case Daily => "daily"
    case Weekly => "weekly"
    case Monthly => "monthly"
  }

  function LimitFailure(detail: LimitDetail): Failure {
    Failure("ASSET_LIMIT_EXCEEDED",
            AssetName(detail.key.asset) + " " + WindowName(detail.window) + " limit exceeded", Some(detail))
  }

  /** The action a transfer is audited under. */
  function TransferAction(key: LimitKey): string {
    match key.asset
    case CKB => "nervos.transfer_ckb"
    case ETH => "ethereum.transfer_eth"
    case USDT => "ethereum.transfer_usdt"
    case USDC => "ethereum.transfer_usdc"
  }
}
