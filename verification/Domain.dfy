/** The records the wallet stores and the functions that create and transform them. */
module Domain {
  import opened Wrappers

  type Id = string
  type Instant = int

  datatype ActorRole = Agent | Owner | System
  datatype ChainKind = Ckb | Evm
  datatype AssetKind = CKB | ETH | USDT | USDC
  datatype LimitWindow = Daily | Weekly | Monthly

  /** The key of a spending limit, and of the promise queue that guards it. */
  datatype LimitKey = LimitKey(chain: ChainKind, asset: AssetKind)

  /** The four pairs a limit can be set for. */
  predicate Supported(key: LimitKey) {
    match key.chain
    case Ckb => key.asset == CKB
    case Evm => key.asset != CKB
  }

  // ---------------------------------------------------------------- transfer operations

  datatype TransferStatus = RESERVED | SUBMITTED | CONFIRMED | FAILED

  datatype TransferTarget =
    | Address(input: string, resolved: string)
    | ContactName(input: string, resolved: string, name: string)

  /** What an over-limit rejection tells the caller. */
  datatype LimitDetail = LimitDetail(
    key: LimitKey, window: LimitWindow, limitAmount: nat, usedAmount: nat,
    requestedAmount: nat, remainingAmount: nat, resetsAt: Instant)

  /** An error on its way to a catch block: its code, its text and, when a limit caused it,
      the limit. */
  datatype Failure = Failure(code: string, message: string, limit: Option<LimitDetail>)

  datatype TransferOperation = TransferOperation(
    operationId: Id,
    actorRole: ActorRole,
    key: LimitKey,
    target: TransferTarget,
    requestedAmount: nat,
    createdAt: Instant,
    status: TransferStatus,
    txHash: Option<string>,
    errorCode: Option<string>,
    errorMessage: Option<string>,
    submittedAt: Option<Instant>,
    confirmedAt: Option<Instant>,
    failedAt: Option<Instant>,
    limitSnapshot: Option<LimitDetail>,
    updatedAt: Instant)
  {
    predicate Terminal() {
      status == CONFIRMED || status == FAILED
    }

    predicate Pending() {
      status == RESERVED || status == SUBMITTED
    }

    /** An AGENT operation that has been handed to the chain and not been written off. */
    predicate Outgoing() {
      actorRole == Agent && (status == SUBMITTED || status == CONFIRMED)
    }
  }

  function CreateTransferOperation(id: Id, actor: ActorRole, key: LimitKey, target: TransferTarget,
                                   amount: nat, now: Instant): TransferOperation
  {
    TransferOperation(id, actor, key, target, amount, now, RESERVED,
                      None, None, None, None, None, None, None, now)
  }

  function MarkTransferSubmitted(op: TransferOperation, txHash: string, now: Instant): TransferOperation {
    op.(txHash := Some(txHash), status := SUBMITTED, errorCode := None, errorMessage := None,
        submittedAt := Some(op.submittedAt.GetOr(now)), failedAt := None, updatedAt := now)
  }

  function MarkTransferConfirmed(op: TransferOperation, now: Instant): TransferOperation {
    op.(status := CONFIRMED, errorCode := None, errorMessage := None,
        confirmedAt := Some(now), failedAt := None, updatedAt := now)
  }

  /** `limit` is absent when the caller leaves the limit context out, as settlement does; the
      transfer call always passes one, possibly empty. */
  function MarkTransferFailed(op: TransferOperation, code: string, message: string,
                              limit: Option<Option<LimitDetail>>, now: Instant): TransferOperation
  {
    op.(status := FAILED, errorCode := Some(code), errorMessage := Some(message),
        confirmedAt := None, failedAt := Some(now),
        limitSnapshot := limit.GetOr(op.limitSnapshot), updatedAt := now)
  }

  /** The fields no transformer may touch. */
  predicate SameTransfer(a: TransferOperation, b: TransferOperation) {
    && a.operationId == b.operationId
    && a.actorRole == b.actorRole
    && a.key == b.key
    && a.target == b.target
    && a.requestedAmount == b.requestedAmount
    && a.createdAt == b.createdAt
  }

  /** Which optional fields each status carries. */
  predicate WellFormed(op: TransferOperation) {
    && (op.txHash.Some? <==> op.submittedAt.Some?)
    && (op.errorCode.Some? <==> op.errorMessage.Some?)
    && (op.status == RESERVED ==> op.txHash.None?)
    && (op.status == SUBMITTED || op.status == CONFIRMED ==> op.txHash.Some?)
    && (op.confirmedAt.Some? <==> op.status == CONFIRMED)
    && (op.failedAt.Some? <==> op.status == FAILED)
    && (op.errorCode.Some? <==> op.status == FAILED)
    && (op.limitSnapshot.Some? ==> op.status == FAILED)
  }

  // ---------------------------------------------------------------------- reservations

  datatype ReservationStatus = ACTIVE | CONSUMED | RELEASED

  datatype AssetLimitReservation = AssetLimitReservation(
    operationId: Id,
    key: LimitKey,
    amount: nat,
    dailyWindowStart: Instant,
    weeklyWindowStart: Instant,
    monthlyWindowStart: Instant,
    createdAt: Instant,
    status: ReservationStatus,
    releaseReason: Option<string>,
    settledAt: Option<Instant>,
    updatedAt: Instant)
  {
    function WindowStart(window: LimitWindow): Instant {
      match window
      case Daily => dailyWindowStart
      case Weekly => weeklyWindowStart
      case Monthly => monthlyWindowStart
    }

    /** Released reservations no longer count against a limit. */
    predicate Counts() {
      status == ACTIVE || status == CONSUMED
    }
  }

  function CreateAssetLimitReservation(id: Id, key: LimitKey, amount: nat, daily: Instant,
                                       weekly: Instant, monthly: Instant, now: Instant): AssetLimitReservation
  {
    AssetLimitReservation(id, key, amount, daily, weekly, monthly, now, ACTIVE, None, None, now)
  }

  /** The transform `consumeReservation` applies: a consumed row is kept, any other row,
      a released one included, becomes consumed. */
  function ConsumeAssetLimitReservation(r: AssetLimitReservation, now: Instant): AssetLimitReservation {
    if r.status == CONSUMED then r
    else r.(status := CONSUMED, releaseReason := None, settledAt := Some(now), updatedAt := now)
  }

  /** The transform `releaseReservation` applies: a released row is kept, any other row,
      a consumed one included, becomes released. */
  function ReleaseAssetLimitReservation(r: AssetLimitReservation, reason: string, now: Instant): AssetLimitReservation {
    if r.status == RELEASED then r
    else r.(status := RELEASED, releaseReason := Some(reason), settledAt := Some(now), updatedAt := now)
  }

  predicate SameReservation(a: AssetLimitReservation, b: AssetLimitReservation) {
    && a.operationId == b.operationId
    && a.key == b.key
    && a.amount == b.amount
    && a.dailyWindowStart == b.dailyWindowStart
    && a.weeklyWindowStart == b.weeklyWindowStart
    && a.monthlyWindowStart == b.monthlyWindowStart
    && a.createdAt == b.createdAt
  }

  // --------------------------------------------------------------------------- policies

  datatype AssetLimitPolicy = AssetLimitPolicy(
    key: LimitKey,
    dailyLimit: Option<nat>,
    weeklyLimit: Option<nat>,
    monthlyLimit: Option<nat>,
    updatedBy: ActorRole,
    createdAt: Instant,
    updatedAt: Instant)
  {
    function Limit(window: LimitWindow): Option<nat> {
      match window
      case Daily => dailyLimit
      case Weekly => weeklyLimit
      case Monthly => monthlyLimit
    }
  }

  /** A field of a policy update: left out, or given, where a given value may clear the limit. */
  datatype Patch = Keep | Set(limit: Option<nat>)
  {
    function On(current: Option<nat>): Option<nat> {
      match this
      case Keep => current
      case Set(limit) => limit
    }
  }

  datatype PolicyPatch = PolicyPatch(daily: Patch, weekly: Patch, monthly: Patch)

  /** Creates the policy on first use and patches it afterwards. */
  function NextPolicy(current: Option<AssetLimitPolicy>, key: LimitKey, patch: PolicyPatch,
                      author: ActorRole, now: Instant): AssetLimitPolicy
  {
    match current
    case Some(p) =>
      p.(dailyLimit := patch.daily.On(p.dailyLimit), weeklyLimit := patch.weekly.On(p.weeklyLimit),
         monthlyLimit := patch.monthly.On(p.monthlyLimit), updatedBy := author, updatedAt := now)
    case None =>
      AssetLimitPolicy(key, patch.daily.On(None), patch.weekly.On(None), patch.monthly.On(None), author, now, now)
  }

  // ---------------------------------------------------------------------------- audits

  datatype AuditResult = SUCCESS | AUDIT_FAILED

  datatype AuditLog =
    | TransferAudit(actorRole: ActorRole, action: string, result: AuditResult, operationId: Id)
    | LimitAudit(actorRole: ActorRole, key: LimitKey, next: AssetLimitPolicy)

  /** Every transformer keeps the identity of the record and, on the statuses its callers use
      it on, its shape. */
  lemma TransformersKeepShape(op: TransferOperation, txHash: string, code: string, message: string,
                              limit: Option<Option<LimitDetail>>, now: Instant)
    requires WellFormed(op)
    ensures op.status == RESERVED ==> WellFormed(MarkTransferSubmitted(op, txHash, now))
    ensures op.status == SUBMITTED ==> WellFormed(MarkTransferConfirmed(op, now))
    ensures op.Pending() ==> WellFormed(MarkTransferFailed(op, code, message, limit, now))
    ensures op.submittedAt.Some? ==> MarkTransferSubmitted(op, txHash, now).submittedAt == op.submittedAt
    ensures SameTransfer(op, MarkTransferSubmitted(op, txHash, now))
    ensures SameTransfer(op, MarkTransferConfirmed(op, now))
    ensures SameTransfer(op, MarkTransferFailed(op, code, message, limit, now))
  {
  }
}
