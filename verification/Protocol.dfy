/** The transfer protocol as a transition system: any number of transfer calls and settlement
    passes, interleaved at every point where the source awaits, over the stored tables.

    Every transfer call and every pass works from its own snapshots and writes blindly. One
    event is one save or one transaction together with the local computation around it; a pass
    reads no stored state between its listing and its writes, so examining an operation and
    committing the verdict is one event. */
module Protocol {
  import opened Wrappers
  import opened Domain
  import opened LimitWindows
  import opened Tables

  // ------------------------------------------------------------------------- transfer call

  /** Where a transfer call stands: which step it takes next. */
  datatype CallStep =
    | Admitting
    | Broadcasting
    | SavingSubmitted(txHash: string)
    | Compensating(failure: Failure)
    | SavingFailed(failure: Failure)

  /** A running call: the operation it created, the `hasReservation` flag and its next step. */
  datatype Call = Call(operation: TransferOperation, hasReservation: bool, step: CallStep)

  /** The catch block: release first if there is a reservation, then save the failure. */
  function Catch(call: Call, failure: Failure): Call {
    call.(step := if call.hasReservation then Compensating(failure) else SavingFailed(failure))
  }

  // ----------------------------------------------------------------------- settlement pass

  datatype PassStep = Examining | Releasing(reason: string) | Consuming

  /** A running pass: what it listed, how far it is, whether it is between the two writes of an
      operation, and which calls were running when it listed. */
  datatype Pass = Pass(listed: seq<TransferOperation>, next: nat, step: PassStep, live: set<Id>)

  datatype ChainAnswer = NotFound | InMempool | OnChain | Rejected(reason: Option<string>)

  datatype Decision = Noop | Confirm | Fail(message: string, releaseReason: string)

  /** The settings the server is started with. `windows` stands for the limit windows of an
      instant; the results below hold whatever the calendar. */
  datatype Config = Config(windows: Instant -> Boundaries, reservedTimeout: int, submittedTimeout: int)

  function Decide(cfg: Config, op: TransferOperation, now: Instant, answer: ChainAnswer): Decision {
    var age := now - op.updatedAt;
    if op.status == RESERVED then
      if age <= cfg.reservedTimeout then Noop
      else Fail("Transfer reservation expired before broadcast completed", "reservation_timeout")
    else if op.txHash.GetOr("") == "" then
      Fail("Submitted transfer is missing txHash", "missing_tx_hash")
    else
      match answer
      case OnChain => Confirm
      case Rejected(reason) => Fail(reason.GetOr("Transaction failed on chain"), "chain_failed")
      case NotFound =>
        if age <= cfg.submittedTimeout then Noop
        else Fail("Transaction was not found before settlement timeout", "not_found_timeout")
      case InMempool =>
        if age <= cfg.submittedTimeout then Noop
        else Fail("Transaction confirmation timed out", "confirmation_timeout")
  }

  const SETTLEMENT_ERROR := "TRANSFER_BROADCAST_FAILED"

  function CommitFailed(s: Store, op: TransferOperation, message: string, now: Instant): Store {
    CommitTransfer(s, MarkTransferFailed(op, SETTLEMENT_ERROR, message, None, now),
                   System, "transfer.settlement_failed", AUDIT_FAILED)
  }

  function CommitConfirmed(s: Store, op: TransferOperation, now: Instant): Store {
    CommitTransfer(s, MarkTransferConfirmed(op, now), System, "transfer.settlement_confirmed", SUCCESS)
  }

  /** No operation twice. */
  ghost predicate Distinct(ops: seq<TransferOperation>) {
    forall i, j | 0 <= i < j < |ops| :: ops[i].operationId != ops[j].operationId
  }

  /** The oldest pending operations, at most `limit` of them, by time of last update. */
  ghost predicate ListedByStatuses(transfers: map<Id, TransferOperation>, limit: nat, listed: seq<TransferOperation>) {
    && |listed| <= limit
    && (forall j | 0 <= j < |listed| :: IsPendingRow(transfers, listed[j]))
    && Distinct(listed)
    && (forall i, j | 0 <= i < j < |listed| :: listed[i].updatedAt <= listed[j].updatedAt)
    && (forall id | id in transfers && transfers[id].Pending() && transfers[id] !in listed ::
          |listed| == limit && forall j | 0 <= j < |listed| :: listed[j].updatedAt <= transfers[id].updatedAt)
  }

  predicate IsPendingRow(transfers: map<Id, TransferOperation>, op: TransferOperation) {
    op.operationId in transfers && transfers[op.operationId] == op && op.Pending()
  }

  ghost function PendingIds(transfers: map<Id, TransferOperation>): set<Id> {
    set id | id in transfers && transfers[id].Pending()
  }

  // ------------------------------------------------------------------------------- system

  /** `revived` and `interrupted` are history: the reservations consumed after having been
      released, and the operations a pass stopped working on between its two writes. */
  datatype State = State(
    store: Store,
    calls: map<Id, Call>,
    passes: map<nat, Pass>,
    revived: seq<AssetLimitReservation>,
    interrupted: set<Id>)

  datatype Event =
    | StartTransfer(id: Id, actor: ActorRole, key: LimitKey, target: TransferTarget, amount: nat, now: Instant)
    | Admit(id: Id, now: Instant, written: Instant)
    | AdmitThrows(id: Id, failure: Failure)
    | BroadcastReturns(id: Id, txHash: string)
    | BroadcastThrows(id: Id, failure: Failure)
    | SaveSubmitted(id: Id, now: Instant)
    | SaveSubmittedThrows(id: Id, failure: Failure)
    | Compensate(id: Id, now: Instant)
    | SaveFailed(id: Id, now: Instant)
    | StopCall(id: Id)
    | BeginPass(pass: nat, limit: nat, listed: seq<TransferOperation>)
    | Examine(pass: nat, now: Instant, answer: ChainAnswer)
    | SettleReservation(pass: nat, now: Instant)
    | EndPass(pass: nat)
    | StopPass(pass: nat)
    | Crash
    | ChangePolicy(key: LimitKey, patch: PolicyPatch, author: ActorRole, now: Instant)

  predicate MidOperation(pass: Pass) {
    pass.step != Examining
  }

  ghost predicate Enabled(s: State, e: Event) {
    match e
    case StartTransfer(id, actor, key, _, amount, _) =>
      id !in s.store.transfers && actor != System && Supported(key) && amount > 0
    case Admit(id, _, _) => id in s.calls && s.calls[id].step == Admitting
    case AdmitThrows(id, _) => id in s.calls && s.calls[id].step == Admitting
    case BroadcastReturns(id, _) => id in s.calls && s.calls[id].step == Broadcasting
    case BroadcastThrows(id, _) => id in s.calls && s.calls[id].step == Broadcasting
    case SaveSubmitted(id, _) => id in s.calls && s.calls[id].step.SavingSubmitted?
    case SaveSubmittedThrows(id, _) => id in s.calls && s.calls[id].step.SavingSubmitted?
    case Compensate(id, _) => id in s.calls && s.calls[id].step.Compensating?
    case SaveFailed(id, _) => id in s.calls && s.calls[id].step.SavingFailed?
    case StopCall(id) => id in s.calls
    case BeginPass(p, limit, listed) => p !in s.passes && ListedByStatuses(s.store.transfers, limit, listed)
    case Examine(p, _, _) => p in s.passes && !MidOperation(s.passes[p]) && s.passes[p].next < |s.passes[p].listed|
    case SettleReservation(p, _) => p in s.passes && MidOperation(s.passes[p]) && s.passes[p].next < |s.passes[p].listed|
    case EndPass(p) => p in s.passes && !MidOperation(s.passes[p]) && s.passes[p].next == |s.passes[p].listed|
    case StopPass(p) => p in s.passes
    case Crash => true
    case ChangePolicy(_, _, _, _) => true
  }

  /** The operation a pass is working on. */
  function Current(pass: Pass): TransferOperation
    requires pass.next < |pass.listed|
  {
    pass.listed[pass.next]
  }

  function Stopped(pass: Pass): set<Id> {
    if MidOperation(pass) && pass.next < |pass.listed| then {Current(pass).operationId} else {}
  }

  ghost function StoppedByCrash(passes: map<nat, Pass>): set<Id> {
    set p, id | p in passes && id in Stopped(passes[p]) :: id
  }

  function Forward(pass: Pass): Pass
  {
    pass.(next := pass.next + 1, step := Examining)
  }

  /** The operation is saved before anything else; an owner needs no admission. */
  function StartCall(s: State, op: TransferOperation): State {
    s.(store := SaveTransfer(s.store, op),
       calls := s.calls[op.operationId := Call(op, false, if op.actorRole == Agent then Admitting else Broadcasting)])
  }

  /** Under the key's lock: check the limits and save the reservation, or throw. */
  ghost function TryAdmit(s: State, id: Id, b: Boundaries, now: Instant): State
    requires id in s.calls
  {
    var op := s.calls[id].operation;
    match Verdict(s.store, op.key, op.requestedAmount, b)
    case Some(detail) => Throw(s, id, LimitFailure(detail))
    case None =>
      s.(store := SaveReservation(s.store, Reservation(id, op.key, op.requestedAmount, b, now)),
         calls := s.calls[id := Call(op, true, Broadcasting)])
  }

  function Throw(s: State, id: Id, failure: Failure): State
    requires id in s.calls
  {
    s.(calls := s.calls[id := Catch(s.calls[id], failure)])
  }

  function HoldHash(s: State, id: Id, txHash: string): State
    requires id in s.calls
  {
    s.(calls := s.calls[id := s.calls[id].(step := SavingSubmitted(txHash))])
  }

  /** The call writes from the operation it created, not from the stored row. */
  function CommitSubmitted(s: State, id: Id, now: Instant): State
    requires id in s.calls && s.calls[id].step.SavingSubmitted?
  {
    var op := MarkTransferSubmitted(s.calls[id].operation, s.calls[id].step.txHash, now);
    s.(store := CommitTransfer(s.store, op, op.actorRole, TransferAction(op.key), SUCCESS), calls := s.calls - {id})
  }

  function ReleaseInCatch(s: State, id: Id, now: Instant): State
    requires id in s.calls && s.calls[id].step.Compensating?
  {
    var call := s.calls[id];
    s.(store := ReleaseReservation(s.store, id, "transfer_failed:" + TransferAction(call.operation.key), now),
       calls := s.calls[id := call.(step := SavingFailed(call.step.failure))])
  }

  function CommitCallFailed(s: State, id: Id, now: Instant): State
    requires id in s.calls && s.calls[id].step.SavingFailed?
  {
    var failure := s.calls[id].step.failure;
    var op := MarkTransferFailed(s.calls[id].operation, failure.code, failure.message, Some(failure.limit), now);
    s.(store := CommitTransfer(s.store, op, op.actorRole, TransferAction(op.key), AUDIT_FAILED), calls := s.calls - {id})
  }

  /** Carries out a decision: the operation and its audit are committed, the reservation is
      left for the next step. */
  function CarryOut(s: State, p: nat, decision: Decision, now: Instant): State
    requires p in s.passes && s.passes[p].next < |s.passes[p].listed|
  {
    var pass := s.passes[p];
    match decision
    case Noop => s.(passes := s.passes[p := Forward(pass)])
    case Confirm =>
      s.(store := CommitConfirmed(s.store, Current(pass), now), passes := s.passes[p := pass.(step := Consuming)])
    case Fail(message, reason) =>
      s.(store := CommitFailed(s.store, Current(pass), message, now), passes := s.passes[p := pass.(step := Releasing(reason))])
  }

  function Settle(s: State, p: nat, now: Instant): State
    requires p in s.passes && MidOperation(s.passes[p]) && s.passes[p].next < |s.passes[p].listed|
  {
    var pass := s.passes[p];
    var id := Current(pass).operationId;
    match pass.step
    case Releasing(reason) =>
      s.(store := ReleaseReservation(s.store, id, reason, now), passes := s.passes[p := Forward(pass)])
    case Consuming =>
      s.(store := ConsumeReservation(s.store, id, now),
         passes := s.passes[p := Forward(pass)],
         revived := if id in s.store.reservations && s.store.reservations[id].status == RELEASED
                    then s.revived + [s.store.reservations[id]] else s.revived)
  }

  ghost function Apply(cfg: Config, s: State, e: Event): State
    requires Enabled(s, e)
  {
    match e
    case StartTransfer(id, actor, key, target, amount, now) =>
      StartCall(s, CreateTransferOperation(id, actor, key, target, amount, now))
    case Admit(id, now, written) => TryAdmit(s, id, cfg.windows(now), written)
    case AdmitThrows(id, failure) => Throw(s, id, failure)
    case BroadcastReturns(id, txHash) => HoldHash(s, id, txHash)
    case BroadcastThrows(id, failure) => Throw(s, id, failure)
    case SaveSubmitted(id, now) => CommitSubmitted(s, id, now)
    case SaveSubmittedThrows(id, failure) => Throw(s, id, failure)
    case Compensate(id, now) => ReleaseInCatch(s, id, now)
    case SaveFailed(id, now) => CommitCallFailed(s, id, now)
    case StopCall(id) => s.(calls := s.calls - {id})
    case BeginPass(p, limit, listed) => s.(passes := s.passes[p := Pass(listed, 0, Examining, s.calls.Keys)])
    case Examine(p, now, answer) => CarryOut(s, p, Decide(cfg, Current(s.passes[p]), now, answer), now)
    case SettleReservation(p, now) => Settle(s, p, now)
    case EndPass(p) => s.(passes := s.passes - {p})
    case StopPass(p) => s.(passes := s.passes - {p}, interrupted := s.interrupted + Stopped(s.passes[p]))
    case Crash => s.(calls := map[], passes := map[], interrupted := s.interrupted + StoppedByCrash(s.passes))
    case ChangePolicy(key, patch, author, now) => s.(store := UpdatePolicy(s.store, key, patch, author, now))
  }

  /** `t` is reached from `s` by the events in order. */
  ghost predicate Run(cfg: Config, s: State, events: seq<Event>, t: State)
    decreases |events|
  {
    if events == [] then s == t
    else Enabled(s, events[0]) && Run(cfg, Apply(cfg, s, events[0]), events[1..], t)
  }

  /** A fresh database, with whatever limits the owner has set. */
  predicate Initial(s: State) {
    && s.store.transfers == map[]
    && s.store.reservations == map[]
    && s.calls == map[]
    && s.passes == map[]
    && s.revived == []
    && s.interrupted == {}
  }

  lemma {:induction false} RunConcat(cfg: Config, s: State, a: seq<Event>, m: State, b: seq<Event>, t: State)
    requires Run(cfg, s, a, m) && Run(cfg, m, b, t)
    ensures Run(cfg, s, a + b, t)
    decreases |a|
  {
    hide Apply, Enabled;
    if a == [] {
      assert a + b == b;
    } else {
      assert (a + b)[0] == a[0] && (a + b)[1..] == a[1..] + b;
      RunConcat(cfg, Apply(cfg, s, a[0]), a[1..], m, b, t);
    }
  }

  lemma RunThen(cfg: Config, s: State, a: seq<Event>, m: State, e: Event)
    requires Run(cfg, s, a, m) && Enabled(m, e)
    ensures Run(cfg, s, a + [e], Apply(cfg, m, e))
  {
    hide Apply, Enabled;
    assert Run(cfg, Apply(cfg, m, e), [], Apply(cfg, m, e));
    assert [e][1..] == [];
    assert Run(cfg, m, [e], Apply(cfg, m, e));
    RunConcat(cfg, s, a, m, [e], Apply(cfg, m, e));
  }
}
