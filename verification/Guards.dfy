/** An invariant for any number of passes at once that is just strong enough to keep outgoing
    operations covered: a pass that may still confirm an operation shares it with no pass that
    may write it off. */
module Guards {
  import opened Domain
  import opened LimitWindows
  import opened Tables
  import opened Protocol
  import opened Interleavings
  import opened Discipline
  import opened Safety

  ghost predicate AllCovered(s: Store) {
    forall id | id in s.transfers && s.transfers[id].Outgoing() :: Covered(s, id)
  }

  predicate InCatch(call: Call) {
    call.step.Compensating? || call.step.SavingFailed?
  }

  /** A call that may yet hand the operation to the chain and save it as SUBMITTED. */
  predicate MayStillSend(s: State, id: Id) {
    id in s.calls && !InCatch(s.calls[id])
  }

  /** Only an AGENT operation listed as SUBMITTED with a hash can be confirmed and matter. */
  predicate Confirmable(op: TransferOperation) {
    op.actorRole == Agent && op.status == SUBMITTED && op.txHash.GetOr("") != ""
  }

  /** The first operation a pass has still to examine. */
  function FirstLeft(pass: Pass): nat {
    if MidOperation(pass) then pass.next + 1 else pass.next
  }

  predicate IsReleasing(pass: Pass, id: Id) {
    pass.step.Releasing? && pass.next < |pass.listed| && Current(pass).operationId == id
  }

  /** A copy that a pass may yet write an outcome from. */
  predicate Writable(op: TransferOperation, live: set<Id>) {
    op.status == SUBMITTED || op.operationId !in live
  }

  /** The pass may yet release the operation's reservation: it is about to, or has still to
      examine a copy that it may time out or find failed. */
  predicate MayWriteOff(pass: Pass, id: Id) {
    || IsReleasing(pass, id)
    || exists j | FirstLeft(pass) <= j < |pass.listed| ::
         pass.listed[j].operationId == id && Writable(pass.listed[j], pass.live)
  }

  predicate Counted(s: Store, id: Id) {
    id in s.reservations && s.reservations[id].Counts()
  }

  predicate IsOutgoing(s: Store, id: Id) {
    id in s.transfers && s.transfers[id].Outgoing()
  }

  predicate AgentOwns(s: Store, id: Id) {
    id in s.transfers && s.transfers[id].actorRole == Agent
  }

  predicate RowGuarded(s: Store, id: Id) {
    IsOutgoing(s, id) ==> Counted(s, id)
  }

  predicate CallGuarded(s: State, id: Id) {
    && !IsOutgoing(s.store, id)
    && (MayStillSend(s, id) && id in s.store.reservations ==> Counted(s.store, id))
  }

  /** What a pass has still to examine: nothing it may confirm has lost its reservation or has a
      running call, and nothing it may write off can still be sent. */
  predicate CopyGuarded(s: State, op: TransferOperation, live: set<Id>) {
    && (Confirmable(op) ==> Counted(s.store, op.operationId) && op.operationId !in s.calls)
    && (op.actorRole == Agent && Writable(op, live) ==> !MayStillSend(s, op.operationId))
  }

  predicate ReleaseGuarded(s: State, id: Id) {
    AgentOwns(s.store, id) ==> !IsOutgoing(s.store, id) && !MayStillSend(s, id)
  }

  ghost predicate PassGuarded(s: State, pass: Pass) {
    && Distinct(pass.listed)
    && (forall j | FirstLeft(pass) <= j < |pass.listed| :: CopyGuarded(s, pass.listed[j], pass.live))
    && (forall id | IsReleasing(pass, id) :: ReleaseGuarded(s, id))
  }

  /** What one pass may confirm the other may not write off. */
  ghost predicate Apart(a: Pass, b: Pass) {
    forall j | FirstLeft(a) <= j < |a.listed| && Confirmable(a.listed[j]) :: !MayWriteOff(b, a.listed[j].operationId)
  }

  ghost predicate CallsGuarded(s: State) {
    forall id | id in s.calls :: CallGuarded(s, id)
  }

  ghost predicate PassesGuarded(s: State) {
    && (forall p | p in s.passes :: PassGuarded(s, s.passes[p]))
    && (forall p, q | p in s.passes && q in s.passes && p != q :: Apart(s.passes[p], s.passes[q]))
  }

  ghost predicate Guarded(s: State) {
    && Sound(s)
    && RowsGuarded(s.store)
    && CallsGuarded(s)
    && PassesGuarded(s)
  }

  lemma GuardedIsCovered(s: State)
    requires Guarded(s)
    ensures AllCovered(s.store)
  {
    hide CallsGuarded, PassesGuarded;
    assert StoreOk(s.store);
    forall id | id in s.store.transfers && s.store.transfers[id].Outgoing() ensures Covered(s.store, id) {
      assert RowGuarded(s.store, id);
    }
  }

  // ------------------------------------------------------------------------ preservation

  ghost predicate RowsGuarded(s: Store) {
    forall id | id in s.transfers :: RowGuarded(s, id)
  }

  lemma RowsKept(s: Store, t: Store, id: Id)
    requires RowsGuarded(s) && OnlyAt(s, t, id) && RowGuarded(t, id)
    ensures RowsGuarded(t)
  {
    forall k | k in t.transfers ensures RowGuarded(t, k) {
      if k != id { assert RowGuarded(s, k); }
    }
  }

  lemma CallsKept(s: State, t: State, id: Id)
    requires CallsGuarded(s) && OnlyAt(s.store, t.store, id)
    requires t.calls == s.calls - {id} || (id in t.calls && t.calls == s.calls[id := t.calls[id]] && CallGuarded(t, id))
    ensures CallsGuarded(t)
  {
    forall k | k in t.calls ensures CallGuarded(t, k) {
      if k != id { assert CallGuarded(s, k); }
    }
  }

  lemma CallKeepsPass(s: State, t: State, id: Id, pass: Pass)
    requires PassGuarded(s, pass) && id in s.calls && OnlyAt(s.store, t.store, id)
    requires t.calls == s.calls - {id} || (id in t.calls && t.calls == s.calls[id := t.calls[id]])
    requires IsOutgoing(t.store, id) || MayStillSend(t, id) ==> MayStillSend(s, id)
    requires AgentOwns(t.store, id) ==> AgentOwns(s.store, id)
    ensures PassGuarded(t, pass)
  {
    forall j | FirstLeft(pass) <= j < |pass.listed| ensures CopyGuarded(t, pass.listed[j], pass.live) {
      assert CopyGuarded(s, pass.listed[j], pass.live);
    }
    forall k | IsReleasing(pass, k) ensures ReleaseGuarded(t, k) {
      assert ReleaseGuarded(s, k);
    }
  }

  /** A step of one call, which writes at most its own operation and reservation. */
  lemma CallKeepsGuard(s: State, t: State, id: Id)
    requires Guarded(s) && Sound(t) && id in s.calls
    requires t.passes == s.passes && OnlyAt(s.store, t.store, id)
    requires t.calls == s.calls - {id} || (id in t.calls && t.calls == s.calls[id := t.calls[id]] && CallGuarded(t, id))
    requires RowGuarded(t.store, id)
    requires IsOutgoing(t.store, id) || MayStillSend(t, id) ==> MayStillSend(s, id)
    requires AgentOwns(t.store, id) ==> AgentOwns(s.store, id)
    ensures Guarded(t)
  {
    hide Sound, CallsGuarded, PassGuarded, RowsGuarded, Apart, OnlyAt, RowGuarded, CallGuarded, MayStillSend, IsOutgoing, AgentOwns;
    RowsKept(s.store, t.store, id);
    CallsKept(s, t, id);
    forall p | p in t.passes ensures PassGuarded(t, t.passes[p]) {
      CallKeepsPass(s, t, id, t.passes[p]);
    }
  }

  lemma CallFacts(s: State, id: Id)
    requires Guarded(s) && id in s.calls
    ensures CallOk(s.store, id, s.calls[id]) && CallGuarded(s, id) && s.calls[id].operation.operationId == id
  {
    assert StoreOk(s.store);
  }

  lemma AdmitGuarded(s: State, id: Id, b: Boundaries, now: Instant)
    requires Guarded(s) && id in s.calls && s.calls[id].step == Admitting
    ensures Guarded(TryAdmit(s, id, b, now))
  {
    hide Guarded, Sound, Verdict, WellFormed, SameTransfer;
    CallFacts(s, id);
    GuardedIsSound(s);
    SoundAdmit(s, id, b, now);
    CallKeepsGuard(s, TryAdmit(s, id, b, now), id);
  }

  lemma GuardedIsSound(s: State)
    requires Guarded(s)
    ensures Sound(s)
  {
  }

  lemma ThrowGuarded(s: State, id: Id, failure: Failure)
    requires Guarded(s) && id in s.calls && !InCatch(s.calls[id])
    ensures Guarded(Throw(s, id, failure))
  {
    hide Guarded, Sound, WellFormed, SameTransfer;
    CallFacts(s, id);
    GuardedIsSound(s);
    SoundThrow(s, id, failure);
    CallKeepsGuard(s, Throw(s, id, failure), id);
  }

  lemma HoldGuarded(s: State, id: Id, txHash: string)
    requires Guarded(s) && id in s.calls && s.calls[id].step == Broadcasting
    ensures Guarded(HoldHash(s, id, txHash))
  {
    hide Guarded, Sound, WellFormed, SameTransfer;
    CallFacts(s, id);
    GuardedIsSound(s);
    SoundHold(s, id, txHash);
    CallKeepsGuard(s, HoldHash(s, id, txHash), id);
  }

  lemma SubmittedGuarded(s: State, id: Id, now: Instant)
    requires Guarded(s) && id in s.calls && s.calls[id].step.SavingSubmitted?
    ensures Guarded(CommitSubmitted(s, id, now))
  {
    hide Guarded, Sound, WellFormed, TransferAction;
    CallFacts(s, id);
    GuardedIsSound(s);
    SoundCommitSubmitted(s, id, now);
    CallKeepsGuard(s, CommitSubmitted(s, id, now), id);
  }

  lemma CompensateGuarded(s: State, id: Id, now: Instant)
    requires Guarded(s) && id in s.calls && s.calls[id].step.Compensating?
    ensures Guarded(ReleaseInCatch(s, id, now))
  {
    hide Guarded, Sound, WellFormed, SameTransfer, TransferAction;
    CallFacts(s, id);
    GuardedIsSound(s);
    SoundReleaseInCatch(s, id, now);
    StoredUnder(s, id);
    CallKeepsGuard(s, ReleaseInCatch(s, id, now), id);
  }

  lemma StoredUnder(s: State, id: Id)
    requires Sound(s)
    ensures id in s.store.reservations ==> s.store.reservations[id].operationId == id
  {
    assert StoreOk(s.store);
  }

  lemma FailedGuarded(s: State, id: Id, now: Instant)
    requires Guarded(s) && id in s.calls && s.calls[id].step.SavingFailed?
    ensures Guarded(CommitCallFailed(s, id, now))
  {
    hide Guarded, Sound, WellFormed, TransferAction;
    CallFacts(s, id);
    GuardedIsSound(s);
    SoundCommitFailed(s, id, now);
    CallKeepsGuard(s, CommitCallFailed(s, id, now), id);
  }

  lemma StopGuarded(s: State, id: Id)
    requires Guarded(s) && id in s.calls
    ensures Guarded(s.(calls := s.calls - {id}))
  {
    hide Guarded, WellFormed, SameTransfer;
    CallFacts(s, id);
    GuardedIsSound(s);
    SoundDrop(s, s.(calls := s.calls - {id}));
    hide Sound;
    CallKeepsGuard(s, s.(calls := s.calls - {id}), id);
  }

  lemma StartGuarded(s: State, op: TransferOperation)
    requires Guarded(s) && op.operationId !in s.store.transfers && WellFormed(op) && op.status == RESERVED
    ensures Guarded(StartCall(s, op))
  {
    hide Sound, WellFormed, Guarded;
    GuardedIsSound(s);
    SoundStart(s, op);
    NewIdIsNowhere(s, op.operationId);
    StartKeepsGuard(s, StartCall(s, op), op.operationId);
  }

  lemma StartKeepsGuard(s: State, t: State, id: Id)
    requires Guarded(s) && Sound(t) && id !in s.store.transfers && id !in s.calls && id !in s.store.reservations
    requires forall p | p in s.passes :: forall j | 0 <= j < |s.passes[p].listed| :: s.passes[p].listed[j].operationId != id
    requires t.passes == s.passes && OnlyAt(s.store, t.store, id) && id !in t.store.reservations
    requires !IsOutgoing(t.store, id) && id in t.calls && t.calls == s.calls[id := t.calls[id]]
    ensures Guarded(t)
  {
    hide Sound, CallsGuarded, PassGuarded, RowsGuarded, Apart, OnlyAt, MayStillSend, IsOutgoing;
    RowsKept(s.store, t.store, id);
    CallsKept(s, t, id);
    forall p | p in t.passes ensures PassGuarded(t, t.passes[p]) {
      StartKeepsPass(s, t, id, t.passes[p]);
    }
  }

  lemma StartKeepsPass(s: State, t: State, id: Id, pass: Pass)
    requires PassGuarded(s, pass) && OnlyAt(s.store, t.store, id)
    requires forall j | 0 <= j < |pass.listed| :: pass.listed[j].operationId != id
    requires id in t.calls && t.calls == s.calls[id := t.calls[id]]
    ensures PassGuarded(t, pass)
  {
    forall j | FirstLeft(pass) <= j < |pass.listed| ensures CopyGuarded(t, pass.listed[j], pass.live) {
      assert CopyGuarded(s, pass.listed[j], pass.live);
    }
    forall k | IsReleasing(pass, k) ensures ReleaseGuarded(t, k) {
      assert ReleaseGuarded(s, k);
    }
  }

  ghost predicate NoneElseConfirms(s: State, p: nat, id: Id) {
    forall q | q in s.passes && q != p :: NotConfirming(s.passes[q], id)
  }

  ghost predicate NotConfirming(pass: Pass, id: Id) {
    forall j | FirstLeft(pass) <= j < |pass.listed| && Confirmable(pass.listed[j]) :: pass.listed[j].operationId != id
  }

  ghost predicate NoneElseReleases(s: State, p: nat, id: Id) {
    forall q | q in s.passes && q != p :: !IsReleasing(s.passes[q], id)
  }

  /** A pass moves on past an operation, or starts settling it. */
  predicate PassMovedOn(a: Pass, b: Pass) {
    && a.next < |a.listed| && b.listed == a.listed && b.live == a.live
    && ((b.next == a.next && MidOperation(b) && !MidOperation(a)) || (b.next == a.next + 1 && !MidOperation(b)))
  }

  /** Another pass while one pass writes an operation. */
  lemma OtherPassKept(s: State, t: State, id: Id, pass: Pass)
    requires PassGuarded(s, pass) && t.calls == s.calls && OnlyAt(s.store, t.store, id)
    requires !NotConfirming(pass, id) && Counted(s.store, id) ==> Counted(t.store, id)
    requires IsReleasing(pass, id) && IsOutgoing(t.store, id) ==> IsOutgoing(s.store, id)
    requires AgentOwns(t.store, id) ==> AgentOwns(s.store, id)
    ensures PassGuarded(t, pass)
  {
    forall j | FirstLeft(pass) <= j < |pass.listed| ensures CopyGuarded(t, pass.listed[j], pass.live) {
      assert CopyGuarded(s, pass.listed[j], pass.live);
    }
    forall k | IsReleasing(pass, k) ensures ReleaseGuarded(t, k) {
      assert ReleaseGuarded(s, k);
    }
  }

  lemma OwnPassKept(s: State, t: State, a: Pass, b: Pass)
    requires PassGuarded(s, a) && PassMovedOn(a, b) && t.calls == s.calls && OnlyAt(s.store, t.store, Current(a).operationId)
    requires IsReleasing(b, Current(a).operationId) ==> ReleaseGuarded(t, Current(a).operationId)
    ensures PassGuarded(t, b)
  {
    forall j | FirstLeft(b) <= j < |b.listed| ensures CopyGuarded(t, b.listed[j], b.live) {
      assert CopyGuarded(s, a.listed[j], a.live);
      assert a.listed[j].operationId != a.listed[a.next].operationId;
    }
  }

  lemma StaysApart(a: Pass, b: Pass, other: Pass)
    requires Apart(a, other) && Apart(other, a) && PassMovedOn(a, b)
    requires IsReleasing(b, Current(a).operationId) ==> NotConfirming(other, Current(a).operationId)
    ensures Apart(b, other) && Apart(other, b)
  {
    forall j | FirstLeft(other) <= j < |other.listed| && Confirmable(other.listed[j])
      ensures !MayWriteOff(b, other.listed[j].operationId)
    {
      assert !MayWriteOff(a, other.listed[j].operationId);
    }
    forall j | FirstLeft(b) <= j < |b.listed| && Confirmable(b.listed[j])
      ensures !MayWriteOff(other, b.listed[j].operationId)
    {
      assert a.listed[j] == b.listed[j];
    }
  }

  lemma PassesKept(s: State, t: State, p: nat)
    requires PassesGuarded(s) && p in s.passes && p in t.passes && PassMovedOn(s.passes[p], t.passes[p])
    requires t.calls == s.calls && t.passes == s.passes[p := t.passes[p]]
    requires var id := Current(s.passes[p]).operationId;
             && OnlyAt(s.store, t.store, id)
             && (AgentOwns(t.store, id) ==> AgentOwns(s.store, id))
             && (IsReleasing(t.passes[p], id) ==> ReleaseGuarded(t, id))
             && (IsReleasing(t.passes[p], id) || (Counted(s.store, id) && !Counted(t.store, id)) ==> NoneElseConfirms(s, p, id))
             && (IsOutgoing(t.store, id) && !IsOutgoing(s.store, id) ==> NoneElseReleases(s, p, id))
    ensures PassesGuarded(t)
  {
    var id := Current(s.passes[p]).operationId;
    hide PassGuarded, Apart, OnlyAt, Counted, IsOutgoing, AgentOwns, ReleaseGuarded, IsReleasing, NotConfirming, MidOperation;
    forall q | q in t.passes ensures PassGuarded(t, t.passes[q]) {
      if q == p {
        OwnPassKept(s, t, s.passes[p], t.passes[p]);
      } else {
        OtherPassKept(s, t, id, s.passes[q]);
      }
    }
    forall q, r | q in t.passes && r in t.passes && q != r ensures Apart(t.passes[q], t.passes[r]) {
      if q == p { StaysApart(s.passes[p], t.passes[p], s.passes[r]); }
      if r == p { StaysApart(s.passes[p], t.passes[p], s.passes[q]); }
    }
  }

  /** A step of a pass on the operation it has reached. */
  lemma PassKeepsGuard(s: State, t: State, p: nat)
    requires Guarded(s) && Sound(t) && p in s.passes && p in t.passes && PassMovedOn(s.passes[p], t.passes[p])
    requires t.calls == s.calls && t.passes == s.passes[p := t.passes[p]]
    requires var id := Current(s.passes[p]).operationId;
             && OnlyAt(s.store, t.store, id)
             && RowGuarded(t.store, id) && (id in s.calls ==> CallGuarded(t, id))
             && (AgentOwns(t.store, id) ==> AgentOwns(s.store, id))
             && (IsReleasing(t.passes[p], id) ==> ReleaseGuarded(t, id))
             && (IsReleasing(t.passes[p], id) || (Counted(s.store, id) && !Counted(t.store, id)) ==> NoneElseConfirms(s, p, id))
             && (IsOutgoing(t.store, id) && !IsOutgoing(s.store, id) ==> NoneElseReleases(s, p, id))
    ensures Guarded(t)
  {
    hide Sound, PassesGuarded, RowsGuarded, OnlyAt, RowGuarded, Counted, IsOutgoing, AgentOwns, ReleaseGuarded, IsReleasing,
      NoneElseConfirms, NoneElseReleases, CallGuarded;
    var id := Current(s.passes[p]).operationId;
    RowsKept(s.store, t.store, id);
    PassesKept(s, t, p);
    SameCallsKept(s, t, id);
  }

  lemma SameCallsKept(s: State, t: State, id: Id)
    requires CallsGuarded(s) && OnlyAt(s.store, t.store, id) && t.calls == s.calls && (id in s.calls ==> CallGuarded(t, id))
    ensures CallsGuarded(t)
  {
    forall k | k in t.calls ensures CallGuarded(t, k) {
      if k != id { assert CallGuarded(s, k); }
    }
  }

  lemma WriteOffIsAlone(s: State, p: nat, id: Id)
    requires PassesGuarded(s) && p in s.passes && MayWriteOff(s.passes[p], id)
    ensures NoneElseConfirms(s, p, id)
  {
    hide MayWriteOff, PassGuarded, Confirmable;
    forall q | q in s.passes && q != p ensures NotConfirming(s.passes[q], id) {
      assert Apart(s.passes[q], s.passes[p]);
    }
  }

  lemma ConfirmIsAlone(s: State, p: nat)
    requires PassesGuarded(s) && p in s.passes && !MidOperation(s.passes[p]) && s.passes[p].next < |s.passes[p].listed|
    requires Confirmable(Current(s.passes[p]))
    ensures NoneElseReleases(s, p, Current(s.passes[p]).operationId)
  {
    hide PassGuarded, Confirmable, IsReleasing;
    forall q | q in s.passes && q != p ensures !IsReleasing(s.passes[q], Current(s.passes[p]).operationId) {
      assert Apart(s.passes[p], s.passes[q]);
      assert !MayWriteOff(s.passes[q], Current(s.passes[p]).operationId);
    }
  }

  lemma PassFacts(s: State, p: nat)
    requires Guarded(s) && p in s.passes && s.passes[p].next < |s.passes[p].listed|
    ensures SnapshotOk(s.store, Current(s.passes[p]))
    ensures var pass := s.passes[p];
            var id := Current(pass).operationId;
            && (!MidOperation(pass) ==> CopyGuarded(s, Current(pass), pass.live))
            && (IsReleasing(pass, id) ==> ReleaseGuarded(s, id))
            && RowGuarded(s.store, id) && (id in s.calls ==> CallGuarded(s, id))
  {
    CurrentIsPending(s, p);
    hide Sound;
    assert PassGuarded(s, s.passes[p]);
  }

  lemma NoopGuarded(s: State, p: nat, now: Instant)
    requires Guarded(s) && p in s.passes && s.passes[p].next < |s.passes[p].listed| && !MidOperation(s.passes[p])
    ensures Guarded(CarryOut(s, p, Noop, now))
  {
    PassFacts(s, p);
    GuardedIsSound(s);
    SoundCarryOut(s, p, Noop, now);
    hide Sound, Guarded, SnapshotOk, WellFormed;
    PassKeepsGuard(s, CarryOut(s, p, Noop, now), p);
  }

  /** What a pass writes when it commits a verdict: one operation, and no reservation. */
  predicate Commits(s: State, t: State, p: nat, status: TransferStatus)
    requires p in s.passes && s.passes[p].next < |s.passes[p].listed|
  {
    var op := Current(s.passes[p]);
    && p in t.passes && PassMovedOn(s.passes[p], t.passes[p]) && t.passes == s.passes[p := t.passes[p]] && t.calls == s.calls
    && t.store.reservations == s.store.reservations
    && op.operationId in t.store.transfers
    && t.store.transfers == s.store.transfers[op.operationId := t.store.transfers[op.operationId]]
    && t.store.transfers[op.operationId].status == status && t.store.transfers[op.operationId].actorRole == op.actorRole
  }

  lemma VerdictCommits(s: State, p: nat, message: string, reason: string, now: Instant)
    requires p in s.passes && s.passes[p].next < |s.passes[p].listed| && !MidOperation(s.passes[p])
    ensures Commits(s, CarryOut(s, p, Confirm, now), p, CONFIRMED)
    ensures MidOperation(CarryOut(s, p, Confirm, now).passes[p]) && !CarryOut(s, p, Confirm, now).passes[p].step.Releasing?
    ensures Commits(s, CarryOut(s, p, Fail(message, reason), now), p, FAILED)
  {
  }

  lemma CommitsOnly(s: State, t: State, p: nat, status: TransferStatus)
    requires p in s.passes && s.passes[p].next < |s.passes[p].listed| && Commits(s, t, p, status)
    requires SnapshotOk(s.store, Current(s.passes[p]))
    ensures var id := Current(s.passes[p]).operationId;
            && OnlyAt(s.store, t.store, id)
            && (AgentOwns(t.store, id) <==> AgentOwns(s.store, id)) && (AgentOwns(t.store, id) <==> Current(s.passes[p]).actorRole == Agent)
            && (Counted(t.store, id) <==> Counted(s.store, id))
            && (IsOutgoing(t.store, id) <==> AgentOwns(t.store, id) && status == CONFIRMED)
    requires status == CONFIRMED || status == FAILED
  {
    hide WellFormed;
  }

  lemma ConfirmGuarded(s: State, p: nat, now: Instant)
    requires Guarded(s) && p in s.passes && s.passes[p].next < |s.passes[p].listed| && !MidOperation(s.passes[p])
    requires Current(s.passes[p]).status == SUBMITTED && Current(s.passes[p]).txHash.GetOr("") != ""
    ensures Guarded(CarryOut(s, p, Confirm, now))
  {
    var t := CarryOut(s, p, Confirm, now);
    PassFacts(s, p);
    GuardedIsSound(s);
    SoundCarryOut(s, p, Confirm, now);
    VerdictCommits(s, p, "", "", now);
    CommitsOnly(s, t, p, CONFIRMED);
    if Confirmable(Current(s.passes[p])) { ConfirmIsAlone(s, p); }
    hide Sound, Guarded, CarryOut, SnapshotOk, OnlyAt, AgentOwns, Counted, IsOutgoing, NoneElseReleases, NoneElseConfirms;
    PassKeepsGuard(s, t, p);
  }

  /** A pass may write off an operation that no call can still send and no other pass confirm. */
  lemma FailGuarded(s: State, p: nat, message: string, reason: string, now: Instant)
    requires Guarded(s) && p in s.passes && s.passes[p].next < |s.passes[p].listed| && !MidOperation(s.passes[p])
    requires Current(s.passes[p]).actorRole == Agent ==> !MayStillSend(s, Current(s.passes[p]).operationId)
    requires NoneElseConfirms(s, p, Current(s.passes[p]).operationId)
    ensures Guarded(CarryOut(s, p, Fail(message, reason), now))
  {
    var t := CarryOut(s, p, Fail(message, reason), now);
    PassFacts(s, p);
    GuardedIsSound(s);
    SoundCarryOut(s, p, Fail(message, reason), now);
    VerdictCommits(s, p, message, reason, now);
    CommitsOnly(s, t, p, FAILED);
    hide Sound, Guarded, CarryOut, SnapshotOk, OnlyAt, AgentOwns, Counted, IsOutgoing, NoneElseReleases, NoneElseConfirms;
    PassKeepsGuard(s, t, p);
  }

  lemma CarryOutGuarded(cfg: Config, s: State, p: nat, now: Instant, answer: ChainAnswer)
    requires Guarded(s) && p in s.passes && s.passes[p].next < |s.passes[p].listed| && !MidOperation(s.passes[p])
    requires !TimesOutLiveCall(cfg, s.passes[p], now, answer)
    ensures Guarded(CarryOut(s, p, Decide(cfg, Current(s.passes[p]), now, answer), now))
  {
    PassFacts(s, p);
    if Decide(cfg, Current(s.passes[p]), now, answer) == Confirm { ConfirmsOnlyHashed(cfg, Current(s.passes[p]), now, answer); }
    hide Guarded, CarryOut, WellFormed, SameTransfer, Decide;
    match Decide(cfg, Current(s.passes[p]), now, answer) {
      case Noop => NoopGuarded(s, p, now);
      case Confirm => ConfirmGuarded(s, p, now);
      case Fail(message, reason) =>
        MayFail(cfg, s, p, now, answer);
        FailGuarded(s, p, message, reason, now);
    }
  }

  lemma ConfirmsOnlyHashed(cfg: Config, op: TransferOperation, now: Instant, answer: ChainAnswer)
    requires op.Pending() && Decide(cfg, op, now, answer) == Confirm
    ensures op.status == SUBMITTED && op.txHash.GetOr("") != ""
  {
  }

  lemma VerdictIsItsOwn(cfg: Config, s: State, p: nat, now: Instant, answer: ChainAnswer)
    requires Sound(s) && p in s.passes && s.passes[p].next < |s.passes[p].listed|
    requires !TimesOutLiveCall(cfg, s.passes[p], now, answer)
    ensures Decide(cfg, Current(s.passes[p]), now, answer) != Noop ==> Writable(Current(s.passes[p]), s.passes[p].live)
  {
    CurrentIsPending(s, p);
    hide Sound, WellFormed, SameTransfer;
  }

  lemma MayFail(cfg: Config, s: State, p: nat, now: Instant, answer: ChainAnswer)
    requires Guarded(s) && p in s.passes && s.passes[p].next < |s.passes[p].listed| && !MidOperation(s.passes[p])
    requires Decide(cfg, Current(s.passes[p]), now, answer).Fail? && !TimesOutLiveCall(cfg, s.passes[p], now, answer)
    ensures Current(s.passes[p]).actorRole == Agent ==> !MayStillSend(s, Current(s.passes[p]).operationId)
    ensures NoneElseConfirms(s, p, Current(s.passes[p]).operationId)
  {
    PassFacts(s, p);
    hide Sound, WellFormed, SameTransfer, Decide, NoneElseConfirms;
    var pass := s.passes[p];
    assert MayWriteOff(pass, Current(pass).operationId);
    WriteOffIsAlone(s, p, Current(pass).operationId);
  }

  lemma SettleMovesOn(s: State, p: nat, now: Instant)
    requires p in s.passes && s.passes[p].next < |s.passes[p].listed| && MidOperation(s.passes[p])
    requires var id := Current(s.passes[p]).operationId; id in s.store.reservations ==> s.store.reservations[id].operationId == id
    ensures var t := Settle(s, p, now);
            var id := Current(s.passes[p]).operationId;
            && p in t.passes && PassMovedOn(s.passes[p], t.passes[p]) && t.passes == s.passes[p := t.passes[p]] && t.calls == s.calls
            && !MidOperation(t.passes[p])
            && OnlyAt(s.store, t.store, id) && t.store.transfers == s.store.transfers
            && (id in t.store.reservations <==> id in s.store.reservations)
            && (!s.passes[p].step.Releasing? ==> Counted(s.store, id) ==> Counted(t.store, id))
  {
  }

  /** Settling keeps the guards of the operation's own row and call. */
  lemma SettleKeepsOwn(s: State, t: State, p: nat)
    requires Guarded(s) && p in s.passes && s.passes[p].next < |s.passes[p].listed| && MidOperation(s.passes[p])
    requires var id := Current(s.passes[p]).operationId;
             && t.calls == s.calls && t.store.transfers == s.store.transfers
             && (id in t.store.reservations <==> id in s.store.reservations)
             && (!s.passes[p].step.Releasing? ==> Counted(s.store, id) ==> Counted(t.store, id))
    ensures var id := Current(s.passes[p]).operationId;
            && RowGuarded(t.store, id) && (id in s.calls ==> CallGuarded(t, id))
            && (AgentOwns(t.store, id) <==> AgentOwns(s.store, id)) && (IsOutgoing(t.store, id) <==> IsOutgoing(s.store, id))
            && (IsReleasing(s.passes[p], id) ==> NoneElseConfirms(s, p, id))
  {
    var id := Current(s.passes[p]).operationId;
    PassFacts(s, p);
    if IsReleasing(s.passes[p], id) { WriteOffIsAlone(s, p, id); }
    if id in s.store.reservations { OwnedByAgent(s, id); }
    hide Guarded, SnapshotOk, NoneElseConfirms;
  }

  lemma SettleGuarded(s: State, p: nat, now: Instant)
    requires Guarded(s) && p in s.passes && s.passes[p].next < |s.passes[p].listed| && MidOperation(s.passes[p])
    ensures Guarded(Settle(s, p, now))
  {
    hide Sound, Guarded, Settle, NoneElseConfirms, NoneElseReleases, OnlyAt, RowGuarded, CallGuarded, AgentOwns, IsOutgoing, Counted;
    GuardedIsSound(s);
    StoredUnder(s, Current(s.passes[p]).operationId);
    SoundSettle(s, p, now);
    SettleMovesOn(s, p, now);
    SettleKeepsOwn(s, Settle(s, p, now), p);
    PassKeepsGuard(s, Settle(s, p, now), p);
  }

  lemma OwnedByAgent(s: State, id: Id)
    requires Sound(s) && id in s.store.reservations
    ensures AgentOwns(s.store, id)
  {
    assert StoreOk(s.store);
  }

  /** A new pass when none is running, or one that lists nothing another may confirm. */
  lemma NewPassGuarded(s: State, limit: nat, listed: seq<TransferOperation>)
    requires Guarded(s) && ListedByStatuses(s.store.transfers, limit, listed)
    ensures PassGuarded(s, Pass(listed, 0, Examining, s.calls.Keys))
  {
    hide PassesGuarded, Sound, WellFormed;
    forall j | 0 <= j < |listed| ensures CopyGuarded(s, listed[j], s.calls.Keys) {
      assert IsPendingRow(s.store.transfers, listed[j]);
      assert RowGuarded(s.store, listed[j].operationId);
      if listed[j].operationId in s.calls { assert CallGuarded(s, listed[j].operationId); }
    }
  }

  lemma BeginGuarded(s: State, p: nat, limit: nat, listed: seq<TransferOperation>)
    requires Guarded(s) && p !in s.passes && ListedByStatuses(s.store.transfers, limit, listed)
    requires forall q | q in s.passes ::
      Apart(s.passes[q], Pass(listed, 0, Examining, s.calls.Keys)) && Apart(Pass(listed, 0, Examining, s.calls.Keys), s.passes[q])
    ensures Guarded(s.(passes := s.passes[p := Pass(listed, 0, Examining, s.calls.Keys)]))
  {
    GuardedIsSound(s);
    SoundBegin(s, p, limit, listed);
    NewPassGuarded(s, limit, listed);
    hide Sound, ListedByStatuses;
    var t := s.(passes := s.passes[p := Pass(listed, 0, Examining, s.calls.Keys)]);
    SameStoreKept(s, t);
  }

  /** Guards speak of the tables, and of the calls, and of nothing else. */
  lemma SameStoreKept(s: State, t: State)
    requires t.store.transfers == s.store.transfers && t.store.reservations == s.store.reservations && t.calls == s.calls
    ensures RowsGuarded(s.store) ==> RowsGuarded(t.store)
    ensures CallsGuarded(s) ==> CallsGuarded(t)
    ensures forall pass | PassGuarded(s, pass) :: PassGuarded(t, pass)
  {
    if RowsGuarded(s.store) {
      forall id | id in t.store.transfers ensures RowGuarded(t.store, id) { assert RowGuarded(s.store, id); }
    }
    if CallsGuarded(s) {
      forall id | id in t.calls ensures CallGuarded(t, id) { assert CallGuarded(s, id); }
    }
    forall pass | PassGuarded(s, pass) ensures PassGuarded(t, pass) {
      forall j | FirstLeft(pass) <= j < |pass.listed| ensures CopyGuarded(t, pass.listed[j], pass.live) {
        assert CopyGuarded(s, pass.listed[j], pass.live);
      }
      forall id | IsReleasing(pass, id) ensures ReleaseGuarded(t, id) { assert ReleaseGuarded(s, id); }
    }
  }

  lemma DropGuarded(s: State, t: State)
    requires Guarded(s) && t.store == s.store && t.calls == s.calls
    requires t.passes.Keys <= s.passes.Keys && forall p | p in t.passes :: t.passes[p] == s.passes[p]
    ensures Guarded(t)
  {
    SoundDrop(s, t);
    hide Sound;
    SameStoreKept(s, t);
  }

  lemma PolicyGuarded(s: State, t: Store)
    requires Guarded(s) && t.transfers == s.store.transfers && t.reservations == s.store.reservations
    ensures Guarded(s.(store := t))
  {
    SoundPolicy(s, t);
    hide Sound;
    SameStoreKept(s, s.(store := t));
  }

  lemma CrashGuarded(s: State, interrupted: set<Id>)
    requires Guarded(s)
    ensures Guarded(s.(calls := map[], passes := map[], interrupted := interrupted))
  {
    SoundDrop(s, s.(calls := map[], passes := map[], interrupted := interrupted));
    hide Sound;
  }

  // ------------------------------------------------------------------------------ over runs

  /** Every disciplined step keeps the guard, however many passes are running. */
  lemma GuardedStep(cfg: Config, s: State, e: Event)
    requires Guarded(s) && Enabled(s, e) && Disciplined(cfg, s, e)
    ensures Guarded(Apply(cfg, s, e))
  {
    hide Guarded, StartCall, TryAdmit, Throw, HoldHash, CommitSubmitted, ReleaseInCatch, CommitCallFailed, CarryOut, Settle, NextPolicy, Decide;
    match e {
      case StartTransfer(id, actor, key, target, amount, now) =>
        StartGuarded(s, CreateTransferOperation(id, actor, key, target, amount, now));
      case Admit(id, now, written) => AdmitGuarded(s, id, cfg.windows(now), written);
      case AdmitThrows(id, failure) => ThrowGuarded(s, id, failure);
      case BroadcastReturns(id, txHash) => HoldGuarded(s, id, txHash);
      case BroadcastThrows(id, failure) => ThrowGuarded(s, id, failure);
      case SaveSubmitted(id, now) => SubmittedGuarded(s, id, now);
      case SaveSubmittedThrows(id, failure) => ThrowGuarded(s, id, failure);
      case Compensate(id, now) => CompensateGuarded(s, id, now);
      case SaveFailed(id, now) => FailedGuarded(s, id, now);
      case StopCall(id) => StopGuarded(s, id);
      case BeginPass(p, limit, listed) => BeginGuarded(s, p, limit, listed);
      case Examine(p, now, answer) => CarryOutGuarded(cfg, s, p, now, answer);
      case SettleReservation(p, now) => SettleGuarded(s, p, now);
      case EndPass(p) => DropGuarded(s, Apply(cfg, s, e));
      case StopPass(p) => DropGuarded(s, Apply(cfg, s, e));
      case Crash => CrashGuarded(s, s.interrupted + StoppedByCrash(s.passes));
      case ChangePolicy(key, patch, author, now) => PolicyGuarded(s, UpdatePolicy(s.store, key, patch, author, now));
    }
  }

  lemma {:induction false} GuardedRun(cfg: Config, s: State, events: seq<Event>, t: State)
    requires Guarded(s) && DisciplinedRun(cfg, s, events, t)
    ensures Guarded(t) && AllCovered(t.store)
    decreases |events|
  {
    hide Apply, Enabled, Disciplined, Guarded, AllCovered;
    if events == [] {
      GuardedIsCovered(t);
    } else {
      GuardedStep(cfg, s, events[0]);
      GuardedRun(cfg, Apply(cfg, s, events[0]), events[1..], t);
    }
  }

  /** The invariant of a single pass implies the guard. */
  lemma InStepIsGuarded(s: State)
    requires InStep(s)
    ensures Guarded(s)
  {
    assert PassesGuarded(s) by {
      forall p | p in s.passes ensures PassGuarded(s, s.passes[p]) { InStepGuardsPass(s, p); }
      hide PassGuarded, Sound;
    }
    hide PassesGuarded, PassesAgree;
    InStepGuardsRows(s);
  }

  lemma InStepGuardsRows(s: State)
    requires Sound(s) && Settled(s) && CallsAgree(s)
    ensures RowsGuarded(s.store) && CallsGuarded(s)
  {
    forall id | id in s.store.transfers ensures RowGuarded(s.store, id) {
      assert SettledAt(s.store, id);
    }
    forall id | id in s.calls ensures CallGuarded(s, id) {
      assert CallOk(s.store, id, s.calls[id]);
      assert CallAgrees(s.store.transfers[id], ReservationOf(s.store, id), s.calls[id]);
    }
  }

  lemma InStepGuardsPass(s: State, p: nat)
    requires InStep(s) && p in s.passes
    ensures PassGuarded(s, s.passes[p])
  {
    InStepGuardsRows(s);
    var pass := s.passes[p];
    assert PassOk(s.store, pass);
    hide Sound, CallsAgree, WellFormed, SameTransfer;
    forall j | FirstLeft(pass) <= j < |pass.listed| ensures CopyGuarded(s, pass.listed[j], pass.live) {
      assert SnapshotIsFresh(s, pass.listed[j], pass.live);
      assert SnapshotOk(s.store, pass.listed[j]);
      assert RowGuarded(s.store, pass.listed[j].operationId);
    }
  }
}
