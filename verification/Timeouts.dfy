/** Exactly when timing out a RESERVED operation is safe: for coverage, when its call is gone or
    in its catch block; for the row it writes, when its call is gone. */
module Timeouts {
  import opened Wrappers
  import opened Domain
  import opened LimitWindows
  import opened Usage
  import opened Tables
  import opened Protocol
  import opened Interleavings
  import opened Discipline
  import opened Safety
  import opened Guards
  import opened WithoutDiscipline

  // --------------------------------------------------------------------- the safe half

  lemma OnlyPass(s: State, p: nat, id: Id)
    requires InStep(s) && p in s.passes
    ensures NoneElseConfirms(s, p, id)
  {
    hide Sound, Settled, CallsAgree;
  }

  lemma MayTimeOut(cfg: Config, s: State, p: nat, message: string, reason: string, now: Instant, events: seq<Event>, t: State)
    requires InStep(s) && ReachedReserved(s, p)
    requires Current(s.passes[p]).actorRole == Agent ==> !MayStillSend(s, Current(s.passes[p]).operationId)
    requires DisciplinedRun(cfg, CarryOut(s, p, Fail(message, reason), now), events, t)
    ensures AllCovered(t.store)
  {
    hide DisciplinedRun, CarryOut, AllCovered, Guarded, NoneElseConfirms, InStep;
    InStepIsGuarded(s);
    OnlyPass(s, p, Current(s.passes[p]).operationId);
    FailGuarded(s, p, message, reason, now);
    GuardedRun(cfg, CarryOut(s, p, Fail(message, reason), now), events, t);
  }

  lemma NoLimitsNoRejection(s: Store, key: LimitKey, amount: nat, b: Boundaries)
    requires forall window: LimitWindow :: LimitOf(PolicyOf(s.policies, key), window).None?
    ensures Verdict(s, key, amount, b).None?
  {
    hide TableTotals;
    FirstExceeded(key, amount, PolicyOf(s.policies, key), TableTotals(s.reservations, key, b), b);
  }

  // ------------------------------------------------------------------- the unsafe half

  const NO_LIMITS := PolicyPatch(Set(None), Set(None), Set(None))

  lemma LiftedLimits(s: Store, key: LimitKey, now: Instant)
    ensures forall window: LimitWindow :: LimitOf(PolicyOf(UpdatePolicy(s, key, NO_LIMITS, Owner, now).policies, key), window).None?
  {
  }

  lemma TimeoutKeepsCalls(s: State, p: nat, message: string, reason: string, now: Instant)
    requires ReachedReserved(s, p)
    ensures var t := CarryOut(s, p, Fail(message, reason), now);
            && t.calls == s.calls && p in t.passes
            && t.passes[p].step.Releasing? && t.passes[p].next < |t.passes[p].listed|
            && Current(t.passes[p]) == Current(s.passes[p])
  {
  }

  lemma AdmittedOnFreeKey(s: State, p: nat, b: Boundaries, now: Instant)
    requires p in s.passes && s.passes[p].step.Releasing? && s.passes[p].next < |s.passes[p].listed|
    requires var id := Current(s.passes[p]).operationId;
             && id in s.calls && s.calls[id].operation.operationId == id && s.calls[id].operation.actorRole == Agent
             && Verdict(s.store, s.calls[id].operation.key, s.calls[id].operation.requestedAmount, b).None?
    ensures var t := TryAdmit(s, Current(s.passes[p]).operationId, b, now);
            AboutToRelease(t, p) && Current(t.passes[p]) == Current(s.passes[p])
  {
    hide Verdict;
  }

  function Lifted(s: State, key: LimitKey, now: Instant): State {
    s.(store := UpdatePolicy(s.store, key, NO_LIMITS, Owner, now))
  }

  /** A call that still waits for admission can be admitted between the two writes of the pass,
      once the owner lifts the limits; then it is on its way. */
  lemma AdmittedBetweenWrites(s: State, p: nat, message: string, reason: string, now: Instant, b: Boundaries)
    requires Sound(s) && ReachedReserved(s, p) && Current(s.passes[p]).actorRole == Agent
    requires var id := Current(s.passes[p]).operationId; id in s.calls && s.calls[id].step == Admitting
    ensures var id := Current(s.passes[p]).operationId;
            var s1 := CarryOut(s, p, Fail(message, reason), now);
            && s1.calls == s.calls
            && var t := TryAdmit(Lifted(s1, s.calls[id].operation.key, now), id, b, now);
               AboutToRelease(t, p) && Current(t.passes[p]) == Current(s.passes[p])
  {
    ActorOfCall(s, p);
    TimeoutKeepsCalls(s, p, message, reason, now);
    hide Sound, CarryOut, Verdict, ReachedReserved, AboutToRelease, TryAdmit;
    var s1 := CarryOut(s, p, Fail(message, reason), now);
    var op := s.calls[Current(s.passes[p]).operationId].operation;
    LiftedLimits(s1.store, op.key, now);
    var s2 := Lifted(s1, op.key, now);
    NoLimitsNoRejection(s2.store, op.key, op.requestedAmount, b);
    hide UpdatePolicy;
    AdmittedOnFreeKey(s2, p, b, now);
  }

  lemma LiftAndAdmit(cfg: Config, s: State, id: Id, now: Instant, tail: seq<Event>, t: State) returns (events: seq<Event>)
    requires id in s.calls && s.calls[id].step == Admitting
    requires DisciplinedRun(cfg, TryAdmit(Lifted(s, s.calls[id].operation.key, now), id, cfg.windows(now), now), tail, t)
    ensures DisciplinedRun(cfg, s, events, t)
  {
    hide DisciplinedRun, TryAdmit, UpdatePolicy;
    var lift := ChangePolicy(s.calls[id].operation.key, NO_LIMITS, Owner, now);
    var next := Lifted(s, s.calls[id].operation.key, now);
    DisciplinedFirst(cfg, next, Admit(id, now, now), tail, t);
    DisciplinedFirst(cfg, s, lift, [Admit(id, now, now)] + tail, t);
    events := [lift] + ([Admit(id, now, now)] + tail);
  }

  lemma WaitingCallGoesOutUncovered(cfg: Config, s: State, p: nat, message: string, reason: string, now: Instant, txHash: string)
    returns (events: seq<Event>, t: State)
    requires Sound(s) && ReachedReserved(s, p) && Current(s.passes[p]).actorRole == Agent
    requires var id := Current(s.passes[p]).operationId; id in s.calls && s.calls[id].step == Admitting
    ensures DisciplinedRun(cfg, CarryOut(s, p, Fail(message, reason), now), events, t)
    ensures var id := Current(s.passes[p]).operationId;
            && id in t.store.transfers && t.store.transfers[id].Outgoing()
            && id in t.store.reservations && t.store.reservations[id].status == RELEASED
  {
    var id := Current(s.passes[p]).operationId;
    AdmittedBetweenWrites(s, p, message, reason, now, cfg.windows(now));
    hide Sound, CarryOut, DisciplinedRun, AboutToRelease, ReachedReserved, TryAdmit, Lifted;
    var s1 := CarryOut(s, p, Fail(message, reason), now);
    var s3 := TryAdmit(Lifted(s1, s.calls[id].operation.key, now), id, cfg.windows(now), now);
    var tail: seq<Event>;
    tail, t := ReleaseThenSend(cfg, s3, p, now, txHash);
    events := LiftAndAdmit(cfg, s1, id, now, tail, t);
  }

  lemma SendingCallGoesOutUncovered(cfg: Config, s: State, p: nat, message: string, reason: string, now: Instant)
    returns (events: seq<Event>, t: State)
    requires Sound(s) && ReachedReserved(s, p) && Current(s.passes[p]).actorRole == Agent && MayStillSend(s, Current(s.passes[p]).operationId)
    ensures DisciplinedRun(cfg, CarryOut(s, p, Fail(message, reason), now), events, t)
    ensures !AllCovered(t.store)
  {
    var id := Current(s.passes[p]).operationId;
    ActorOfCall(s, p);
    hide Sound, CarryOut, DisciplinedRun;
    if s.calls[id].step == Admitting {
      events, t := WaitingCallGoesOutUncovered(cfg, s, p, message, reason, now, "hash");
    } else {
      events, t := RunningCallGoesOutUncovered(cfg, s, p, message, reason, now, "hash");
    }
    assert !Covered(t.store, id);
  }

  lemma ActorOfCall(s: State, p: nat)
    requires Sound(s) && ReachedReserved(s, p) && Current(s.passes[p]).actorRole == Agent && Current(s.passes[p]).operationId in s.calls
    ensures var call := s.calls[Current(s.passes[p]).operationId];
            && call.operation.operationId == Current(s.passes[p]).operationId && call.operation.actorRole == Agent
            && (call.step == Broadcasting || call.step.SavingSubmitted? ==> call.hasReservation)
  {
    assert CallOk(s.store, Current(s.passes[p]).operationId, s.calls[Current(s.passes[p]).operationId]);
    CurrentIsPending(s, p);
    assert StoreOk(s.store);
    hide Sound, WellFormed;
  }

  /** Timing out an operation that a pass listed as RESERVED is safe exactly when it is not an
      AGENT operation whose call may still send it: the call has stopped, or is in its catch
      block. Then, and only then, all disciplined continuations keep every outgoing operation
      covered. */
  lemma TimeoutIsSafeIffCallCannotSend(cfg: Config, s: State, p: nat, message: string, reason: string, now: Instant)
    requires InStep(s) && ReachedReserved(s, p)
    ensures (forall events, t | DisciplinedRun(cfg, CarryOut(s, p, Fail(message, reason), now), events, t) :: AllCovered(t.store))
            <==> !(Current(s.passes[p]).actorRole == Agent && MayStillSend(s, Current(s.passes[p]).operationId))
  {
    assert Sound(s);
    hide InStep, Sound, CarryOut, DisciplinedRun, AllCovered;
    if Current(s.passes[p]).actorRole == Agent && MayStillSend(s, Current(s.passes[p]).operationId) {
      var events, t := SendingCallGoesOutUncovered(cfg, s, p, message, reason, now);
    } else {
      forall events, t | DisciplinedRun(cfg, CarryOut(s, p, Fail(message, reason), now), events, t) ensures AllCovered(t.store) {
        MayTimeOut(cfg, s, p, message, reason, now, events, t);
      }
    }
  }

  // ----------------------------------------------------------------------- the FAILED row

  /** The catch block always saves FAILED, from the operation the call created. */
  lemma CatchSavesFailed(cfg: Config, u: State, id: Id, now: Instant) returns (events: seq<Event>, t: State)
    requires id in u.calls && InCatch(u.calls[id]) && u.calls[id].operation.operationId == id
    ensures DisciplinedRun(cfg, u, events, t)
    ensures id in t.store.transfers && t.store.transfers[id].failedAt == Some(now)
  {
    hide DisciplinedRun, TransferAction, ReleaseReservation;
    if u.calls[id].step.SavingFailed? {
      DisciplinedOne(cfg, u, SaveFailed(id, now));
      events, t := [SaveFailed(id, now)], CommitCallFailed(u, id, now);
    } else {
      var released := ReleaseInCatch(u, id, now);
      DisciplinedOne(cfg, released, SaveFailed(id, now));
      DisciplinedFirst(cfg, u, Compensate(id, now), [SaveFailed(id, now)], CommitCallFailed(released, id, now));
      events, t := [Compensate(id, now)] + [SaveFailed(id, now)], CommitCallFailed(released, id, now);
    }
  }

  function ThrowAt(id: Id, step: CallStep, failure: Failure): Event {
    match step
    case Admitting => AdmitThrows(id, failure)
    case Broadcasting => BroadcastThrows(id, failure)
    case _ => SaveSubmittedThrows(id, failure)
  }

  /** A running call may throw at its next step, and then writes the row again. */
  lemma RunningCallRewrites(cfg: Config, u: State, id: Id, now: Instant) returns (events: seq<Event>, t: State)
    requires id in u.calls && u.calls[id].operation.operationId == id
    ensures DisciplinedRun(cfg, u, events, t)
    ensures id in t.store.transfers && t.store.transfers[id].failedAt == Some(now)
  {
    hide DisciplinedRun;
    if InCatch(u.calls[id]) {
      events, t := CatchSavesFailed(cfg, u, id, now);
    } else {
      var failure := Failure("TRANSFER_BROADCAST_FAILED", "", None);
      var e := ThrowAt(id, u.calls[id].step, failure);
      var rest: seq<Event>;
      rest, t := CatchSavesFailed(cfg, Throw(u, id, failure), id, now);
      DisciplinedFirst(cfg, u, e, rest, t);
      events := [e] + rest;
    }
  }

  lemma TimedOutRow(s: State, p: nat, message: string, reason: string, now: Instant)
    requires Sound(s) && ReachedReserved(s, p)
    ensures var t := CarryOut(s, p, Fail(message, reason), now);
            var id := Current(s.passes[p]).operationId;
            && id in t.store.transfers && t.store.transfers[id].Terminal() && t.store.transfers[id].failedAt == Some(now)
            && t.calls == s.calls && (id in s.calls ==> s.calls[id].operation.operationId == id)
  {
    var id := Current(s.passes[p]).operationId;
    if id in s.calls {
      assert CallOk(s.store, id, s.calls[id]) && StoreOk(s.store);
    }
    hide Sound, WellFormed;
  }

  /** The FAILED row a timeout writes is final exactly when no call of the operation is running,
      whoever made it: a running call of any kind may yet write its own outcome over it. */
  lemma TimedOutRowStaysIffNoCall(cfg: Config, s: State, p: nat, message: string, reason: string, now: Instant)
    requires InStep(s) && ReachedReserved(s, p)
    ensures var id := Current(s.passes[p]).operationId;
            var s1 := CarryOut(s, p, Fail(message, reason), now);
            && id in s1.store.transfers
            && ((forall events, t | DisciplinedRun(cfg, s1, events, t) ::
                   id in t.store.transfers && t.store.transfers[id] == s1.store.transfers[id])
                <==> id !in s.calls)
  {
    var id := Current(s.passes[p]).operationId;
    assert Sound(s);
    TimedOutRow(s, p, message, reason, now);
    hide InStep, Sound, CarryOut, DisciplinedRun;
    var s1 := CarryOut(s, p, Fail(message, reason), now);
    if id in s.calls {
      var events, t := RunningCallRewrites(cfg, s1, id, now + 1);
      assert t.store.transfers[id] != s1.store.transfers[id];
    } else {
      StoppedCallMayTimeOut(s, p, message, reason, now);
      forall events, t | DisciplinedRun(cfg, s1, events, t)
        ensures id in t.store.transfers && t.store.transfers[id] == s1.store.transfers[id]
      {
        TerminalAbsorbs(cfg, s1, events, t, id);
      }
    }
  }
}
