/** The results about disciplined runs from a fresh database. */
module Safety {
  import opened Domain
  import opened Usage
  import opened Tables
  import opened Protocol
  import opened Interleavings
  import opened LimitBound
  import opened Discipline

  lemma {:induction false} DisciplinedIsRun(cfg: Config, s: State, events: seq<Event>, t: State)
    requires DisciplinedRun(cfg, s, events, t)
    ensures Run(cfg, s, events, t)
    decreases |events|
  {
    hide Apply, Disciplined;
    if events != [] {
      DisciplinedIsRun(cfg, Apply(cfg, s, events[0]), events[1..], t);
    }
  }

  // ----------------------------------------------------------------------------- coverage

  /** The operation's money is set aside or spent. */
  ghost predicate Covered(s: Store, id: Id)
    requires id in s.transfers
  {
    && id in s.reservations
    && SameDeal(s.reservations[id], s.transfers[id])
    && s.reservations[id].Counts()
  }

  /** Every AGENT operation stored as SUBMITTED or CONFIRMED has a counted reservation of its
      chain, asset and amount. */
  lemma Coverage(cfg: Config, s: State, events: seq<Event>, t: State, id: Id)
    requires Initial(s) && DisciplinedRun(cfg, s, events, t)
    requires id in t.store.transfers && t.store.transfers[id].Outgoing()
    ensures Covered(t.store, id)
  {
    InitialInStep(s);
    InStepRun(cfg, s, events, t);
  }

  /** The operations on their way or confirmed that were admitted in one window. */
  ghost function OutgoingIn(s: Store, key: LimitKey, window: LimitWindow, start: Instant): set<Id> {
    set id | id in s.transfers && s.transfers[id].Outgoing() && s.transfers[id].key == key
             && id in s.reservations && s.reservations[id].WindowStart(window) == start
  }

  ghost function TotalRequested(transfers: map<Id, TransferOperation>, ids: set<Id>): nat
    requires ids <= transfers.Keys
  {
    if ids == {} then 0
    else
      var id :| id in ids;
      transfers[id].requestedAmount + TotalRequested(transfers, ids - {id})
  }

  lemma {:induction false} CoveredTotal(transfers: map<Id, TransferOperation>, ids: set<Id>, table: ReservationTable, q: Query)
    requires ids <= transfers.Keys && ids <= table.Keys
    requires forall id | id in ids :: Weight(table[id], q) == transfers[id].requestedAmount
    ensures TotalRequested(transfers, ids) <= Sum(table, q)
    decreases |ids|
  {
    if ids != {} {
      var id :| id in ids && TotalRequested(transfers, ids) == transfers[id].requestedAmount + TotalRequested(transfers, ids - {id});
      CoveredTotal(transfers, ids - {id}, table - {id}, q);
      SumWithout(table, id, q);
    }
  }

  /** In every window whose limit stays set and is never lowered, what is stored as SUBMITTED or
      CONFIRMED for agents never exceeds the limit. What they have handed to the chain may: see
      `Broadcasts`. */
  lemma SpendingStaysWithinLimit(cfg: Config, s: State, events: seq<Event>, t: State,
                                 key: LimitKey, window: LimitWindow, start: Instant)
    requires Initial(s) && DisciplinedRun(cfg, s, events, t)
    requires LimitStandsThroughout(cfg, s, events, key, window) && LimitIn(t, key, window).Some?
    ensures TotalRequested(t.store.transfers, OutgoingIn(t.store, key, window, start))
         <= Used(t.store.reservations, key, window, start)
         <= LimitIn(t, key, window).value
  {
    hide LimitIn, LimitStandsThroughout;
    InitialInStep(s);
    InStepRun(cfg, s, events, t);
    var ids := OutgoingIn(t.store, key, window, start);
    forall id | id in ids
      ensures Weight(t.store.reservations[id], Query(key, window, start, COUNTED)) == t.store.transfers[id].requestedAmount
    {
      assert Covered(t.store, id);
    }
    CoveredTotal(t.store.transfers, ids, t.store.reservations, Query(key, window, start, COUNTED));
    DisciplinedIsRun(cfg, s, events, t);
    hide InStep;
    LimitHoldsWithoutRevival(cfg, s, events, t, key, window, start);
  }

  // ---------------------------------------------------------------------------- lifecycle

  predicate MayBecome(a: TransferStatus, b: TransferStatus) {
    || a == b
    || (a == RESERVED && (b == SUBMITTED || b == FAILED))
    || (a == SUBMITTED && (b == CONFIRMED || b == FAILED))
  }

  /** One step for one operation: statuses move forward, and finished operations and settled
      reservations are never written again. */
  ghost predicate MovesForward(s: Store, t: Store, id: Id)
    requires id in s.transfers
  {
    && id in t.transfers
    && MayBecome(s.transfers[id].status, t.transfers[id].status)
    && (s.transfers[id].Terminal() ==> t.transfers[id] == s.transfers[id])
    && (id in s.reservations && s.reservations[id].status != ACTIVE ==>
          id in t.reservations && t.reservations[id] == s.reservations[id])
  }

  lemma CallMovesForward(cfg: Config, s: State, e: Event, id: Id)
    requires InStep(s) && Enabled(s, e) && id in s.store.transfers
    requires e.Admit? || e.SaveSubmitted? || e.SaveFailed? || e.Compensate?
    ensures MovesForward(s.store, Apply(cfg, s, e).store, id)
  {
    hide InStep, Sound, WellFormed, SameTransfer, Verdict, TransferAction;
    AboutCall(s, e.id);
  }

  lemma VerdictMovesForward(s: State, p: nat, decision: Decision, now: Instant, id: Id)
    requires p in s.passes && s.passes[p].next < |s.passes[p].listed| && id in s.store.transfers
    requires var op := Current(s.passes[p]);
             decision == Noop || (op.operationId in s.store.transfers && s.store.transfers[op.operationId] == op && op.Pending())
    requires decision == Confirm ==> Current(s.passes[p]).status == SUBMITTED
    ensures MovesForward(s.store, CarryOut(s, p, decision, now).store, id)
  {
  }

  lemma SettlementMovesForward(s: State, p: nat, now: Instant, id: Id)
    requires InStep(s) && p in s.passes && s.passes[p].next < |s.passes[p].listed| && MidOperation(s.passes[p])
    requires id in s.store.transfers
    ensures MovesForward(s.store, Settle(s, p, now).store, id)
  {
    hide InStep, Sound, SnapshotOk, WellFormed, SameTransfer;
    AboutPass(s, p);
  }

  lemma PassMovesForward(cfg: Config, s: State, e: Event, id: Id)
    requires InStep(s) && Enabled(s, e) && Disciplined(cfg, s, e) && id in s.store.transfers
    requires e.Examine? || e.SettleReservation?
    ensures MovesForward(s.store, Apply(cfg, s, e).store, id)
  {
    hide InStep, MovesForward, Settle, CarryOut, Decide, SnapshotOk;
    match e {
      case Examine(p, now, answer) =>
        AboutPass(s, p);
        ExaminedIsFresh(cfg, s, e);
        CurrentPending(s, p);
        ConfirmsOnlySubmitted(cfg, Current(s.passes[p]), now, answer);
        VerdictMovesForward(s, p, Decide(cfg, Current(s.passes[p]), now, answer), now, id);
      case SettleReservation(p, now) => SettlementMovesForward(s, p, now, id);
    }
  }

  lemma LifecycleStep(cfg: Config, s: State, e: Event, id: Id)
    requires InStep(s) && Enabled(s, e) && Disciplined(cfg, s, e) && id in s.store.transfers
    ensures MovesForward(s.store, Apply(cfg, s, e).store, id)
  {
    hide InStep, Apply, MovesForward, Disciplined, Enabled;
    if e.Admit? || e.SaveSubmitted? || e.SaveFailed? || e.Compensate? {
      CallMovesForward(cfg, s, e, id);
    } else if e.Examine? || e.SettleReservation? {
      PassMovesForward(cfg, s, e, id);
    } else {
      OthersMoveForward(cfg, s, e, id);
    }
  }

  lemma OthersMoveForward(cfg: Config, s: State, e: Event, id: Id)
    requires Enabled(s, e) && id in s.store.transfers
    requires !e.Admit? && !e.SaveSubmitted? && !e.SaveFailed? && !e.Compensate? && !e.Examine? && !e.SettleReservation?
    ensures MovesForward(s.store, Apply(cfg, s, e).store, id)
  {
    hide Decide, Catch, TryAdmit, CommitSubmitted, CommitCallFailed, ReleaseInCatch, CarryOut, Settle;
  }

  /** Finished operations and settled reservations are final over whole runs. */
  lemma {:induction false} TerminalAbsorbs(cfg: Config, s: State, events: seq<Event>, t: State, id: Id)
    requires InStep(s) && DisciplinedRun(cfg, s, events, t) && id in s.store.transfers
    ensures id in t.store.transfers
    ensures s.store.transfers[id].Terminal() ==> t.store.transfers[id] == s.store.transfers[id]
    ensures id in s.store.reservations && s.store.reservations[id].status != ACTIVE ==>
              id in t.store.reservations && t.store.reservations[id] == s.store.reservations[id]
    decreases |events|
  {
    hide InStep, Apply, Disciplined, Enabled, MayBecome;
    if events != [] {
      InStepStep(cfg, s, events[0]);
      LifecycleStep(cfg, s, events[0], id);
      TerminalAbsorbs(cfg, Apply(cfg, s, events[0]), events[1..], t, id);
    }
  }

  /** In every reachable state a consumed reservation belongs to a CONFIRMED operation and a
      released one to an operation that is neither SUBMITTED nor CONFIRMED. */
  lemma ReservationsAgree(cfg: Config, s: State, events: seq<Event>, t: State, id: Id)
    requires Initial(s) && DisciplinedRun(cfg, s, events, t)
    requires id in t.store.reservations
    ensures id in t.store.transfers
    ensures t.store.reservations[id].status == CONSUMED ==> t.store.transfers[id].status == CONFIRMED
    ensures t.store.reservations[id].status == RELEASED ==> !t.store.transfers[id].Outgoing()
  {
    InitialInStep(s);
    InStepRun(cfg, s, events, t);
  }

  // ---------------------------------------------------------------------- crash accounting

  /** How many stops and crashes of a run hit a pass between its two writes. */
  ghost function Interruptions(cfg: Config, s: State, events: seq<Event>): nat
    decreases |events|
  {
    if events == [] || !Enabled(s, events[0]) then 0
    else (if HitsPass(s, events[0]) then 1 else 0) + Interruptions(cfg, Apply(cfg, s, events[0]), events[1..])
  }

  ghost predicate HitsPass(s: State, e: Event)
    requires Enabled(s, e)
  {
    (e.StopPass? && Stopped(s.passes[e.pass]) != {}) || (e.Crash? && StoppedByCrash(s.passes) != {})
  }

  lemma AtMostOneInProgress(s: State)
    requires PassesAgree(s)
    ensures |InProgress(s)| <= 1
  {
    if InProgress(s) != {} {
      var id :| id in InProgress(s);
      var p :| p in s.passes && id in Stopped(s.passes[p]);
      assert InProgress(s) == {id};
    }
  }

  lemma OthersDoNotInterrupt(cfg: Config, s: State, e: Event)
    requires Enabled(s, e) && !e.StopPass? && !e.Crash?
    ensures Apply(cfg, s, e).interrupted == s.interrupted
  {
    hide Decide, Verdict, UpdatePolicy, CommitTransfer, ReleaseReservation, ConsumeReservation, Catch;
  }

  lemma AloneWhenStopped(s: State, p: nat)
    requires PassesAgree(s) && p in s.passes
    ensures |Stopped(s.passes[p])| <= 1
  {
  }

  lemma StopInterrupts(cfg: Config, s: State, p: nat)
    requires PassesAgree(s) && p in s.passes
    ensures |Apply(cfg, s, StopPass(p)).interrupted| <= |s.interrupted| + if Stopped(s.passes[p]) != {} then 1 else 0
  {
    AloneWhenStopped(s, p);
    hide PassesAgree, Stopped;
    SizeOfUnion(s.interrupted, Stopped(s.passes[p]));
  }

  lemma CrashInterrupts(cfg: Config, s: State)
    requires PassesAgree(s)
    ensures |Apply(cfg, s, Crash).interrupted| <= |s.interrupted| + if StoppedByCrash(s.passes) != {} then 1 else 0
  {
    AtMostOneInProgress(s);
    hide PassesAgree, StoppedByCrash;
    SizeOfUnion(s.interrupted, StoppedByCrash(s.passes));
  }

  lemma InterruptionStep(cfg: Config, s: State, e: Event)
    requires InStep(s) && Enabled(s, e)
    ensures |Apply(cfg, s, e).interrupted| <= |s.interrupted| + if HitsPass(s, e) then 1 else 0
  {
    assert PassesAgree(s);
    hide InStep, Apply, PassesAgree, Stopped, StoppedByCrash;
    if e.StopPass? {
      StopInterrupts(cfg, s, e.pass);
    } else if e.Crash? {
      CrashInterrupts(cfg, s);
    } else {
      OthersDoNotInterrupt(cfg, s, e);
    }
  }

  lemma SizeOfUnion<T>(a: set<T>, b: set<T>)
    ensures |a + b| <= |a| + |b|
  {
    assert a + b == a + (b - a);
    assert |a + (b - a)| == |a| + |b - a|;
    assert b == (b - a) + (b * a);
    assert |b| == |b - a| + |b * a|;
  }

  lemma {:induction false} InterruptionsBound(cfg: Config, s: State, events: seq<Event>, t: State)
    requires InStep(s) && DisciplinedRun(cfg, s, events, t)
    ensures |t.interrupted| <= |s.interrupted| + Interruptions(cfg, s, events)
    decreases |events|
  {
    hide InStep, Apply, Disciplined, Enabled, HitsPass;
    if events != [] {
      InStepStep(cfg, s, events[0]);
      InterruptionStep(cfg, s, events[0]);
      InterruptionsBound(cfg, Apply(cfg, s, events[0]), events[1..], t);
    }
  }

  /** Finished operations whose reservation is still active are accounted for by interrupted
      settlement steps, plus the one a pass is in the middle of. */
  lemma CrashAccounting(cfg: Config, s: State, events: seq<Event>, t: State)
    requires Initial(s) && DisciplinedRun(cfg, s, events, t)
    ensures |Unsettled(t)| <= Interruptions(cfg, s, events) + |InProgress(t)|
    ensures |InProgress(t)| <= 1
  {
    InitialInStep(s);
    InStepRun(cfg, s, events, t);
    InterruptionsBound(cfg, s, events, t);
    AtMostOneInProgress(t);
    SizeOfUnion(t.interrupted, InProgress(t));
    SizeOfSubset(Unsettled(t), t.interrupted + InProgress(t));
  }

  lemma SizeOfSubset<T>(a: set<T>, b: set<T>)
    requires a <= b
    ensures |a| <= |b|
  {
    assert b == a + (b - a);
  }
}
