/** An invariant for any number of passes at once under which a stored outcome is final: what one
    pass may yet write, no other pass and no call may write. */
module Finality {
  import opened Domain
  import opened Tables
  import opened Protocol
  import opened Interleavings
  import opened Discipline
  import opened Guards

  predicate Unfinished(s: Store, id: Id) {
    id in s.transfers && !s.transfers[id].Terminal()
  }

  predicate CopyOpen(s: State, id: Id) {
    id !in s.calls && Unfinished(s.store, id)
  }

  ghost predicate PassOpen(s: State, pass: Pass) {
    && Distinct(pass.listed)
    && forall j | FirstLeft(pass) <= j < |pass.listed| && Writable(pass.listed[j], pass.live) ::
         CopyOpen(s, pass.listed[j].operationId)
  }

  /** No operation is left for both passes to write. */
  ghost predicate Disjoint(a: Pass, b: Pass) {
    forall i, j | FirstLeft(a) <= i < |a.listed| && FirstLeft(b) <= j < |b.listed|
                  && Writable(a.listed[i], a.live) && Writable(b.listed[j], b.live) ::
      a.listed[i].operationId != b.listed[j].operationId
  }

  /** While a call runs its operation is stored as RESERVED. */
  ghost predicate CallsOpen(s: State) {
    forall id | id in s.calls :: id in s.store.transfers && s.store.transfers[id].status == RESERVED
  }

  ghost predicate PassesOpen(s: State) {
    forall p | p in s.passes :: PassOpen(s, s.passes[p])
  }

  ghost predicate PassesDisjoint(s: State) {
    forall p, q | p in s.passes && q in s.passes && p != q :: Disjoint(s.passes[p], s.passes[q])
  }

  ghost predicate Exclusive(s: State) {
    Sound(s) && CallsOpen(s) && PassesOpen(s) && PassesDisjoint(s)
  }

  /** Finished rows are as they were. */
  ghost predicate KeepsFinished(s: Store, t: Store) {
    forall id | id in s.transfers && s.transfers[id].Terminal() :: id in t.transfers && t.transfers[id] == s.transfers[id]
  }

  // ------------------------------------------------------------------------ preservation

  /** The step writes no operation but this one. */
  ghost predicate WritesAt(s: State, t: State, id: Id) {
    id in t.store.transfers && t.store.transfers == s.store.transfers[id := t.store.transfers[id]]
  }

  lemma CallStepExclusive(s: State, t: State, id: Id)
    requires Exclusive(s) && Sound(t) && id in s.calls && t.passes == s.passes
    requires t.calls.Keys <= s.calls.Keys && WritesAt(s, t, id) && (id in t.calls ==> t.store.transfers == s.store.transfers)
    ensures Exclusive(t) && KeepsFinished(s.store, t.store)
  {
    hide Sound, Disjoint;
    forall p | p in t.passes ensures PassOpen(t, t.passes[p]) {
      CallKeepsOpen(s, t, id, t.passes[p]);
    }
  }

  lemma CallKeepsOpen(s: State, t: State, id: Id, pass: Pass)
    requires PassOpen(s, pass) && id in s.calls && t.calls.Keys <= s.calls.Keys && WritesAt(s, t, id)
    ensures PassOpen(t, pass)
  {
    forall j | FirstLeft(pass) <= j < |pass.listed| && Writable(pass.listed[j], pass.live)
      ensures CopyOpen(t, pass.listed[j].operationId)
    {
      assert CopyOpen(s, pass.listed[j].operationId);
    }
  }

  lemma StartExclusive(s: State, op: TransferOperation)
    requires Exclusive(s) && op.operationId !in s.store.transfers && WellFormed(op) && op.status == RESERVED
    ensures Exclusive(StartCall(s, op)) && KeepsFinished(s.store, StartCall(s, op).store)
  {
    hide WellFormed, StoreOk, PassOk, CallOk, PassOpen, Disjoint;
    SoundStart(s, op);
    NewIdIsNowhere(s, op.operationId);
    hide Sound;
    var t := StartCall(s, op);
    forall p | p in t.passes ensures PassOpen(t, t.passes[p]) {
      StartKeepsOpen(s, t, op.operationId, t.passes[p]);
    }
  }

  lemma StartKeepsOpen(s: State, t: State, id: Id, pass: Pass)
    requires PassOpen(s, pass) && t.calls.Keys == s.calls.Keys + {id} && WritesAt(s, t, id)
    requires forall j | 0 <= j < |pass.listed| :: pass.listed[j].operationId != id
    ensures PassOpen(t, pass)
  {
    forall j | FirstLeft(pass) <= j < |pass.listed| && Writable(pass.listed[j], pass.live)
      ensures CopyOpen(t, pass.listed[j].operationId)
    {
      assert CopyOpen(s, pass.listed[j].operationId);
    }
  }

  lemma DisjointMoves(a: Pass, b: Pass, other: Pass)
    requires Disjoint(a, other) && Disjoint(other, a) && PassMovedOn(a, b)
    ensures Disjoint(b, other) && Disjoint(other, b)
  {
  }

  lemma OwnListMoves(s: State, t: State, a: Pass, b: Pass)
    requires PassOpen(s, a) && PassMovedOn(a, b) && t.calls == s.calls
    requires t.store.transfers == s.store.transfers || WritesAt(s, t, Current(a).operationId)
    ensures PassOpen(t, b)
  {
    forall j | FirstLeft(b) <= j < |b.listed| && Writable(b.listed[j], b.live)
      ensures CopyOpen(t, b.listed[j].operationId)
    {
      assert CopyOpen(s, a.listed[j].operationId);
      assert a.listed[j].operationId != a.listed[a.next].operationId;
    }
  }

  /** Another pass while one pass writes an operation that is its own. */
  lemma OtherListStays(s: State, t: State, a: Pass, pass: Pass)
    requires PassOpen(s, pass) && Disjoint(a, pass) && t.calls == s.calls && a.next < |a.listed|
    requires t.store.transfers == s.store.transfers
          || (WritesAt(s, t, Current(a).operationId) && !MidOperation(a) && Writable(Current(a), a.live))
    ensures PassOpen(t, pass)
  {
    forall j | FirstLeft(pass) <= j < |pass.listed| && Writable(pass.listed[j], pass.live)
      ensures CopyOpen(t, pass.listed[j].operationId)
    {
      assert CopyOpen(s, pass.listed[j].operationId);
    }
  }

  /** A pass writes from a copy that is its own to write, or writes no operation. */
  ghost predicate WritesItsOwn(s: State, t: State, a: Pass) {
    || t.store.transfers == s.store.transfers
    || (a.next < |a.listed| && WritesAt(s, t, Current(a).operationId) && !MidOperation(a) && Writable(Current(a), a.live))
  }

  lemma PassStepExclusive(s: State, t: State, p: nat)
    requires Exclusive(s) && Sound(t) && p in s.passes && p in t.passes && PassMovedOn(s.passes[p], t.passes[p])
    requires t.calls == s.calls && t.passes == s.passes[p := t.passes[p]] && WritesItsOwn(s, t, s.passes[p])
    ensures Exclusive(t) && KeepsFinished(s.store, t.store)
  {
    hide Sound, Disjoint, PassMovedOn, PassOpen;
    var a := s.passes[p];
    forall q | q in t.passes ensures PassOpen(t, t.passes[q]) {
      assert PassOpen(s, s.passes[q]);
      if q == p {
        OwnListMoves(s, t, a, t.passes[p]);
      } else {
        InList(a, t.passes[p]);
        OtherListStays(s, t, a, s.passes[q]);
      }
    }
    forall q, r | q in t.passes && r in t.passes && q != r ensures Disjoint(t.passes[q], t.passes[r]) {
      if q == p { DisjointMoves(a, t.passes[p], s.passes[r]); }
      if r == p { DisjointMoves(a, t.passes[p], s.passes[q]); }
    }
    OwnCopyIsOpen(s, a);
  }

  lemma InList(a: Pass, b: Pass)
    requires PassMovedOn(a, b)
    ensures a.next < |a.listed|
  {
  }

  lemma OwnCopyIsOpen(s: State, a: Pass)
    requires PassOpen(s, a)
    ensures a.next < |a.listed| && !MidOperation(a) && Writable(Current(a), a.live) ==> CopyOpen(s, Current(a).operationId)
  {
  }

  // ------------------------------------------------------------------------- one step

  lemma StoredCall(s: State, id: Id)
    requires Sound(s) && id in s.calls
    ensures id in s.store.transfers && s.calls[id].operation.operationId == id
  {
    assert CallOk(s.store, id, s.calls[id]) && StoreOk(s.store);
  }

  predicate OfACall(e: Event) {
    || e.Admit? || e.AdmitThrows? || e.BroadcastReturns? || e.BroadcastThrows? || e.SaveSubmitted?
    || e.SaveSubmittedThrows? || e.Compensate? || e.SaveFailed? || e.StopCall?
  }

  /** A call writes the operation only in its last step. */
  lemma CallWrites(cfg: Config, s: State, e: Event)
    requires Enabled(s, e) && OfACall(e) && e.id in s.store.transfers
    requires e.id in s.calls ==> s.calls[e.id].operation.operationId == e.id
    ensures var t := Apply(cfg, s, e);
            && e.id in s.calls && t.passes == s.passes && t.calls.Keys <= s.calls.Keys
            && WritesAt(s, t, e.id) && (e.id in t.calls ==> t.store.transfers == s.store.transfers)
  {
    assert s.store.transfers == s.store.transfers[e.id := s.store.transfers[e.id]];
    hide Verdict, Catch, TransferAction, ReleaseAssetLimitReservation, Reservation;
  }

  lemma CallEventExclusive(cfg: Config, s: State, e: Event)
    requires Exclusive(s) && Enabled(s, e) && OfACall(e)
    ensures Exclusive(Apply(cfg, s, e)) && KeepsFinished(s.store, Apply(cfg, s, e).store)
  {
    ExclusiveIsSound(s);
    hide Sound, Exclusive, KeepsFinished, Apply, WritesAt;
    SoundStep(cfg, s, e);
    StoredCall(s, e.id);
    CallWrites(cfg, s, e);
    CallStepExclusive(s, Apply(cfg, s, e), e.id);
  }

  lemma ExclusiveIsSound(s: State)
    ensures Exclusive(s) ==> Sound(s)
  {
  }

  lemma VerdictWritesItsOwn(s: State, p: nat, decision: Decision, now: Instant)
    requires p in s.passes && s.passes[p].next < |s.passes[p].listed| && !MidOperation(s.passes[p])
    requires decision != Noop ==> Writable(Current(s.passes[p]), s.passes[p].live)
    ensures var t := CarryOut(s, p, decision, now);
            && p in t.passes && PassMovedOn(s.passes[p], t.passes[p]) && t.calls == s.calls && t.passes == s.passes[p := t.passes[p]]
            && WritesItsOwn(s, t, s.passes[p])
  {
    hide Writable;
  }

  lemma SettleWritesNone(s: State, p: nat, now: Instant)
    requires p in s.passes && s.passes[p].next < |s.passes[p].listed| && MidOperation(s.passes[p])
    ensures var t := Settle(s, p, now);
            && p in t.passes && PassMovedOn(s.passes[p], t.passes[p]) && t.calls == s.calls && t.passes == s.passes[p := t.passes[p]]
            && t.store.transfers == s.store.transfers
  {
    hide ReleaseAssetLimitReservation, ConsumeAssetLimitReservation;
  }

  lemma ExamineExclusive(cfg: Config, s: State, p: nat, now: Instant, answer: ChainAnswer)
    requires Exclusive(s) && Enabled(s, Examine(p, now, answer)) && Disciplined(cfg, s, Examine(p, now, answer))
    ensures var t := Apply(cfg, s, Examine(p, now, answer)); Exclusive(t) && KeepsFinished(s.store, t.store)
  {
    ExclusiveIsSound(s);
    hide Sound, Exclusive, KeepsFinished, Decide, CarryOut, PassMovedOn, WritesItsOwn, Writable;
    SoundStep(cfg, s, Examine(p, now, answer));
    VerdictIsItsOwn(cfg, s, p, now, answer);
    VerdictWritesItsOwn(s, p, Decide(cfg, Current(s.passes[p]), now, answer), now);
    PassStepExclusive(s, CarryOut(s, p, Decide(cfg, Current(s.passes[p]), now, answer), now), p);
  }

  lemma SettleExclusive(cfg: Config, s: State, p: nat, now: Instant)
    requires Exclusive(s) && Enabled(s, SettleReservation(p, now))
    ensures var t := Apply(cfg, s, SettleReservation(p, now)); Exclusive(t) && KeepsFinished(s.store, t.store)
  {
    ExclusiveIsSound(s);
    hide Sound, Exclusive, KeepsFinished, Settle, PassMovedOn;
    SoundStep(cfg, s, SettleReservation(p, now));
    SettleWritesNone(s, p, now);
    PassStepExclusive(s, Settle(s, p, now), p);
  }

  /** A new pass when it shares no operation with a running one that both may write. */
  lemma BeginExclusive(s: State, q: nat, limit: nat, listed: seq<TransferOperation>)
    requires Exclusive(s) && q !in s.passes && ListedByStatuses(s.store.transfers, limit, listed)
    requires forall p | p in s.passes :: Disjoint(s.passes[p], Pass(listed, 0, Examining, s.calls.Keys))
    ensures Exclusive(s.(passes := s.passes[q := Pass(listed, 0, Examining, s.calls.Keys)]))
  {
    var t := s.(passes := s.passes[q := Pass(listed, 0, Examining, s.calls.Keys)]);
    SoundBegin(s, q, limit, listed);
    hide Sound;
    forall p | p in t.passes ensures PassOpen(t, t.passes[p]) {
      if p == q { ListedIsOpen(s, t, q, limit, listed); } else { SameIsOpen(s, t, s.passes[p]); }
    }
    hide PassOpen;
    forall p, r | p in t.passes && r in t.passes && p != r ensures Disjoint(t.passes[p], t.passes[r]) {
      if p == q { DisjointSwaps(t.passes[r], t.passes[p]); }
    }
  }

  lemma DisjointSwaps(a: Pass, b: Pass)
    requires Disjoint(a, b)
    ensures Disjoint(b, a)
  {
  }

  lemma ListedIsOpen(s: State, t: State, q: nat, limit: nat, listed: seq<TransferOperation>)
    requires CallsOpen(s) && ListedByStatuses(s.store.transfers, limit, listed)
    requires t.store == s.store && t.calls == s.calls
    ensures PassOpen(t, Pass(listed, 0, Examining, s.calls.Keys))
  {
    forall j | 0 <= j < |listed| && Writable(listed[j], s.calls.Keys) ensures CopyOpen(t, listed[j].operationId) {
      assert IsPendingRow(s.store.transfers, listed[j]);
    }
  }

  lemma SameIsOpen(s: State, t: State, pass: Pass)
    requires PassOpen(s, pass) && t.store.transfers == s.store.transfers && t.calls.Keys <= s.calls.Keys
    ensures PassOpen(t, pass)
  {
    forall j | FirstLeft(pass) <= j < |pass.listed| && Writable(pass.listed[j], pass.live)
      ensures CopyOpen(t, pass.listed[j].operationId)
    {
      assert CopyOpen(s, pass.listed[j].operationId);
    }
  }

  /** Passes and calls may end at any point, and policies change. */
  lemma DropExclusive(s: State, t: State)
    requires Exclusive(s) && Sound(t) && t.store.transfers == s.store.transfers && t.calls.Keys <= s.calls.Keys
    requires t.passes.Keys <= s.passes.Keys && forall p | p in t.passes :: t.passes[p] == s.passes[p]
    ensures Exclusive(t) && KeepsFinished(s.store, t.store)
  {
    hide Sound, Disjoint, PassOpen;
    forall p | p in t.passes ensures PassOpen(t, t.passes[p]) {
      SameIsOpen(s, t, s.passes[p]);
    }
  }

  lemma OtherEventExclusive(cfg: Config, s: State, e: Event)
    requires Exclusive(s) && Enabled(s, e) && (e.EndPass? || e.StopPass? || e.Crash? || e.ChangePolicy?)
    ensures Exclusive(Apply(cfg, s, e)) && KeepsFinished(s.store, Apply(cfg, s, e).store)
  {
    ExclusiveIsSound(s);
    hide Sound, Exclusive, KeepsFinished, NextPolicy;
    SoundStep(cfg, s, e);
    DropExclusive(s, Apply(cfg, s, e));
  }

  /** Every disciplined step keeps the invariant, and leaves finished rows as they are. */
  lemma ExclusiveStep(cfg: Config, s: State, e: Event)
    requires Exclusive(s) && Enabled(s, e) && Disciplined(cfg, s, e)
    ensures Exclusive(Apply(cfg, s, e)) && KeepsFinished(s.store, Apply(cfg, s, e).store)
  {
    hide Exclusive, KeepsFinished, StartCall;
    if e.StartTransfer? {
      StartExclusive(s, CreateTransferOperation(e.id, e.actor, e.key, e.target, e.amount, e.now));
    } else if e.BeginPass? {
      BeginExclusive(s, e.pass, e.limit, e.listed);
      SameStoreKeeps(s.store);
    } else if e.EndPass? || e.StopPass? || e.Crash? || e.ChangePolicy? {
      OtherEventExclusive(cfg, s, e);
    } else if e.Examine? {
      ExamineExclusive(cfg, s, e.pass, e.now, e.answer);
    } else if e.SettleReservation? {
      SettleExclusive(cfg, s, e.pass, e.now);
    } else {
      CallEventExclusive(cfg, s, e);
    }
  }

  lemma SameStoreKeeps(s: Store)
    ensures KeepsFinished(s, s)
  {
  }

  lemma KeepsTransitive(s: Store, t: Store, u: Store)
    requires KeepsFinished(s, t) && KeepsFinished(t, u)
    ensures KeepsFinished(s, u)
  {
  }

  /** Under the invariant an outcome that is stored once is stored for good. */
  lemma {:induction false} ExclusiveRun(cfg: Config, s: State, events: seq<Event>, t: State)
    requires Exclusive(s) && DisciplinedRun(cfg, s, events, t)
    ensures Exclusive(t) && KeepsFinished(s.store, t.store)
    decreases |events|
  {
    hide Exclusive, KeepsFinished, Apply, Enabled, Disciplined;
    if events == [] {
      SameStoreKeeps(s.store);
    } else {
      var next := Apply(cfg, s, events[0]);
      ExclusiveStep(cfg, s, events[0]);
      ExclusiveRun(cfg, next, events[1..], t);
      KeepsTransitive(s.store, next.store, t.store);
    }
  }

  /** The invariant of a single pass implies it. */
  lemma InStepIsExclusive(s: State)
    requires InStep(s)
    ensures Exclusive(s)
  {
    hide Agree;
    forall p | p in s.passes ensures PassOpen(s, s.passes[p]) {
      InStepIsOpen(s, p);
    }
    hide PassOpen, Disjoint, PassesAgree;
    CallsAreOpen(s);
  }

  lemma CallsAreOpen(s: State)
    requires Sound(s) && CallsAgree(s)
    ensures CallsOpen(s)
  {
    forall id | id in s.calls ensures id in s.store.transfers && s.store.transfers[id].status == RESERVED {
      assert CallOk(s.store, id, s.calls[id]);
      assert CallAgrees(s.store.transfers[id], ReservationOf(s.store, id), s.calls[id]);
    }
  }

  lemma InStepIsOpen(s: State, p: nat)
    requires InStep(s) && p in s.passes
    ensures PassOpen(s, s.passes[p])
  {
    var pass := s.passes[p];
    assert PassOk(s.store, pass);
    hide Sound, Settled, CallsAgree, WellFormed, SameTransfer;
    forall j | FirstLeft(pass) <= j < |pass.listed| && Writable(pass.listed[j], pass.live)
      ensures CopyOpen(s, pass.listed[j].operationId)
    {
      assert SnapshotIsFresh(s, pass.listed[j], pass.live) && SnapshotOk(s.store, pass.listed[j]);
    }
  }
}
