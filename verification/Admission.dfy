/** Concurrent admissions of one key, with the check taken apart into the read and the save it
    consists of: the promise queue alone makes them behave as if run one by one. */
module Admission {
  import opened Wrappers
  import opened Domain
  import opened LimitWindows
  import opened Usage
  import opened Tables
  import opened LimitBound
  import PL = PromiseLock

  datatype Request = Request(id: Id, amount: nat, b: Boundaries, now: Instant)

  /** A caller inside the lock has read nothing, has read the tables and made up its verdict, has
      answered, or has thrown something else than a rejection. A throw rolls its transaction
      back. */
  datatype Progress =
    | Idle
    | HasRead(policy: Option<AssetLimitPolicy>, verdict: Option<LimitDetail>)
    | Answered(verdict: Option<LimitDetail>)
    | Threw
  {
    predicate Done() {
      Answered? || Threw?
    }
  }

  /** `served` counts the callers that are done. */
  datatype System = System(
    key: LimitKey, lock: PL.Lock, requests: seq<Request>, progress: seq<Progress>, store: Store, served: nat)

  datatype Move =
    | Arrive(request: Request)
    | Begin(ticket: nat)
    | Read(ticket: nat)
    | Save(ticket: nat)
    | Throws(ticket: nat)
    | End(ticket: nat)
    | SettlementConsumes(id: Id, now: Instant)
    | SettlementReleases(id: Id, reason: string, now: Instant)
    | OwnerUpdates(key: LimitKey, patch: PolicyPatch, now: Instant)

  function QueueKey(key: LimitKey): string {
    (match key.chain case Ckb => "ckb:" case Evm => "evm:") + AssetName(key.asset)
  }

  /** Every pair of chain and asset has a queue of its own. */
  lemma QueueIsOfItsKey(a: LimitKey, b: LimitKey)
    ensures QueueKey(a) == QueueKey(b) <==> a == b
    ensures Supported(a) ==> QueueKey(a) == if a.chain == Ckb then "ckb:CKB"
                                            else if a.asset == ETH then "evm:ETH"
                                            else if a.asset == USDT then "evm:USDT" else "evm:USDC"
  {
    QueueKeyParts(a);
    QueueKeyParts(b);
    assert QueueKey(a) == QueueKey(b) <==> a == b by { hide QueueKey; }
  }

  lemma QueueKeyParts(key: LimitKey)
    ensures |QueueKey(key)| == 4 + if key.asset in {CKB, ETH} then 3 else 4
    ensures QueueKey(key)[0] == if key.chain == Ckb then 'c' else 'e'
    ensures QueueKey(key)[4] == match key.asset case CKB => 'C' case ETH => 'E' case USDT => 'U' case USDC => 'U'
    ensures key.asset in {USDT, USDC} ==> QueueKey(key)[7] == if key.asset == USDT then 'T' else 'C'
  {
  }

  predicate RunsTask(s: System, t: nat) {
    t < |s.lock.tickets| && t < |s.progress| && t < |s.requests| && s.lock.tickets[t].phase == PL.Running
  }

  ghost predicate CanMove(s: System, m: Move) {
    match m
    case Arrive(r) => r.id !in s.store.reservations && forall j | 0 <= j < |s.requests| :: s.requests[j].id != r.id
    case Begin(t) => PL.HeapOk(s.lock.heap) && PL.CanStart(s.lock, t)
    case Read(t) => RunsTask(s, t) && s.progress[t].Idle?
    case Save(t) => RunsTask(s, t) && s.progress[t].HasRead?
    case Throws(t) => RunsTask(s, t) && !s.progress[t].Done()
    case End(t) => RunsTask(s, t) && s.progress[t].Done() && s.lock.tickets[t].next < |s.lock.heap|
    case SettlementConsumes(id, _) => id in s.store.reservations && s.store.reservations[id].status != RELEASED
    case SettlementReleases(id, _, _) => id in s.store.reservations
    case OwnerUpdates(_, _, _) => true
  }

  function Row(key: LimitKey, r: Request): AssetLimitReservation {
    Reservation(r.id, key, r.amount, r.b, r.now)
  }

  ghost function Moved(s: System, m: Move): System
    requires CanMove(s, m)
  {
    match m
    case Arrive(r) =>
      s.(lock := PL.Enter(s.lock, QueueKey(s.key)), requests := s.requests + [r], progress := s.progress + [Idle])
    case Begin(t) => s.(lock := PL.Start(s.lock, t))
    case Read(t) =>
      s.(progress := s.progress[t := HasRead(PolicyOf(s.store.policies, s.key),
                                             Verdict(s.store, s.key, s.requests[t].amount, s.requests[t].b))])
    case Save(t) =>
      s.(progress := s.progress[t := Answered(s.progress[t].verdict)], served := s.served + 1,
         store := if s.progress[t].verdict.None? then SaveReservation(s.store, Row(s.key, s.requests[t])) else s.store)
    case Throws(t) => s.(progress := s.progress[t := Threw], served := s.served + 1)
    case End(t) => s.(lock := PL.Finish(s.lock, t))
    case SettlementConsumes(id, now) => s.(store := ConsumeReservation(s.store, id, now))
    case SettlementReleases(id, reason, now) => s.(store := ReleaseReservation(s.store, id, reason, now))
    case OwnerUpdates(key, patch, now) => s.(store := UpdatePolicy(s.store, key, patch, Owner, now))
  }

  ghost predicate Moves(s: System, moves: seq<Move>, t: System)
    decreases |moves|
  {
    if moves == [] then s == t else CanMove(s, moves[0]) && Moves(Moved(s, moves[0]), moves[1..], t)
  }

  predicate Starts(s: System) {
    s.lock == PL.Lock([], map[], []) && s.requests == [] && s.progress == [] && s.served == 0
  }

  // --------------------------------------------------------------------------- invariant

  predicate TaskOk(s: System, t: nat)
    requires t < |s.lock.tickets| && t < |s.progress|
  {
    && (s.progress[t].Done() <==> t < s.served)
    && (s.progress[t].HasRead? ==> t == s.served)
    && (s.lock.tickets[t].phase == PL.Waiting ==> s.progress[t].Idle?)
    && (s.lock.tickets[t].phase == PL.Finished ==> s.progress[t].Done())
    && s.lock.tickets[t].key == QueueKey(s.key)
  }

  ghost predicate InOrder(s: System) {
    && PL.Valid(s.lock)
    && |s.lock.tickets| == |s.requests| == |s.progress|
    && s.served <= |s.requests|
    && forall t | 0 <= t < |s.requests| :: TaskOk(s, t)
  }

  lemma RunnersHaveTheKey(s: System, t: nat)
    requires InOrder(s) && t < |s.requests| && s.lock.tickets[t].phase == PL.Running
    ensures forall j | 0 <= j < t :: s.lock.tickets[j].phase == PL.Finished
    ensures forall j | t < j < |s.requests| :: s.lock.tickets[j].phase == PL.Waiting
  {
    hide PL.TicketsOk, PL.QueuesOk, PL.HeapOk;
    assert TaskOk(s, t);
    forall j | 0 <= j < |s.requests| && j != t
      ensures j < t ==> s.lock.tickets[j].phase == PL.Finished
      ensures t < j ==> s.lock.tickets[j].phase == PL.Waiting
    {
      assert TaskOk(s, j);
    }
  }

  /** Whoever runs is the first who is not done, or has just got done. */
  lemma RunnerIsNext(s: System, t: nat)
    requires InOrder(s) && t < |s.requests| && s.lock.tickets[t].phase == PL.Running
    ensures t == s.served || t + 1 == s.served
    ensures !s.progress[t].Done() ==> t == s.served
  {
    RunnersHaveTheKey(s, t);
    hide PL.Valid;
    assert TaskOk(s, t);
    if t > 0 { assert TaskOk(s, t - 1); }
    if t + 1 < |s.requests| { assert TaskOk(s, t + 1); }
  }

  /** One task has moved on, and every task still fits the count of answers. */
  lemma OneTaskMoved(s: System, n: System, t: nat)
    requires InOrder(s) && t < |s.requests| && PL.Valid(n.lock)
    requires n.key == s.key && |n.requests| == |s.requests| && |n.progress| == |s.progress| && |n.lock.tickets| == |s.lock.tickets|
    requires n.served == s.served || (n.served == s.served + 1 && t == s.served)
    requires forall j | 0 <= j < |s.requests| && j != t :: n.progress[j] == s.progress[j] && n.lock.tickets[j] == s.lock.tickets[j]
    requires TaskOk(n, t)
    ensures InOrder(n)
  {
    hide PL.Valid;
    forall j | 0 <= j < |n.requests| ensures TaskOk(n, j) {
      assert TaskOk(s, j);
    }
  }

  lemma ArrivalInOrder(s: System, r: Request)
    requires InOrder(s) && CanMove(s, Arrive(r))
    ensures InOrder(Moved(s, Arrive(r)))
  {
    hide PL.Valid, QueueKey;
    PL.EnterKeepsValid(s.lock, QueueKey(s.key));
    var n := Moved(s, Arrive(r));
    assert n.lock.tickets[..|s.requests|] == s.lock.tickets && n.lock.tickets[|s.requests|].phase == PL.Waiting;
    assert n.lock.tickets[|s.requests|].key == QueueKey(s.key);
    hide PL.Enter;
    forall j | 0 <= j < |n.requests| ensures TaskOk(n, j) {
      if j < |s.requests| { assert TaskOk(s, j); }
    }
  }

  lemma BeginInOrder(s: System, t: nat)
    requires InOrder(s) && CanMove(s, Begin(t))
    ensures InOrder(Moved(s, Begin(t)))
  {
    hide PL.Valid, QueueKey, PL.Settled, PL.HeapOk;
    PL.StartKeepsValid(s.lock, t);
    assert TaskOk(s, t);
    OneTaskMoved(s, Moved(s, Begin(t)), t);
  }

  lemma EndInOrder(s: System, t: nat)
    requires InOrder(s) && CanMove(s, End(t))
    ensures InOrder(Moved(s, End(t)))
  {
    hide PL.Valid, QueueKey;
    PL.FinishKeepsValid(s.lock, t);
    assert TaskOk(s, t);
    OneTaskMoved(s, Moved(s, End(t)), t);
  }

  lemma NoneAhead(s: System, t: nat)
    requires InOrder(s) && t < |s.requests| && s.lock.tickets[t].phase == PL.Running && !s.progress[t].Done()
    ensures t == s.served && forall j | t < j < |s.requests| :: s.progress[j].Idle?
  {
    RunnerIsNext(s, t);
    hide PL.Valid;
    forall j | t < j < |s.requests| ensures s.progress[j].Idle? { assert TaskOk(s, j); }
  }

  lemma ReadInOrder(s: System, t: nat)
    requires InOrder(s) && CanMove(s, Read(t))
    ensures InOrder(Moved(s, Read(t)))
  {
    NoneAhead(s, t);
    hide PL.Valid, QueueKey, Verdict, PolicyOf;
    assert TaskOk(s, t);
    OneTaskMoved(s, Moved(s, Read(t)), t);
  }

  /** A caller gets done, whether it answers or throws. */
  lemma DoneInOrder(s: System, m: Move)
    requires InOrder(s) && CanMove(s, m) && (m.Save? || m.Throws?)
    ensures InOrder(Moved(s, m))
  {
    NoneAhead(s, m.ticket);
    hide PL.Valid, QueueKey, SaveReservation;
    assert TaskOk(s, m.ticket);
    OneTaskMoved(s, Moved(s, m), m.ticket);
  }

  lemma InOrderStep(s: System, m: Move)
    requires InOrder(s) && CanMove(s, m)
    ensures InOrder(Moved(s, m))
  {
    match m {
      case Arrive(r) => ArrivalInOrder(s, r);
      case Begin(t) => BeginInOrder(s, t);
      case End(t) => EndInOrder(s, t);
      case Read(t) => ReadInOrder(s, t);
      case Save(_) => DoneInOrder(s, m);
      case Throws(_) => DoneInOrder(s, m);
      case _ =>
        hide PL.Valid;
        var n := Moved(s, m);
        forall j | 0 <= j < |n.requests| ensures TaskOk(n, j) { assert TaskOk(s, j); }
    }
  }

  // ----------------------------------------------------------------------- serializability

  /** One admission on its own: check, and save the reservation if the check passes. */
  ghost function AdmitNext(store: Store, key: LimitKey, r: Request): Store {
    if Verdict(store, key, r.amount, r.b).None? then SaveReservation(store, Row(key, r)) else store
  }

  /** The first `n` requests run one by one, each to its end; those that throw leave nothing. */
  ghost function Serial(store: Store, key: LimitKey, requests: seq<Request>, progress: seq<Progress>, n: nat): Store
    requires n <= |requests| && n <= |progress|
  {
    if n == 0 then store
    else
      var before := Serial(store, key, requests, progress, n - 1);
      if progress[n - 1].Threw? then before else AdmitNext(before, key, requests[n - 1])
  }

  ghost function SerialAnswer(store: Store, key: LimitKey, requests: seq<Request>, progress: seq<Progress>, n: nat): Option<LimitDetail>
    requires n < |requests| && n <= |progress|
  {
    Verdict(Serial(store, key, requests, progress, n), key, requests[n].amount, requests[n].b)
  }

  /** Only the requests before the n-th, and whether they threw, matter. */
  lemma {:induction false} SerialPrefix(store: Store, key: LimitKey, requests: seq<Request>, progress: seq<Progress>,
                                        others: seq<Request>, otherProgress: seq<Progress>, n: nat)
    requires n <= |requests| && n <= |progress| && n <= |others| && n <= |otherProgress|
    requires forall j | 0 <= j < n :: others[j] == requests[j] && (otherProgress[j].Threw? <==> progress[j].Threw?)
    ensures Serial(store, key, requests, progress, n) == Serial(store, key, others, otherProgress, n)
    decreases n
  {
    hide AdmitNext;
    if n > 0 {
      SerialPrefix(store, key, requests, progress, others, otherProgress, n - 1);
    }
  }

  /** Settlement and the owner leave the key's tables alone. */
  predicate Undisturbed(m: Move) {
    !m.SettlementConsumes? && !m.SettlementReleases? && !m.OwnerUpdates?
  }

  ghost predicate AnswerOk(s0: Store, s: System, t: nat)
    requires t < |s.requests| && t < |s.progress|
  {
    s.progress[t].Idle? || s.progress[t].Threw? || s.progress[t].verdict == SerialAnswer(s0, s.key, s.requests, s.progress, t)
  }

  ghost predicate Serialized(s0: Store, s: System) {
    && |s.progress| == |s.requests|
    && s.served <= |s.requests|
    && s.store == Serial(s0, s.key, s.requests, s.progress, s.served)
    && forall t | 0 <= t < |s.requests| :: AnswerOk(s0, s, t)
  }

  lemma ArrivalSerialized(s0: Store, s: System, r: Request)
    requires Serialized(s0, s) && CanMove(s, Arrive(r))
    ensures Serialized(s0, Moved(s, Arrive(r)))
  {
    hide Serial, PL.Enter, QueueKey, Verdict;
    var n := Moved(s, Arrive(r));
    SerialPrefix(s0, s.key, s.requests, s.progress, n.requests, n.progress, s.served);
    forall t | 0 <= t < |n.requests| ensures AnswerOk(s0, n, t) {
      if t < |s.requests| {
        assert AnswerOk(s0, s, t);
        SerialPrefix(s0, s.key, s.requests, s.progress, n.requests, n.progress, t);
      }
    }
  }

  lemma WorkSerialized(s0: Store, s: System, m: Move)
    requires Serialized(s0, s) && CanMove(s, m) && (m.Read? || m.Save? || m.Throws?) && m.ticket == s.served
    requires forall t | m.ticket < t < |s.requests| :: s.progress[t].Idle?
    ensures Serialized(s0, Moved(s, m))
  {
    hide Verdict, SaveReservation, Row, PolicyOf;
    var n := Moved(s, m);
    assert AnswerOk(s0, s, m.ticket);
    SerialPrefix(s0, s.key, s.requests, s.progress, n.requests, n.progress, s.served);
    forall t | 0 <= t < |n.requests| ensures AnswerOk(s0, n, t) {
      assert AnswerOk(s0, s, t);
      if t < s.served { SerialPrefix(s0, s.key, s.requests, s.progress, n.requests, n.progress, t); }
    }
  }

  lemma TurnSerialized(s0: Store, s: System, m: Move)
    requires Serialized(s0, s) && CanMove(s, m) && (m.Begin? || m.End?)
    ensures Serialized(s0, Moved(s, m))
  {
    var n := Moved(s, m);
    forall t | 0 <= t < |n.requests| ensures AnswerOk(s0, n, t) { assert AnswerOk(s0, s, t); }
  }

  lemma SerializedStep(s0: Store, s: System, m: Move)
    requires InOrder(s) && Serialized(s0, s) && CanMove(s, m) && Undisturbed(m)
    ensures Serialized(s0, Moved(s, m))
  {
    hide InOrder, Verdict;
    match m {
      case Arrive(r) => ArrivalSerialized(s0, s, r);
      case Read(_) => NoneAhead(s, m.ticket); WorkSerialized(s0, s, m);
      case Save(_) => NoneAhead(s, m.ticket); WorkSerialized(s0, s, m);
      case Throws(_) => NoneAhead(s, m.ticket); WorkSerialized(s0, s, m);
      case Begin(_) => TurnSerialized(s0, s, m);
      case End(_) => TurnSerialized(s0, s, m);
      case _ =>
    }
  }

  lemma {:induction false} SerializedMoves(s0: Store, s: System, moves: seq<Move>, t: System)
    requires InOrder(s) && Serialized(s0, s) && Moves(s, moves, t)
    requires forall m | m in moves :: Undisturbed(m)
    ensures InOrder(t) && Serialized(s0, t) && t.key == s.key
    decreases |moves|
  {
    if moves != [] {
      SerializedStep(s0, s, moves[0]);
      InOrderStep(s, moves[0]);
      hide InOrder, Serialized, CanMove;
      KeyStays(s, moves[0]);
      hide Moved;
      SerializedMoves(s0, Moved(s, moves[0]), moves[1..], t);
    }
  }

  lemma KeyStays(s: System, m: Move)
    requires CanMove(s, m)
    ensures Moved(s, m).key == s.key
  {
    hide Verdict;
  }

  lemma StartsInOrder(s: System)
    requires Starts(s)
    ensures InOrder(s) && Serialized(s.store, s)
  {
  }

  /** Serializability: however the admissions of one key interleave, and whichever of them throw,
      the reservation table and the answers given so far are those of running the requests one
      by one in ticket order, and once every caller has released, of running all of them. */
  lemma Serializable(s: System, moves: seq<Move>, t: System)
    requires Starts(s) && Moves(s, moves, t)
    requires forall m | m in moves :: Undisturbed(m)
    ensures |t.lock.tickets| == |t.requests| == |t.progress| && t.served <= |t.requests|
    ensures t.store == Serial(s.store, s.key, t.requests, t.progress, t.served)
    ensures forall j | 0 <= j < |t.requests| ::
              && (t.progress[j].Done() <==> j < t.served)
              && (t.progress[j].Answered? ==> t.progress[j].verdict == SerialAnswer(s.store, s.key, t.requests, t.progress, j))
    ensures (forall j | 0 <= j < |t.requests| :: t.lock.tickets[j].phase == PL.Finished) ==> t.served == |t.requests|
  {
    StartsInOrder(s);
    SerializedMoves(s.store, s, moves, t);
    hide PL.Valid, SerialAnswer, Moves, Serial;
    forall j | 0 <= j < |t.requests|
      ensures t.progress[j].Done() <==> j < t.served
      ensures t.progress[j].Answered? ==> t.progress[j].verdict == SerialAnswer(s.store, s.key, t.requests, t.progress, j)
    {
      assert TaskOk(t, j) && AnswerOk(s.store, t, j);
    }
    if t.served < |t.requests| { assert TaskOk(t, t.served); }
  }

  /** The reservation of an admitted request. */
  predicate IsRow(row: AssetLimitReservation, key: LimitKey, r: Request) {
    row == AssetLimitReservation(
      operationId := r.id, key := key, amount := r.amount,
      dailyWindowStart := r.b.daily.start, weeklyWindowStart := r.b.weekly.start, monthlyWindowStart := r.b.monthly.start,
      createdAt := r.now, status := ACTIVE, releaseReason := None, settledAt := None, updatedAt := r.now)
  }

  /** The n-th request was answered, and without an objection. */
  ghost predicate Admits(store: Store, key: LimitKey, requests: seq<Request>, progress: seq<Progress>, n: nat)
    requires n < |requests| && n < |progress|
  {
    !progress[n].Threw? && SerialAnswer(store, key, requests, progress, n).None?
  }

  /** The first `n` requests have added the rows of those admitted. */
  ghost predicate AddsRows(store: Store, key: LimitKey, requests: seq<Request>, progress: seq<Progress>, n: nat, after: Store)
    requires n <= |requests| && n <= |progress|
  {
    && after.transfers == store.transfers && after.policies == store.policies && after.audits == store.audits
    && store.reservations.Keys <= after.reservations.Keys
    && (forall j | 0 <= j < n && Admits(store, key, requests, progress, j) ::
          requests[j].id in after.reservations && IsRow(after.reservations[requests[j].id], key, requests[j]))
    && (forall id | id in after.reservations ::
          || (id in store.reservations && after.reservations[id] == store.reservations[id])
          || exists j | 0 <= j < n :: requests[j].id == id && Admits(store, key, requests, progress, j))
  }

  lemma AdmittedRow(store: Store, key: LimitKey, r: Request)
    ensures IsRow(Row(key, r), key, r)
    ensures AdmitNext(store, key, r)
         == if Verdict(store, key, r.amount, r.b).None? then store.(reservations := store.reservations[r.id := Row(key, r)]) else store
  {
    hide Verdict;
  }

  /** The next request has added its row, if it is admitted. */
  ghost predicate AddsNext(key: LimitKey, r: Request, admitted: bool, before: Store, after: Store) {
    if admitted
    then
      && after == before.(reservations := before.reservations[r.id := Row(key, r)])
      && IsRow(after.reservations[r.id], key, r)
    else after == before
  }

  lemma OneMoreRow(store: Store, key: LimitKey, requests: seq<Request>, progress: seq<Progress>, n: nat, before: Store, after: Store)
    requires n < |requests| && n < |progress| && AddsRows(store, key, requests, progress, n, before)
    requires forall j | 0 <= j < n :: requests[j].id != requests[n].id
    requires AddsNext(key, requests[n], Admits(store, key, requests, progress, n), before, after)
    ensures AddsRows(store, key, requests, progress, n + 1, after)
  {
    hide Admits, IsRow, Row;
  }

  lemma NothingAdded(store: Store, key: LimitKey, requests: seq<Request>, progress: seq<Progress>)
    ensures AddsRows(store, key, requests, progress, 0, Serial(store, key, requests, progress, 0))
  {
    hide AdmitNext, Admits;
  }

  lemma SerialAddsNext(store: Store, key: LimitKey, requests: seq<Request>, progress: seq<Progress>, n: nat)
    requires n < |requests| && n < |progress|
    ensures AddsNext(key, requests[n], Admits(store, key, requests, progress, n),
                     Serial(store, key, requests, progress, n), Serial(store, key, requests, progress, n + 1))
  {
    AdmittedRow(Serial(store, key, requests, progress, n), key, requests[n]);
    hide Verdict, AdmitNext, IsRow, Row;
  }

  lemma {:induction false} SerialAddsRows(store: Store, key: LimitKey, requests: seq<Request>, progress: seq<Progress>, n: nat)
    requires n <= |requests| && n <= |progress|
    requires forall i, j | 0 <= i < j < |requests| :: requests[i].id != requests[j].id
    ensures AddsRows(store, key, requests, progress, n, Serial(store, key, requests, progress, n))
    decreases n
  {
    hide AddsRows, AddsNext, Serial, Admits;
    if n == 0 {
      NothingAdded(store, key, requests, progress);
    } else {
      SerialAddsRows(store, key, requests, progress, n - 1);
      SerialAddsNext(store, key, requests, progress, n - 1);
      OneMoreRow(store, key, requests, progress, n - 1, Serial(store, key, requests, progress, n - 1),
                 Serial(store, key, requests, progress, n));
    }
  }

  lemma RequestsAreDistinct(s: System, moves: seq<Move>, t: System)
    requires Starts(s) && Moves(s, moves, t)
    ensures forall i, j | 0 <= i < j < |t.requests| :: t.requests[i].id != t.requests[j].id
  {
    StartsInOrder(s);
    RoomMoves(s, moves, t);
    hide InOrder, Starts, Moves, Serialized;
  }

  lemma KeyIsKept(s: System, moves: seq<Move>, t: System)
    requires Starts(s) && Moves(s, moves, t)
    requires forall m | m in moves :: Undisturbed(m)
    ensures t.key == s.key
  {
    StartsInOrder(s);
    SerializedMoves(s.store, s, moves, t);
    hide InOrder, Serialized, Moves, Starts;
  }

  lemma AnsweredIsAdmitted(s: System, moves: seq<Move>, t: System)
    requires Starts(s) && Moves(s, moves, t)
    requires forall m | m in moves :: Undisturbed(m)
    ensures |t.requests| == |t.progress| && t.served <= |t.requests|
    ensures t.store == Serial(s.store, t.key, t.requests, t.progress, t.served)
    ensures forall j | 0 <= j < |t.requests| ::
              t.progress[j] == Answered(None) <==> j < t.served && Admits(s.store, t.key, t.requests, t.progress, j)
  {
    Serializable(s, moves, t);
    KeyIsKept(s, moves, t);
    hide SerialAnswer, Serial, Moves, Starts;
  }

  /** Whatever interleaves, exactly the requests answered without an objection have a row, each the
      one it asked for; a request that was rejected or threw has left nothing. */
  lemma AdmittedHaveRows(s: System, moves: seq<Move>, t: System)
    requires Starts(s) && Moves(s, moves, t)
    requires forall m | m in moves :: Undisturbed(m)
    ensures |t.requests| == |t.progress|
    ensures forall j | 0 <= j < |t.requests| && t.progress[j] == Answered(None) ::
              t.requests[j].id in t.store.reservations && IsRow(t.store.reservations[t.requests[j].id], t.key, t.requests[j])
    ensures forall id | id in t.store.reservations ::
              || (id in s.store.reservations && t.store.reservations[id] == s.store.reservations[id])
              || exists j | 0 <= j < |t.requests| :: t.requests[j].id == id && t.progress[j] == Answered(None)
    ensures t.store == s.store.(reservations := t.store.reservations)
  {
    AnsweredIsAdmitted(s, moves, t);
    RequestsAreDistinct(s, moves, t);
    hide Starts, Moves, Serial, Admits, IsRow;
    SerialAddsRows(s.store, t.key, t.requests, t.progress, t.served);
  }

  // ------------------------------------------------------------- settlement between read and save

  /** Every limit of a policy leaves room for the request. */
  ghost predicate Room(store: Store, key: LimitKey, policy: Option<AssetLimitPolicy>, r: Request) {
    forall window: LimitWindow | LimitOf(policy, window).Some? ::
      Used(store.reservations, key, window, r.b.Of(window).start) + r.amount <= LimitOf(policy, window).value
  }

  predicate IsFresh(s: System, t: nat)
    requires t < |s.requests| && t < |s.progress|
  {
    s.progress[t].Done() || s.requests[t].id !in s.store.reservations
  }

  ghost predicate HasRoom(s: System, t: nat)
    requires t < |s.requests| && t < |s.progress|
  {
    s.progress[t].HasRead? && s.progress[t].verdict.None? ==> Room(s.store, s.key, s.progress[t].policy, s.requests[t])
  }

  ghost predicate RoomKept(s: System) {
    && |s.progress| == |s.requests|
    && (forall t | 0 <= t < |s.requests| :: IsFresh(s, t) && HasRoom(s, t))
    && (forall i, j | 0 <= i < j < |s.requests| :: s.requests[i].id != s.requests[j].id)
  }

  lemma SettlementKeepsRoom(s: System, m: Move, r: Request, policy: Option<AssetLimitPolicy>)
    requires CanMove(s, m) && !Undisturbed(m)
    requires Room(s.store, s.key, policy, r)
    ensures Room(Moved(s, m).store, s.key, policy, r)
  {
    hide Used, ConsumeReservation, ReleaseReservation, LimitOf, Weight;
    forall window: LimitWindow | LimitOf(policy, window).Some?
      ensures Used(Moved(s, m).store.reservations, s.key, window, r.b.Of(window).start) + r.amount <= LimitOf(policy, window).value
    {
      match m {
        case SettlementConsumes(id, now) => ConsumeMovesUsage(s.store, id, now, s.key, window, r.b.Of(window).start);
        case SettlementReleases(id, reason, now) => ReleaseLowersUsage(s.store, id, reason, now, s.key, window, r.b.Of(window).start);
        case _ =>
      }
    }
  }

  lemma SettlementAddsNoRow(s: System, m: Move)
    requires CanMove(s, m) && !Undisturbed(m)
    ensures Moved(s, m).store.reservations.Keys == s.store.reservations.Keys
  {
    hide NextPolicy, ConsumeAssetLimitReservation, ReleaseAssetLimitReservation;
  }

  lemma DisturbanceKeepsRoom(s: System, m: Move)
    requires RoomKept(s) && CanMove(s, m) && !Undisturbed(m)
    ensures RoomKept(Moved(s, m))
  {
    var n := Moved(s, m);
    SettlementAddsNoRow(s, m);
    hide Room;
    forall t | 0 <= t < |n.requests| ensures IsFresh(n, t) && HasRoom(n, t) {
      assert IsFresh(s, t) && HasRoom(s, t);
      if s.progress[t].HasRead? && s.progress[t].verdict.None? {
        SettlementKeepsRoom(s, m, s.requests[t], s.progress[t].policy);
      }
    }
  }

  lemma ReadFindsRoom(s: System, t: nat)
    requires RoomKept(s) && CanMove(s, Read(t))
    ensures RoomKept(Moved(s, Read(t)))
  {
    hide Verdict, Used, LimitOf, PolicyOf;
    VerdictMeansRoom(s.store, s.key, s.requests[t].amount, s.requests[t].b);
    var n := Moved(s, Read(t));
    forall j | 0 <= j < |n.requests| ensures IsFresh(n, j) && HasRoom(n, j) {
      assert IsFresh(s, j) && HasRoom(s, j);
    }
  }

  lemma SaveEndsRead(s: System, t: nat)
    requires InOrder(s) && RoomKept(s) && CanMove(s, Save(t))
    ensures RoomKept(Moved(s, Save(t)))
  {
    RunnerIsNext(s, t);
    hide PL.Valid, Room;
    var n := Moved(s, Save(t));
    forall j | 0 <= j < |n.requests| ensures IsFresh(n, j) && HasRoom(n, j) {
      assert IsFresh(s, j) && HasRoom(s, j) && TaskOk(s, j) && TaskOk(s, t);
    }
  }

  lemma ThrowEndsRead(s: System, t: nat)
    requires RoomKept(s) && CanMove(s, Throws(t))
    ensures RoomKept(Moved(s, Throws(t)))
  {
    hide Room;
    var n := Moved(s, Throws(t));
    forall j | 0 <= j < |n.requests| ensures IsFresh(n, j) && HasRoom(n, j) {
      assert IsFresh(s, j) && HasRoom(s, j);
    }
  }

  lemma RoomStep(s: System, m: Move)
    requires InOrder(s) && RoomKept(s) && CanMove(s, m)
    ensures RoomKept(Moved(s, m))
  {
    hide InOrder, Verdict, Room;
    match m {
      case Read(t) => ReadFindsRoom(s, t);
      case Save(t) => SaveEndsRead(s, t);
      case Throws(t) => ThrowEndsRead(s, t);
      case SettlementConsumes(_, _) => DisturbanceKeepsRoom(s, m);
      case SettlementReleases(_, _, _) => DisturbanceKeepsRoom(s, m);
      case OwnerUpdates(_, _, _) => DisturbanceKeepsRoom(s, m);
      case _ =>
        hide PL.Enter, PL.Start, PL.Finish;
        var n := Moved(s, m);
        forall j | 0 <= j < |n.requests| ensures IsFresh(n, j) && HasRoom(n, j) {
          if j < |s.requests| { assert IsFresh(s, j) && HasRoom(s, j); }
        }
    }
  }

  lemma {:induction false} RoomMoves(s: System, moves: seq<Move>, t: System)
    requires InOrder(s) && RoomKept(s) && Moves(s, moves, t)
    ensures InOrder(t) && RoomKept(t)
    decreases |moves|
  {
    if moves != [] {
      RoomStep(s, moves[0]);
      InOrderStep(s, moves[0]);
      hide InOrder, RoomKept, CanMove, Moved;
      RoomMoves(Moved(s, moves[0]), moves[1..], t);
    }
  }

  /** Rely and guarantee: although settlement and the owner may act between the read and the
      save, a reservation saved on a passed check leaves usage within every limit of the policy
      that was read, and raises it by its own amount only. */
  lemma StaleCheckIsSound(s: System, moves: seq<Move>, t: System, ticket: nat, window: LimitWindow)
    requires Starts(s) && Moves(s, moves, t)
    requires CanMove(t, Save(ticket)) && t.progress[ticket].verdict.None?
    ensures var r := t.requests[ticket];
            var before := Used(t.store.reservations, t.key, window, r.b.Of(window).start);
            var after := Used(Moved(t, Save(ticket)).store.reservations, t.key, window, r.b.Of(window).start);
            var limit := LimitOf(t.progress[ticket].policy, window);
            after == before + r.amount && (limit.Some? ==> after <= limit.value)
  {
    StartsInOrder(s);
    RoomMoves(s, moves, t);
    assert IsFresh(t, ticket) && HasRoom(t, ticket);
    var r := t.requests[ticket];
    hide InOrder, RoomKept, Moves, Starts;
    SumUpdate(t.store.reservations, r.id, Row(t.key, r), Query(t.key, window, r.b.Of(window).start, COUNTED));
  }
}
