/** The in-memory lockers: one promise chain per key. Both the asset-limit locker (keyed by chain
    and asset) and the chain-write locker (keyed by chain) are this code. */
module PromiseLock {
  import opened Wrappers

  type Key = string

  /** A promise on the heap: resolved from the start, resolved by its captured function, or
      `previous.catch(...).then(() => next)`, which settles once both have. */
  datatype Promise =
    | Resolved
    | Manual(done: bool)
    | Chained(previous: nat, next: nat)

  predicate HeapOk(heap: seq<Promise>) {
    forall p | 0 <= p < |heap| && heap[p].Chained? :: heap[p].previous < p && heap[p].next < p
  }

  predicate Settled(heap: seq<Promise>, p: nat)
    requires HeapOk(heap) && p < |heap|
    decreases p
  {
    match heap[p]
    case Resolved => true
    case Manual(done) => done
    case Chained(previous, next) => Settled(heap, previous) && Settled(heap, next)
  }

  /** One call of `execute`: waiting for `previous`, running its task, or past its `finally`. */
  datatype Phase = Waiting | Running | Finished

  datatype Ticket = Ticket(key: Key, previous: nat, next: nat, phase: Phase)

  datatype Lock = Lock(heap: seq<Promise>, queues: map<Key, nat>, tickets: seq<Ticket>)

  // ------------------------------------------------------------------------------- steps

  /** Everything up to the first `await`, which nothing can interrupt. */
  function Enter(l: Lock, key: Key): Lock {
    var heap := if key in l.queues then l.heap else l.heap + [Resolved];
    var previous := if key in l.queues then l.queues[key] else |l.heap|;
    var next := |heap|;
    Lock(heap + [Manual(false), Chained(previous, next)],
         l.queues[key := next + 1],
         l.tickets + [Ticket(key, previous, next, Waiting)])
  }

  predicate CanStart(l: Lock, t: nat)
    requires HeapOk(l.heap)
  {
    t < |l.tickets| && l.tickets[t].phase == Waiting && l.tickets[t].previous < |l.heap| && Settled(l.heap, l.tickets[t].previous)
  }

  /** The continuation after `await previous`. */
  function Start(l: Lock, t: nat): Lock
    requires t < |l.tickets|
  {
    l.(tickets := l.tickets[t := l.tickets[t].(phase := Running)])
  }

  predicate CanFinish(l: Lock, t: nat) {
    t < |l.tickets| && l.tickets[t].phase == Running
  }

  /** The task has returned or thrown; either way `finally` resolves the captured promise. */
  function Finish(l: Lock, t: nat): Lock
    requires t < |l.tickets| && l.tickets[t].next < |l.heap|
  {
    l.(tickets := l.tickets[t := l.tickets[t].(phase := Finished)],
       heap := l.heap[l.tickets[t].next := Manual(true)])
  }

  // --------------------------------------------------------------------------- invariant

  /** The ticket a new caller of `key` would queue behind, among the first `n`. */
  function LastOf(tickets: seq<Ticket>, n: nat, key: Key): (r: Option<nat>)
    requires n <= |tickets|
    ensures r.Some? ==> r.value < n && tickets[r.value].key == key
    ensures r.Some? ==> forall j | r.value < j < n :: tickets[j].key != key
    ensures r.None? ==> forall j | 0 <= j < n :: tickets[j].key != key
  {
    if n == 0 then None
    else if tickets[n - 1].key == key then Some(n - 1)
    else LastOf(tickets, n - 1, key)
  }

  /** The promise a caller waits for: resolved for the first of its key, else the chain of the
      ticket before it. */
  predicate WaitsBehind(l: Lock, p: nat, behind: Option<nat>) {
    && p < |l.heap|
    && match behind
       case None => l.heap[p] == Resolved
       case Some(j) => j < |l.tickets| && l.heap[p] == Chained(l.tickets[j].previous, l.tickets[j].next)
  }

  predicate TicketOk(l: Lock, t: nat)
    requires t < |l.tickets|
  {
    var ticket := l.tickets[t];
    && WaitsBehind(l, ticket.previous, LastOf(l.tickets, t, ticket.key))
    && ticket.next < |l.heap|
    && l.heap[ticket.next] == Manual(ticket.phase == Finished)
  }

  ghost predicate TicketsOk(l: Lock) {
    && (forall t | 0 <= t < |l.tickets| :: TicketOk(l, t))
    && (forall i, j | 0 <= i < j < |l.tickets| :: l.tickets[i].next != l.tickets[j].next)
  }

  /** The map holds, for every key in use, the chain of its last ticket. */
  predicate QueueOk(l: Lock, key: Key)
    requires key in l.queues
  {
    LastOf(l.tickets, |l.tickets|, key).Some? && WaitsBehind(l, l.queues[key], LastOf(l.tickets, |l.tickets|, key))
  }

  ghost predicate QueuesOk(l: Lock) {
    && (forall key | key in l.queues :: QueueOk(l, key))
    && (forall t | 0 <= t < |l.tickets| :: l.tickets[t].key in l.queues)
  }

  /** Whoever has started found everyone before it finished. */
  ghost predicate Fair(l: Lock) {
    forall i, j | 0 <= i < j < |l.tickets| && l.tickets[i].key == l.tickets[j].key && l.tickets[j].phase != Waiting ::
      l.tickets[i].phase == Finished
  }

  ghost predicate Valid(l: Lock) {
    HeapOk(l.heap) && TicketsOk(l) && QueuesOk(l) && Fair(l)
  }

  predicate AllFinished(l: Lock, key: Key, n: nat)
    requires n <= |l.tickets|
  {
    forall i | 0 <= i < n && l.tickets[i].key == key :: l.tickets[i].phase == Finished
  }

  /** What a caller awaits is settled exactly when every earlier caller of its key has released. */
  lemma {:induction false} SettledIffEarlierFinished(l: Lock, t: nat)
    requires HeapOk(l.heap) && TicketsOk(l) && t < |l.tickets|
    ensures l.tickets[t].previous < |l.heap|
    ensures Settled(l.heap, l.tickets[t].previous) <==> AllFinished(l, l.tickets[t].key, t)
    decreases t
  {
    assert TicketOk(l, t);
    match LastOf(l.tickets, t, l.tickets[t].key)
    case None =>
    case Some(j) =>
      SettledIffEarlierFinished(l, j);
      assert TicketOk(l, j);
  }

  // ------------------------------------------------------------------------ preservation

  lemma {:induction false} LastOfPrefix(a: seq<Ticket>, b: seq<Ticket>, n: nat, key: Key)
    requires n <= |a| && n <= |b| && forall i | 0 <= i < n :: a[i].key == b[i].key
    ensures LastOf(a, n, key) == LastOf(b, n, key)
    decreases n
  {
    if n > 0 {
      LastOfPrefix(a, b, n - 1, key);
    }
  }

  lemma EnterKeepsTicket(l: Lock, key: Key, t: nat)
    requires TicketsOk(l) && t < |l.tickets|
    ensures TicketOk(Enter(l, key), t) && l.tickets[t].next < |l.heap|
  {
    var m := Enter(l, key);
    assert TicketOk(l, t);
    LastOfPrefix(l.tickets, m.tickets, t, l.tickets[t].key);
    hide LastOf;
  }

  lemma NewTicketOk(l: Lock, key: Key)
    requires QueuesOk(l)
    ensures TicketOk(Enter(l, key), |l.tickets|) && Enter(l, key).tickets[|l.tickets|].next >= |l.heap|
  {
    LastOfPrefix(l.tickets, Enter(l, key).tickets, |l.tickets|, key);
    if key in l.queues { assert QueueOk(l, key); }
    hide LastOf, QueuesOk;
  }

  lemma EnterHeap(l: Lock, key: Key)
    requires HeapOk(l.heap) && QueuesOk(l)
    ensures HeapOk(Enter(l, key).heap)
  {
    if key in l.queues { assert QueueOk(l, key); }
    hide LastOf, QueuesOk;
  }

  lemma AppendedTickets(l: Lock, m: Lock)
    requires TicketsOk(l) && |m.tickets| == |l.tickets| + 1
    requires forall t | 0 <= t < |l.tickets| :: m.tickets[t] == l.tickets[t] && TicketOk(m, t) && l.tickets[t].next < |l.heap|
    requires TicketOk(m, |l.tickets|) && m.tickets[|l.tickets|].next >= |l.heap|
    ensures TicketsOk(m)
  {
    hide TicketOk;
  }

  lemma EnterTickets(l: Lock, key: Key)
    requires HeapOk(l.heap) && TicketsOk(l) && QueuesOk(l)
    ensures HeapOk(Enter(l, key).heap) && TicketsOk(Enter(l, key))
  {
    hide HeapOk, TicketsOk, QueuesOk, TicketOk;
    EnterHeap(l, key);
    NewTicketOk(l, key);
    forall t | 0 <= t < |l.tickets| ensures TicketOk(Enter(l, key), t) && l.tickets[t].next < |l.heap| {
      EnterKeepsTicket(l, key, t);
    }
    AppendedTickets(l, Enter(l, key));
  }

  lemma EnterQueues(l: Lock, key: Key)
    requires HeapOk(l.heap) && TicketsOk(l) && QueuesOk(l)
    ensures QueuesOk(Enter(l, key))
  {
    var m, n := Enter(l, key), |l.tickets|;
    forall k | k in m.queues ensures QueueOk(m, k) {
      LastOfPrefix(l.tickets, m.tickets, n, k);
      if k != key { assert QueueOk(l, k); }
    }
  }

  /** One ticket in its next phase, and the heap with it. */
  function Moved(l: Lock, t: nat, phase: Phase): Lock
    requires t < |l.tickets| && l.tickets[t].next < |l.heap|
  {
    Lock(l.heap[l.tickets[t].next := Manual(phase == Finished)], l.queues, l.tickets[t := l.tickets[t].(phase := phase)])
  }

  lemma MovedTickets(l: Lock, t: nat, phase: Phase)
    requires TicketsOk(l) && t < |l.tickets| && l.tickets[t].next < |l.heap|
    ensures TicketsOk(Moved(l, t, phase))
  {
    var m := Moved(l, t, phase);
    assert TicketOk(l, t);
    forall i | 0 <= i < |m.tickets| ensures TicketOk(m, i) {
      assert TicketOk(l, i);
      LastOfPrefix(l.tickets, m.tickets, i, l.tickets[i].key);
      hide LastOf;
    }
    hide TicketOk;
  }

  lemma MovedQueue(l: Lock, t: nat, phase: Phase, key: Key)
    requires TicketsOk(l) && t < |l.tickets| && l.tickets[t].next < |l.heap| && key in l.queues && QueueOk(l, key)
    ensures QueueOk(Moved(l, t, phase), key)
  {
    var m := Moved(l, t, phase);
    assert TicketOk(l, t);
    LastOfPrefix(l.tickets, m.tickets, |m.tickets|, key);
    hide TicketOk, LastOf, TicketsOk;
  }

  lemma MovedQueues(l: Lock, t: nat, phase: Phase)
    requires TicketsOk(l) && QueuesOk(l) && t < |l.tickets| && l.tickets[t].next < |l.heap|
    ensures QueuesOk(Moved(l, t, phase))
  {
    hide QueueOk, TicketsOk;
    forall k | k in l.queues ensures QueueOk(Moved(l, t, phase), k) {
      MovedQueue(l, t, phase, k);
    }
  }

  lemma EnterKeepsValid(l: Lock, key: Key)
    requires Valid(l)
    ensures Valid(Enter(l, key))
  {
    EnterTickets(l, key);
    EnterQueues(l, key);
    hide TicketsOk, QueuesOk, HeapOk;
  }

  lemma StartKeepsFair(l: Lock, t: nat)
    requires Fair(l) && t < |l.tickets| && l.tickets[t].phase == Waiting && AllFinished(l, l.tickets[t].key, t)
    ensures Fair(Start(l, t))
  {
  }

  lemma StartIsMove(l: Lock, t: nat)
    requires TicketsOk(l) && t < |l.tickets| && l.tickets[t].phase == Waiting
    ensures l.tickets[t].next < |l.heap| && Start(l, t) == Moved(l, t, Running)
  {
    assert TicketOk(l, t);
    assert l.heap == l.heap[l.tickets[t].next := Manual(false)];
  }

  lemma StartKeepsValid(l: Lock, t: nat)
    requires Valid(l) && CanStart(l, t)
    ensures Valid(Start(l, t))
  {
    hide TicketsOk, QueuesOk, HeapOk, Settled, Fair, AllFinished, Moved;
    SettledIffEarlierFinished(l, t);
    StartKeepsFair(l, t);
    StartIsMove(l, t);
    MovedTickets(l, t, Running);
    MovedQueues(l, t, Running);
  }

  lemma FinishKeepsFair(l: Lock, t: nat)
    requires Fair(l) && t < |l.tickets| && l.tickets[t].phase == Running && l.tickets[t].next < |l.heap|
    ensures Fair(Finish(l, t))
  {
  }

  lemma FinishKeepsValid(l: Lock, t: nat)
    requires Valid(l) && CanFinish(l, t)
    ensures l.tickets[t].next < |l.heap| && Valid(Finish(l, t))
  {
    assert TicketOk(l, t);
    FinishKeepsFair(l, t);
    MovedTickets(l, t, Finished);
    MovedQueues(l, t, Finished);
    hide TicketsOk, QueuesOk, TicketOk, Fair;
    assert Finish(l, t) == Moved(l, t, Finished);
  }

  // ------------------------------------------------------------------- exclusion and order

  /** At most one task of a key runs at a time. */
  lemma MutualExclusion(l: Lock, i: nat, j: nat)
    requires Valid(l) && i < |l.tickets| && j < |l.tickets| && l.tickets[i].key == l.tickets[j].key
    requires l.tickets[i].phase == Running && l.tickets[j].phase == Running
    ensures i == j
  {
  }

  // ----------------------------------------------------------------------------- progress

  function Rank(phase: Phase): nat {
    match phase
    case Waiting => 2
    case Running => 1
    case Finished => 0
  }

  /** The steps that callers of `key` among the first `n` tickets still have to take. */
  function Ahead(tickets: seq<Ticket>, n: nat, key: Key): nat
    requires n <= |tickets|
  {
    if n == 0 then 0
    else Ahead(tickets, n - 1, key) + if tickets[n - 1].key == key then Rank(tickets[n - 1].phase) else 0
  }

  lemma {:induction false} AheadSame(a: seq<Ticket>, b: seq<Ticket>, n: nat, key: Key)
    requires n <= |a| && n <= |b| && forall i | 0 <= i < n :: a[i] == b[i]
    ensures Ahead(a, n, key) == Ahead(b, n, key)
    decreases n
  {
    if n > 0 {
      AheadSame(a, b, n - 1, key);
    }
  }

  /** A step of one caller lowers the count of everyone of its key who is not before it, and of
      no one else. */
  lemma {:induction false} AheadDrops(tickets: seq<Ticket>, t: nat, phase: Phase, n: nat, key: Key)
    requires t < |tickets| && n <= |tickets|
    ensures Ahead(tickets[t := tickets[t].(phase := phase)], n, key) - Ahead(tickets, n, key)
         == if t < n && tickets[t].key == key then Rank(phase) - Rank(tickets[t].phase) else 0
    decreases n
  {
    if n > 0 {
      AheadDrops(tickets, t, phase, n - 1, key);
    }
  }

  lemma {:induction false} NothingAhead(tickets: seq<Ticket>, n: nat, key: Key)
    requires n <= |tickets|
    ensures Ahead(tickets, n, key) == 0 <==> forall i | 0 <= i < n && tickets[i].key == key :: tickets[i].phase == Finished
    decreases n
  {
    if n > 0 {
      NothingAhead(tickets, n - 1, key);
    }
  }

  datatype Step = EnterStep(key: Key) | StartStep(ticket: nat) | FinishStep(ticket: nat)

  predicate Possible(l: Lock, step: Step)
    requires HeapOk(l.heap)
  {
    match step
    case EnterStep(_) => true
    case StartStep(t) => CanStart(l, t)
    case FinishStep(t) => CanFinish(l, t) && l.tickets[t].next < |l.heap|
  }

  function Take(l: Lock, step: Step): Lock
    requires HeapOk(l.heap) && Possible(l, step)
  {
    match step
    case EnterStep(key) => Enter(l, key)
    case StartStep(t) => Start(l, t)
    case FinishStep(t) => Finish(l, t)
  }

  lemma TakeKeepsValid(l: Lock, step: Step)
    requires Valid(l) && Possible(l, step)
    ensures Valid(Take(l, step))
  {
    hide TicketsOk, QueuesOk, Fair, Settled, Valid;
    match step
    case EnterStep(key) => EnterKeepsValid(l, key);
    case StartStep(t) => StartKeepsValid(l, t);
    case FinishStep(t) => FinishKeepsValid(l, t);
  }

  /** No caller is overtaken: entering callers leave what is ahead of it unchanged, and each
      start or finish of a caller of its key before it, or of itself, lowers it by one. */
  lemma NoOvertaking(l: Lock, step: Step, w: nat)
    requires Valid(l) && Possible(l, step) && w < |l.tickets|
    ensures var m := Take(l, step);
            var key := l.tickets[w].key;
            var moves := if !step.EnterStep? && step.ticket <= w && l.tickets[step.ticket].key == key then 1 else 0;
            w < |m.tickets| && m.tickets[w].key == key && Ahead(m.tickets, w + 1, key) + moves == Ahead(l.tickets, w + 1, key)
  {
    hide Valid, Settled, Ahead;
    match step
    case EnterStep(key) => AheadSame(l.tickets, Enter(l, key).tickets, w + 1, l.tickets[w].key);
    case StartStep(t) => AheadDrops(l.tickets, t, Running, w + 1, l.tickets[w].key);
    case FinishStep(t) => AheadDrops(l.tickets, t, Finished, w + 1, l.tickets[w].key);
  }

  /** As long as a caller is not finished, it or someone of its key before it can move: the
      first unfinished one runs, or what it awaits is settled. */
  lemma SomeoneCanMove(l: Lock, w: nat) returns (step: Step)
    requires Valid(l) && w < |l.tickets| && l.tickets[w].phase != Finished
    ensures !step.EnterStep? && step.ticket <= w && l.tickets[step.ticket].key == l.tickets[w].key
    ensures Possible(l, step)
  {
    var t := FirstUnfinished(l, w);
    SettledIffEarlierFinished(l, t);
    assert TicketOk(l, t);
    step := if l.tickets[t].phase == Running then FinishStep(t) else StartStep(t);
  }

  lemma FirstUnfinished(l: Lock, w: nat) returns (t: nat)
    requires w < |l.tickets| && l.tickets[w].phase != Finished
    ensures t <= w && l.tickets[t].key == l.tickets[w].key && l.tickets[t].phase != Finished
    ensures AllFinished(l, l.tickets[t].key, t)
    decreases w
  {
    if j: nat :| j < w && l.tickets[j].key == l.tickets[w].key && l.tickets[j].phase != Finished {
      t := FirstUnfinished(l, j);
    } else {
      t := w;
    }
  }

  ghost predicate Schedule(l: Lock, steps: seq<Step>, m: Lock)
    decreases |steps|
  {
    if steps == [] then l == m
    else HeapOk(l.heap) && Possible(l, steps[0]) && Schedule(Take(l, steps[0]), steps[1..], m)
  }

  /** How many of the steps move a caller of `key` up to and including `w`. */
  ghost function MovesUpTo(l: Lock, steps: seq<Step>, w: nat): nat
    requires w < |l.tickets|
    decreases |steps|
  {
    if steps == [] || !HeapOk(l.heap) || !Possible(l, steps[0]) || w >= |Take(l, steps[0]).tickets| then 0
    else
      MovesUpTo(Take(l, steps[0]), steps[1..], w)
      + if !steps[0].EnterStep? && steps[0].ticket <= w && l.tickets[steps[0].ticket].key == l.tickets[w].key then 1 else 0
  }

  /** One when the step moves a caller of the key up to and including `w`. */
  function MovesOne(l: Lock, step: Step, w: nat): nat
    requires w < |l.tickets| && (!step.EnterStep? ==> step.ticket < |l.tickets|)
  {
    if !step.EnterStep? && step.ticket <= w && l.tickets[step.ticket].key == l.tickets[w].key then 1 else 0
  }

  lemma FirstStep(l: Lock, steps: seq<Step>, m: Lock, w: nat)
    requires steps != [] && Schedule(l, steps, m) && w < |l.tickets| && w < |Take(l, steps[0]).tickets|
    ensures HeapOk(l.heap) && Possible(l, steps[0]) && Schedule(Take(l, steps[0]), steps[1..], m)
    ensures !steps[0].EnterStep? ==> steps[0].ticket < |l.tickets|
    ensures MovesUpTo(l, steps, w) == MovesUpTo(Take(l, steps[0]), steps[1..], w) + MovesOne(l, steps[0], w)
  {
    hide Take, HeapOk, Settled;
  }

  /** However callers come and go, a caller waits for exactly as many starts and finishes as are
      ahead of it, its own included. */
  lemma {:induction false} TurnsAhead(l: Lock, steps: seq<Step>, m: Lock, w: nat)
    requires Valid(l) && Schedule(l, steps, m) && w < |l.tickets|
    ensures Valid(m) && w < |m.tickets| && m.tickets[w].key == l.tickets[w].key
    ensures MovesUpTo(l, steps, w) + Ahead(m.tickets, w + 1, l.tickets[w].key) == Ahead(l.tickets, w + 1, l.tickets[w].key)
    decreases |steps|
  {
    hide Valid, Ahead, Take, Possible;
    if steps != [] {
      TakeKeepsValid(l, steps[0]);
      NoOvertaking(l, steps[0], w);
      FirstStep(l, steps, m, w);
      hide Schedule, MovesUpTo;
      TurnsAhead(Take(l, steps[0]), steps[1..], m, w);
    }
  }

  /** Once the starts and finishes ahead of a caller have happened it has run and released. */
  lemma EveryCallerGetsItsTurn(l: Lock, steps: seq<Step>, m: Lock, w: nat)
    requires Valid(l) && Schedule(l, steps, m) && w < |l.tickets|
    ensures Valid(m) && w < |m.tickets| && m.tickets[w].key == l.tickets[w].key
    ensures MovesUpTo(l, steps, w) + Ahead(m.tickets, w + 1, l.tickets[w].key) == Ahead(l.tickets, w + 1, l.tickets[w].key)
    ensures MovesUpTo(l, steps, w) == Ahead(l.tickets, w + 1, l.tickets[w].key) ==> m.tickets[w].phase == Finished
  {
    TurnsAhead(l, steps, m, w);
    NothingAhead(m.tickets, w + 1, m.tickets[w].key);
    hide Valid, Ahead, MovesUpTo, Schedule;
  }

  lemma EnteredMayStart(l: Lock, key: Key)
    requires Valid(l)
    ensures Valid(Enter(l, key)) && HeapOk(Enter(l, key).heap)
    ensures CanStart(Enter(l, key), |l.tickets|) <==>
            forall j | 0 <= j < |l.tickets| && l.tickets[j].key == key :: l.tickets[j].phase == Finished
  {
    EnterKeepsValid(l, key);
    SettledIffEarlierFinished(Enter(l, key), |l.tickets|);
    AheadOfEntered(l, key);
    hide Valid, Settled, HeapOk, AllFinished;
  }

  lemma AheadOfEntered(l: Lock, key: Key)
    ensures AllFinished(Enter(l, key), key, |l.tickets|) <==>
            forall j | 0 <= j < |l.tickets| && l.tickets[j].key == key :: l.tickets[j].phase == Finished
  {
    assert forall j | 0 <= j < |l.tickets| :: Enter(l, key).tickets[j] == l.tickets[j];
  }

  lemma EnteredIs(l: Lock, key: Key, base: seq<Promise>, previous: nat)
    requires if key in l.queues then base == l.heap && previous == l.queues[key]
             else base == l.heap + [Resolved] && previous == |l.heap|
    ensures Enter(l, key) == Lock(base + [Manual(false), Chained(previous, |base|)], l.queues[key := |base| + 1],
                                  l.tickets + [Ticket(key, previous, |base|, Waiting)])
  {
  }

  // ------------------------------------------------------------------------- the class

  /** The locker object. `execute` is cut at its two awaits: entering, resuming once `previous`
      has settled, and the `finally` block; any calls may interleave between the cuts. */
  class InMemoryLocker {
    var heap: seq<Promise>
    var queues: map<Key, nat>
    var tickets: seq<Ticket>

    ghost function Contents(): Lock
      reads this
    {
      Lock(heap, queues, tickets)
    }

    lemma ContentsAre()
      ensures Contents() == Lock(heap, queues, tickets)
    {
    }

    constructor ()
      ensures Valid(Contents()) && tickets == []
    {
      heap, queues, tickets := [], map[], [];
    }

    /** The caller queues behind every earlier caller of its key that has not released. */
    method EnterQueue(key: Key) returns (ticket: nat)
      requires Valid(Contents())
      modifies this
      ensures Valid(Contents()) && Contents() == Enter(old(Contents()), key)
      ensures ticket == |old(tickets)| && tickets[..ticket] == old(tickets) && |tickets| == ticket + 1
      ensures tickets[ticket].key == key && tickets[ticket].phase == Waiting
      ensures CanStart(Contents(), ticket) <==>
              forall j | 0 <= j < ticket && tickets[j].key == key :: tickets[j].phase == Finished
    {
      hide *;
      ghost var before := Contents();
      ContentsAre();
      EnteredMayStart(before, key);
      var promises, previous := heap, 0;
      if key in queues {
        previous := queues[key];
      } else {
        promises, previous := heap + [Resolved], |heap|;
      }
      EnteredIs(before, key, promises, previous);
      var next := |promises|;
      ticket := |tickets|;
      heap, queues, tickets := promises + [Manual(false), Chained(previous, next)], queues[key := next + 1],
                               tickets + [Ticket(key, previous, next, Waiting)];
      ContentsAre();
      assert forall j | 0 <= j < ticket :: tickets[j] == before.tickets[j];
    }

    /** Resumes a waiting caller if the promise it awaits has settled. */
    method Resume(ticket: nat) returns (running: bool)
      requires Valid(Contents()) && ticket < |tickets| && tickets[ticket].phase == Waiting
      modifies this`tickets
      ensures Valid(Contents())
      ensures running <==> forall j | 0 <= j < ticket && old(tickets)[j].key == old(tickets)[ticket].key :: old(tickets)[j].phase == Finished
      ensures tickets == if running then old(tickets)[ticket := old(tickets)[ticket].(phase := Running)] else old(tickets)
      ensures Contents() == if running then Start(old(Contents()), ticket) else old(Contents())
    {
      SettledIffEarlierFinished(Contents(), ticket);
      running := Settled(heap, tickets[ticket].previous);
      if running {
        StartKeepsValid(Contents(), ticket);
        tickets := tickets[ticket := tickets[ticket].(phase := Running)];
      }
    }

    /** `finally`, whether its task returned or threw. */
    method Release(ticket: nat)
      requires Valid(Contents()) && ticket < |tickets| && tickets[ticket].phase == Running
      modifies this`tickets, this`heap
      ensures Valid(Contents())
      ensures old(tickets[ticket].next < |heap|) && Contents() == Finish(old(Contents()), ticket)
      ensures tickets == old(tickets)[ticket := old(tickets)[ticket].(phase := Finished)]
    {
      FinishKeepsValid(Contents(), ticket);
      heap := heap[tickets[ticket].next := Manual(true)];
      tickets := tickets[ticket := tickets[ticket].(phase := Finished)];
    }
  }
}
