/** What agents have handed to the chain, as against what is stored of it: an operation may be
    written off after its broadcast returned. */
module Broadcasts {
  import opened Domain
  import opened Usage
  import opened Tables
  import opened Protocol
  import opened Interleavings
  import opened LimitBound
  import opened Discipline
  import opened Safety

  /** The operations whose broadcast returned a hash in the course of a run. */
  function BroadcastIds(events: seq<Event>): set<Id> {
    set i | 0 <= i < |events| && events[i].BroadcastReturns? :: events[i].id
  }

  predicate AgentIn(s: Store, id: Id) {
    id in s.transfers && s.transfers[id].actorRole == Agent
  }

  /** Of these, the AGENT operations reserved in one window. */
  ghost function BroadcastIn(events: seq<Event>, s: Store, key: LimitKey, window: LimitWindow, start: Instant): set<Id> {
    set id | id in BroadcastIds(events) && AgentIn(s, id) && id in s.reservations
             && s.reservations[id].key == key && s.reservations[id].WindowStart(window) == start
  }

  /** And those written off since: their reservation has been released. */
  ghost function WrittenOffIn(events: seq<Event>, s: Store, key: LimitKey, window: LimitWindow, start: Instant): set<Id> {
    set id | id in BroadcastIn(events, s, key, window, start) && s.reservations[id].status == RELEASED
  }

  lemma BroadcastHasReservation(cfg: Config, s: State, e: Event)
    requires Sound(s) && Enabled(s, e) && e.BroadcastReturns? && AgentIn(Apply(cfg, s, e).store, e.id)
    ensures e.id in Apply(cfg, s, e).store.reservations
  {
    assert CallOk(s.store, e.id, s.calls[e.id]);
    hide Sound, WellFormed;
  }

  lemma StaysInTables(s: Store, t: Store, id: Id)
    requires Extends(s, t) && id in s.transfers
    ensures id in t.transfers && t.transfers[id].actorRole == s.transfers[id].actorRole
    ensures id in s.reservations ==> id in t.reservations
  {
  }

  lemma BroadcastIsOfACall(cfg: Config, s: State, e: Event)
    requires Sound(s) && Enabled(s, e) && e.BroadcastReturns?
    ensures e.id in Apply(cfg, s, e).store.transfers
  {
    assert CallOk(s.store, e.id, s.calls[e.id]);
    hide Sound;
  }

  lemma SplitIds(e: Event, rest: seq<Event>, id: Id)
    requires id in BroadcastIds([e] + rest)
    ensures id in BroadcastIds(rest) || (e.BroadcastReturns? && e.id == id)
  {
    var i :| 0 <= i < |[e] + rest| && ([e] + rest)[i].BroadcastReturns? && ([e] + rest)[i].id == id;
    if i > 0 { assert rest[i - 1] == ([e] + rest)[i]; }
  }

  /** Whatever interleaves, no AGENT operation goes out before its amount is reserved. */
  lemma {:induction false} BroadcastsAreReserved(cfg: Config, s: State, events: seq<Event>, t: State, id: Id)
    requires Sound(s) && Run(cfg, s, events, t) && id in BroadcastIds(events)
    ensures id in t.store.transfers
    ensures t.store.transfers[id].actorRole == Agent ==> id in t.store.reservations && SameDeal(t.store.reservations[id], t.store.transfers[id])
    decreases |events|
  {
    var e, rest := events[0], events[1..];
    assert events == [e] + rest;
    SplitIds(e, rest, id);
    SoundStep(cfg, s, e);
    var next := Apply(cfg, s, e);
    SoundRun(cfg, next, rest, t);
    if id in BroadcastIds(rest) {
      hide Sound, Extends, Apply, BroadcastIds, SameDeal;
      BroadcastsAreReserved(cfg, next, rest, t, id);
    } else {
      BroadcastIsOfACall(cfg, s, e);
      if AgentIn(next.store, id) { BroadcastHasReservation(cfg, s, e); }
      StaysInTables(next.store, t.store, id);
      assert StoreOk(t.store);
      hide Sound, Extends, Apply;
    }
  }

  lemma {:induction false} TotalSplits(transfers: map<Id, TransferOperation>, ids: set<Id>, part: set<Id>)
    requires ids <= transfers.Keys && part <= ids
    ensures TotalRequested(transfers, ids) == TotalRequested(transfers, part) + TotalRequested(transfers, ids - part)
    decreases |ids|
  {
    if ids != {} {
      var id :| id in ids && TotalRequested(transfers, ids) == transfers[id].requestedAmount + TotalRequested(transfers, ids - {id});
      if id in part {
        TotalWithout(transfers, part, id);
        TotalSplits(transfers, ids - {id}, part - {id});
        assert ids - {id} - (part - {id}) == ids - part;
      } else {
        TotalWithout(transfers, ids - part, id);
        TotalSplits(transfers, ids - {id}, part);
        assert ids - {id} - part == ids - part - {id};
      }
    }
  }

  lemma {:induction false} TotalWithout(transfers: map<Id, TransferOperation>, ids: set<Id>, id: Id)
    requires ids <= transfers.Keys && id in ids
    ensures TotalRequested(transfers, ids) == transfers[id].requestedAmount + TotalRequested(transfers, ids - {id})
    decreases |ids|
  {
    var first :| first in ids && TotalRequested(transfers, ids) == transfers[first].requestedAmount + TotalRequested(transfers, ids - {first});
    if first != id {
      TotalWithout(transfers, ids - {first}, id);
      TotalWithout(transfers, ids - {id}, first);
      assert ids - {first} - {id} == ids - {id} - {first};
    }
  }

  /** The counted reservations of one window whose operation has not been handed to the chain. */
  ghost function UnsentIn(events: seq<Event>, s: Store, key: LimitKey, window: LimitWindow, start: Instant): set<Id> {
    set id | id in s.reservations && id !in BroadcastIds(events) && s.reservations[id].Counts()
             && s.reservations[id].key == key && s.reservations[id].WindowStart(window) == start
  }

  lemma {:induction false} TotalIsSum(transfers: map<Id, TransferOperation>, ids: set<Id>, table: ReservationTable, q: Query)
    requires ids <= transfers.Keys && ids <= table.Keys
    requires forall id | id in table :: Weight(table[id], q) == if id in ids then transfers[id].requestedAmount else 0
    ensures TotalRequested(transfers, ids) == Sum(table, q)
    decreases |ids|
  {
    if ids == {} {
      NothingInWindow(table, q);
    } else {
      var id :| id in ids && TotalRequested(transfers, ids) == transfers[id].requestedAmount + TotalRequested(transfers, ids - {id});
      TotalIsSum(transfers, ids - {id}, table - {id}, q);
      SumWithout(table, id, q);
    }
  }

  /** What counts in a window is what was sent and not written off, and what was not sent. */
  lemma UsedIsSentAndUnsent(events: seq<Event>, s: Store, key: LimitKey, window: LimitWindow, start: Instant)
    requires StoreOk(s)
    ensures var standing := BroadcastIn(events, s, key, window, start) - WrittenOffIn(events, s, key, window, start);
            var unsent := UnsentIn(events, s, key, window, start);
            && standing <= s.transfers.Keys && unsent <= s.transfers.Keys && standing !! unsent
            && Used(s.reservations, key, window, start) == TotalRequested(s.transfers, standing + unsent)
  {
    var standing := BroadcastIn(events, s, key, window, start) - WrittenOffIn(events, s, key, window, start);
    var unsent := UnsentIn(events, s, key, window, start);
    var q := Query(key, window, start, COUNTED);
    forall id | id in s.reservations
      ensures Weight(s.reservations[id], q) == if id in standing + unsent then s.transfers[id].requestedAmount else 0
    {
      assert SameDeal(s.reservations[id], s.transfers[id]);
    }
    hide StoreOk, Weight, BroadcastIds;
    TotalIsSum(s.transfers, standing + unsent, s.reservations, q);
  }

  /** Sent or not, written off or not: every amount of a window is accounted for once. */
  lemma SentIsAccountedFor(events: seq<Event>, s: Store, key: LimitKey, window: LimitWindow, start: Instant)
    requires StoreOk(s)
    ensures UnsentIn(events, s, key, window, start) <= s.transfers.Keys
    ensures TotalRequested(s.transfers, BroadcastIn(events, s, key, window, start))
            + TotalRequested(s.transfers, UnsentIn(events, s, key, window, start))
         == Used(s.reservations, key, window, start) + TotalRequested(s.transfers, WrittenOffIn(events, s, key, window, start))
  {
    var sent, off := BroadcastIn(events, s, key, window, start), WrittenOffIn(events, s, key, window, start);
    var unsent := UnsentIn(events, s, key, window, start);
    UsedIsSentAndUnsent(events, s, key, window, start);
    hide StoreOk, UnsentIn, TotalRequested, Used;
    TotalSplits(s.transfers, sent, off);
    hide BroadcastIn, WrittenOffIn;
    TotalSplits(s.transfers, (sent - off) + unsent, unsent);
    assert (sent - off) + unsent - unsent == sent - off;
  }

  /** What agents have handed to the chain in a window whose limit stands: at most the limit, plus
      what was written off after its broadcast, plus what was revived. Nothing is assumed of how
      calls and passes interleave. */
  lemma BroadcastsStayWithinLimit(cfg: Config, s: State, events: seq<Event>, t: State,
                                  key: LimitKey, window: LimitWindow, start: Instant)
    requires Initial(s) && Run(cfg, s, events, t)
    requires LimitStandsThroughout(cfg, s, events, key, window) && LimitIn(t, key, window).Some?
    ensures TotalRequested(t.store.transfers, BroadcastIn(events, t.store, key, window, start))
         <= LimitIn(t, key, window).value + RevivedIn(t, key, window, start)
            + TotalRequested(t.store.transfers, WrittenOffIn(events, t.store, key, window, start))
  {
    InitialIsSound(s);
    SoundRun(cfg, s, events, t);
    assert StoreOk(t.store);
    hide Sound, StoreOk, Run, LimitStandsThroughout, BroadcastIn, WrittenOffIn, TotalRequested, RevivedIn;
    SentIsAccountedFor(events, t.store, key, window, start);
    LimitBoundFromFresh(cfg, s, events, t, key, window, start);
  }

  /** Under the discipline nothing is revived: the excess is what was written off. */
  lemma DisciplinedBroadcasts(cfg: Config, s: State, events: seq<Event>, t: State,
                              key: LimitKey, window: LimitWindow, start: Instant)
    requires Initial(s) && DisciplinedRun(cfg, s, events, t)
    requires LimitStandsThroughout(cfg, s, events, key, window) && LimitIn(t, key, window).Some?
    ensures TotalRequested(t.store.transfers, BroadcastIn(events, t.store, key, window, start))
         <= LimitIn(t, key, window).value + TotalRequested(t.store.transfers, WrittenOffIn(events, t.store, key, window, start))
    ensures forall id | id in WrittenOffIn(events, t.store, key, window, start) ::
              id in t.store.transfers && !t.store.transfers[id].Outgoing()
  {
    DisciplinedIsRun(cfg, s, events, t);
    InitialInStep(s);
    InStepRun(cfg, s, events, t);
    assert RevivedIn(t, key, window, start) == 0;
    hide InStep, LimitStandsThroughout, TotalRequested;
    BroadcastsStayWithinLimit(cfg, s, events, t, key, window, start);
    forall id | id in WrittenOffIn(events, t.store, key, window, start)
      ensures id in t.store.transfers && !t.store.transfers[id].Outgoing()
    {
      ReservationsAgree(cfg, s, events, t, id);
    }
  }
}
