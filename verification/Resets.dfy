/** Usage over time: in every reachable state a reservation counts in exactly the windows that hold
    the instant it was admitted at. */
module Resets {
  import opened Domain
  import opened LimitWindows
  import opened Usage
  import opened Tables
  import opened Protocol
  import opened Interleavings
  import opened LimitBound

  // -------------------------------------------------------------------- stamps over runs

  /** In the course of the events the operation's admission read the clock at this instant. */
  ghost predicate Admitted(events: seq<Event>, id: Id, at: Instant) {
    exists i :: 0 <= i < |events| && events[i].Admit? && events[i].id == id && events[i].now == at
  }

  /** Every row carries the window starts of the instant its admission read. */
  ghost predicate StampedByAdmission(cfg: Config, events: seq<Event>, table: ReservationTable) {
    forall id | id in table :: exists at :: Admitted(events, id, at) && Stamped(table[id], cfg.windows(at))
  }

  lemma SameStamp(r: AssetLimitReservation, next: AssetLimitReservation, b: Boundaries)
    requires SameReservation(r, next) && Stamped(r, b)
    ensures Stamped(next, b)
  {
    forall window: LimitWindow ensures next.WindowStart(window) == r.WindowStart(window) {
      match window case Daily => case Weekly => case Monthly =>
    }
  }

  lemma OnlyAdmissionAddsRows(cfg: Config, s: State, e: Event)
    requires Sound(s) && Enabled(s, e)
    ensures Apply(cfg, s, e).store.reservations.Keys
         <= s.store.reservations.Keys + if e.Admit? then {e.id} else {}
    ensures e.Admit? && e.id in Apply(cfg, s, e).store.reservations ==>
              Stamped(Apply(cfg, s, e).store.reservations[e.id], cfg.windows(e.now))
  {
    hide Sound, Stamped, TryAdmit, Settle, ReleaseInCatch;
    match e {
      case Admit(id, now, written) => AdmittedRow(s, id, cfg.windows(now), written);
      case Compensate(id, now) => CompensationAddsNoRow(s, id, now);
      case SettleReservation(p, now) => SettlingAddsNoRow(s, p, now);
      case _ => hide Apply; OthersLeaveReservations(cfg, s, e);
    }
  }

  lemma AdmittedRow(s: State, id: Id, b: Boundaries, now: Instant)
    requires Sound(s) && id in s.calls && s.calls[id].step == Admitting
    ensures var t := TryAdmit(s, id, b, now);
            && t.store.reservations.Keys <= s.store.reservations.Keys + {id}
            && (id in t.store.reservations ==> Stamped(t.store.reservations[id], b))
  {
    assert CallOk(s.store, id, s.calls[id]);
    hide Verdict, Catch, Sound;
  }

  lemma CompensationAddsNoRow(s: State, id: Id, now: Instant)
    requires id in s.calls && s.calls[id].step.Compensating?
    ensures ReleaseInCatch(s, id, now).store.reservations.Keys == s.store.reservations.Keys
  {
    hide TransferAction, ReleaseAssetLimitReservation;
  }

  lemma SettlingAddsNoRow(s: State, p: nat, now: Instant)
    requires p in s.passes && MidOperation(s.passes[p]) && s.passes[p].next < |s.passes[p].listed|
    ensures Settle(s, p, now).store.reservations.Keys == s.store.reservations.Keys
  {
    hide ReleaseAssetLimitReservation, ConsumeAssetLimitReservation;
  }

  lemma LaterStillAdmitted(events: seq<Event>, e: Event, id: Id, at: Instant)
    ensures Admitted(events, id, at) ==> Admitted(events + [e], id, at)
    ensures e.Admit? ==> Admitted(events + [e], e.id, e.now)
  {
    if Admitted(events, id, at) {
      var i :| 0 <= i < |events| && events[i].Admit? && events[i].id == id && events[i].now == at;
      assert (events + [e])[i] == events[i];
    }
    assert (events + [e])[|events|] == e;
  }

  lemma StampedStep(cfg: Config, before: seq<Event>, s: State, e: Event)
    requires Sound(s) && StampedByAdmission(cfg, before, s.store.reservations) && Enabled(s, e)
    ensures StampedByAdmission(cfg, before + [e], Apply(cfg, s, e).store.reservations)
  {
    hide Sound, Apply, Enabled, Stamped, SameReservation, SameTransfer, Admitted;
    SoundStep(cfg, s, e);
    OnlyAdmissionAddsRows(cfg, s, e);
    var next := Apply(cfg, s, e);
    forall id | id in next.store.reservations
      ensures exists at :: Admitted(before + [e], id, at) && Stamped(next.store.reservations[id], cfg.windows(at))
    {
      if id in s.store.reservations {
        var at :| Admitted(before, id, at) && Stamped(s.store.reservations[id], cfg.windows(at));
        SameStamp(s.store.reservations[id], next.store.reservations[id], cfg.windows(at));
        LaterStillAdmitted(before, e, id, at);
      } else {
        LaterStillAdmitted(before, e, id, e.now);
      }
    }
  }

  lemma {:induction false} StampedRun(cfg: Config, before: seq<Event>, s: State, events: seq<Event>, t: State)
    requires Sound(s) && StampedByAdmission(cfg, before, s.store.reservations) && Run(cfg, s, events, t)
    ensures StampedByAdmission(cfg, before + events, t.store.reservations)
    decreases |events|
  {
    hide Sound, Apply, Enabled, StampedByAdmission;
    if events == [] {
      assert before + events == before;
    } else {
      SoundStep(cfg, s, events[0]);
      StampedStep(cfg, before, s, events[0]);
      StampedRun(cfg, before + [events[0]], Apply(cfg, s, events[0]), events[1..], t);
      assert before + [events[0]] + events[1..] == before + events;
    }
  }

  lemma StampedFromFresh(cfg: Config, s: State, events: seq<Event>, t: State)
    requires Initial(s) && Run(cfg, s, events, t)
    ensures StampedByAdmission(cfg, events, t.store.reservations)
  {
    InitialIsSound(s);
    StampedRun(cfg, [], s, events, t);
    assert [] + events == events;
    hide StampedByAdmission, Run;
  }

  // ------------------------------------------------------------------------ nested usage

  ghost predicate OnCalendar(cfg: Config, zone: Zone) {
    ValidZone(zone) && forall i :: cfg.windows(i) == GetAssetLimitWindowBoundaries(zone, i)
  }

  /** On the calendar of any zone, usage nests in every reachable state and at every current
      instant. */
  lemma NestedUsageOverRuns(zone: Zone, cfg: Config, s: State, events: seq<Event>, t: State, key: LimitKey, now: Instant)
    requires OnCalendar(cfg, zone) && Initial(s) && Run(cfg, s, events, t)
    ensures UsedAt(zone, t.store.reservations, key, Daily, now) <= UsedAt(zone, t.store.reservations, key, Weekly, now)
    ensures UsedAt(zone, t.store.reservations, key, Daily, now) <= UsedAt(zone, t.store.reservations, key, Monthly, now)
  {
    hide GetAssetLimitWindowBoundaries, UsedAt, ValidZone, Stamped, Admitted;
    StampedFromFresh(cfg, s, events, t);
    NestedUsage(zone, t.store.reservations, key, now);
  }

  // ---------------------------------------------------------------------------- resets

  /** The row counts towards the limit of the window that holds the instant. */
  predicate CountsAt(zone: Zone, r: AssetLimitReservation, key: LimitKey, window: LimitWindow, now: Instant) {
    r.key == key && r.Counts() && r.WindowStart(window) == GetAssetLimitWindowBoundaries(zone, now).Of(window).start
  }

  lemma StampDecides(zone: Zone, r: AssetLimitReservation, at: Instant, key: LimitKey, window: LimitWindow, now: Instant)
    requires ValidZone(zone) && Stamped(r, GetAssetLimitWindowBoundaries(zone, at))
    ensures var b := GetAssetLimitWindowBoundaries(zone, now).Of(window);
            CountsAt(zone, r, key, window, now) <==> r.key == key && r.Counts() && b.start <= at < b.resetsAt
  {
    hide GetAssetLimitWindowBoundaries, ValidZone;
    SameKeyIffSameWindow(zone, at, now, window);
    assert r.WindowStart(window) == GetAssetLimitWindowBoundaries(zone, at).Of(window).start;
  }

  /** Whatever interleaves and however the clock runs: in every reachable state a row counts at an
      instant exactly when it is active or consumed and its admission read the clock in the window
      that holds the instant, whenever the row itself was written. */
  lemma UsageIsOfItsWindow(zone: Zone, cfg: Config, s: State, events: seq<Event>, t: State, id: Id) returns (at: Instant)
    requires OnCalendar(cfg, zone) && Initial(s) && Run(cfg, s, events, t) && id in t.store.reservations
    ensures Admitted(events, id, at)
    ensures forall key, window, now ::
      var r, b := t.store.reservations[id], GetAssetLimitWindowBoundaries(zone, now).Of(window);
      CountsAt(zone, r, key, window, now) <==> r.key == key && r.Counts() && b.start <= at < b.resetsAt
  {
    hide GetAssetLimitWindowBoundaries, ValidZone, Stamped, CountsAt, Admitted, Run;
    StampedFromFresh(cfg, s, events, t);
    at :| Admitted(events, id, at) && Stamped(t.store.reservations[id], cfg.windows(at));
    forall key, window, now ensures
      var r, b := t.store.reservations[id], GetAssetLimitWindowBoundaries(zone, now).Of(window);
      CountsAt(zone, r, key, window, now) <==> r.key == key && r.Counts() && b.start <= at < b.resetsAt
    {
      StampDecides(zone, t.store.reservations[id], at, key, window, now);
    }
  }

  /** No admission of the events read the clock after the instant. */
  predicate AdmitsUntil(events: seq<Event>, now: Instant) {
    forall i | 0 <= i < |events| && events[i].Admit? :: events[i].now <= now
  }

  /** The rows whose admission read the clock at or after an instant. */
  ghost function AdmittedSince(events: seq<Event>, table: ReservationTable, from: Instant): ReservationTable {
    map id | id in table && (exists at :: at >= from && Admitted(events, id, at)) :: table[id]
  }

  lemma PartWithout(table: ReservationTable, part: ReservationTable, id: Id, q: Query)
    requires id in table && (id in part ==> part[id] == table[id]) && (id !in part ==> Weight(table[id], q) == 0)
    ensures Sum(table, q) == Weight(table[id], q) + Sum(table - {id}, q)
    ensures Sum(part, q) == Weight(table[id], q) + Sum(part - {id}, q)
  {
    hide Sum, Weight;
    SumWithout(table, id, q);
    if id in part {
      SumWithout(part, id, q);
    } else {
      assert part - {id} == part;
    }
  }

  lemma {:induction false} SumOfPart(table: ReservationTable, part: ReservationTable, q: Query)
    requires forall id | id in part :: id in table && table[id] == part[id]
    requires forall id | id in table && id !in part :: Weight(table[id], q) == 0
    ensures Sum(table, q) == Sum(part, q)
    decreases |table|
  {
    hide Sum, Weight;
    if table == map[] {
      assert part == map[];
    } else {
      var id :| id in table;
      PartWithout(table, part, id, q);
      SumOfPart(table - {id}, part - {id}, q);
    }
  }

  /** An operation is admitted once: not again after it has a reservation. */
  lemma {:induction false} AdmittedOnce(cfg: Config, s: State, events: seq<Event>, t: State, id: Id, at: Instant)
    requires Sound(s) && Run(cfg, s, events, t) && id in s.store.reservations
    ensures !Admitted(events, id, at)
    decreases |events|
  {
    hide Sound, Apply, Enabled, Admitted;
    if events == [] {
      NoneAdmitted(id, at);
    } else {
      var e, rest := events[0], events[1..];
      NotAdmittedAgain(cfg, s, e, id);
      AdmittedOnce(cfg, Apply(cfg, s, e), rest, t, id, at);
      hide Run;
      assert events == [e] + rest;
      SplitAdmitted([e], rest, id, at);
      AdmittedByOne(e, id, at);
    }
  }

  lemma NoneAdmitted(id: Id, at: Instant)
    ensures !Admitted([], id, at)
  {
  }

  lemma AdmittedByOne(e: Event, id: Id, at: Instant)
    ensures Admitted([e], id, at) ==> e.Admit? && e.id == id
  {
  }

  lemma SplitAdmitted(a: seq<Event>, b: seq<Event>, id: Id, at: Instant)
    ensures Admitted(a + b, id, at) ==> Admitted(a, id, at) || Admitted(b, id, at)
  {
    if Admitted(a + b, id, at) {
      var i :| 0 <= i < |a + b| && (a + b)[i].Admit? && (a + b)[i].id == id && (a + b)[i].now == at;
      assert if i < |a| then (a + b)[i] == a[i] else (a + b)[i] == b[i - |a|];
    }
  }

  lemma NotAdmittedAgain(cfg: Config, s: State, e: Event, id: Id)
    requires Sound(s) && Enabled(s, e) && id in s.store.reservations
    ensures (e.Admit? ==> e.id != id) && Sound(Apply(cfg, s, e)) && id in Apply(cfg, s, e).store.reservations
  {
    if e.Admit? { assert CallOk(s.store, e.id, s.calls[e.id]); }
    SoundStep(cfg, s, e);
    hide Sound, Apply, SameReservation, SameTransfer;
  }

  /** The announced reset is truthful. Between the instant it is announced and any later one let
      the run go on in any way. Before the reset, every reservation that counted and has not been
      released still counts, and with its whole amount. From the reset on, usage is that of the
      reservations whose admission read the clock at or after the reset, and none of those made
      before the announcement is among them: it has started again from zero. */
  lemma TruthfulReset(zone: Zone, cfg: Config, s: State, before: seq<Event>, m: State, after: seq<Event>, t: State,
                      key: LimitKey, window: LimitWindow, now: Instant, later: Instant)
    requires OnCalendar(cfg, zone) && Initial(s) && Run(cfg, s, before, m) && Run(cfg, m, after, t)
    requires AdmitsUntil(before, now) && now <= later
    ensures var resetsAt := GetAssetLimitWindowBoundaries(zone, now).Of(window).resetsAt;
            var since := AdmittedSince(before + after, t.store.reservations, resetsAt);
            if later < resetsAt then
              && GetAssetLimitWindowBoundaries(zone, later).Of(window) == GetAssetLimitWindowBoundaries(zone, now).Of(window)
              && forall id | id in m.store.reservations && CountsAt(zone, m.store.reservations[id], key, window, now) ::
                   && id in t.store.reservations && t.store.reservations[id].amount == m.store.reservations[id].amount
                   && (t.store.reservations[id].Counts() ==> CountsAt(zone, t.store.reservations[id], key, window, later))
            else
              && UsedAt(zone, t.store.reservations, key, window, later) == UsedAt(zone, since, key, window, later)
              && since.Keys !! m.store.reservations.Keys
  {
    hide GetAssetLimitWindowBoundaries, ValidZone, Sound, Run, UsedAt, Initial, AdmitsUntil, SameTransfer, SameReservation, AdmittedSince;
    InitialIsSound(s);
    SoundRun(cfg, s, before, m);
    SoundRun(cfg, m, after, t);
    WindowHoldsNow(zone, now, window);
    var resetsAt := GetAssetLimitWindowBoundaries(zone, now).Of(window).resetsAt;
    if later < resetsAt {
      SameKeyIffSameWindow(zone, later, now, window);
      forall id | id in m.store.reservations && CountsAt(zone, m.store.reservations[id], key, window, now) ensures id in t.store.reservations
        && t.store.reservations[id].amount == m.store.reservations[id].amount
        && (t.store.reservations[id].Counts() ==> CountsAt(zone, t.store.reservations[id], key, window, later))
      {
        SameRow(m.store.reservations[id], t.store.reservations[id], window);
      }
    } else {
      StartsAgain(zone, cfg, s, before, m, after, t, key, window, now, later);
      NoneFromBefore(cfg, s, before, m, after, t, now, resetsAt);
    }
  }

  lemma SameRow(r: AssetLimitReservation, next: AssetLimitReservation, window: LimitWindow)
    requires SameReservation(r, next)
    ensures next.key == r.key && next.amount == r.amount && next.WindowStart(window) == r.WindowStart(window)
  {
  }

  lemma NoneFromBefore(cfg: Config, s: State, before: seq<Event>, m: State, after: seq<Event>, t: State, now: Instant, from: Instant)
    requires Sound(s) && Run(cfg, s, before, m) && Run(cfg, m, after, t) && AdmitsUntil(before, now) && now < from
    ensures AdmittedSince(before + after, t.store.reservations, from).Keys !! m.store.reservations.Keys
  {
    SoundRun(cfg, s, before, m);
    hide Sound, Run;
    forall id | id in AdmittedSince(before + after, t.store.reservations, from) ensures id !in m.store.reservations {
      var at :| at >= from && Admitted(before + after, id, at);
      SplitAdmitted(before, after, id, at);
      assert !Admitted(before, id, at);
      if id in m.store.reservations { AdmittedOnce(cfg, m, after, t, id, at); }
    }
  }

  lemma StartsAgain(zone: Zone, cfg: Config, s: State, before: seq<Event>, m: State, after: seq<Event>, t: State,
                    key: LimitKey, window: LimitWindow, now: Instant, later: Instant)
    requires OnCalendar(cfg, zone) && Initial(s) && Run(cfg, s, before, m) && Run(cfg, m, after, t)
    requires GetAssetLimitWindowBoundaries(zone, now).Of(window).resetsAt <= later
    ensures var resetsAt := GetAssetLimitWindowBoundaries(zone, now).Of(window).resetsAt;
            UsedAt(zone, t.store.reservations, key, window, later)
            == UsedAt(zone, AdmittedSince(before + after, t.store.reservations, resetsAt), key, window, later)
  {
    hide GetAssetLimitWindowBoundaries, ValidZone, Run, Weight, CountsAt, Admitted;
    var resetsAt := GetAssetLimitWindowBoundaries(zone, now).Of(window).resetsAt;
    var q := Query(key, window, GetAssetLimitWindowBoundaries(zone, later).Of(window).start, COUNTED);
    RunConcat(cfg, s, before, m, after, t);
    LaterWindowStartsLater(zone, now, later, window);
    var since := AdmittedSince(before + after, t.store.reservations, resetsAt);
    forall id | id in t.store.reservations && id !in since ensures Weight(t.store.reservations[id], q) == 0 {
      var at := UsageIsOfItsWindow(zone, cfg, s, before + after, t, id);
      assert at < resetsAt;
      assert !CountsAt(zone, t.store.reservations[id], key, window, later);
      NothingUnlessCounting(zone, t.store.reservations[id], key, window, later);
    }
    SumOfPart(t.store.reservations, since, q);
  }

  lemma NothingUnlessCounting(zone: Zone, r: AssetLimitReservation, key: LimitKey, window: LimitWindow, now: Instant)
    ensures Weight(r, Query(key, window, GetAssetLimitWindowBoundaries(zone, now).Of(window).start, COUNTED))
         == if CountsAt(zone, r, key, window, now) then r.amount else 0
  {
    hide GetAssetLimitWindowBoundaries;
  }

  /** Past a reset the window at hand starts no earlier than the reset. */
  lemma LaterWindowStartsLater(zone: Zone, now: Instant, later: Instant, window: LimitWindow)
    requires ValidZone(zone) && GetAssetLimitWindowBoundaries(zone, now).Of(window).resetsAt <= later
    ensures GetAssetLimitWindowBoundaries(zone, now).Of(window).resetsAt <= GetAssetLimitWindowBoundaries(zone, later).Of(window).start
  {
    hide GetAssetLimitWindowBoundaries, ValidZone;
    var b, c := GetAssetLimitWindowBoundaries(zone, now).Of(window), GetAssetLimitWindowBoundaries(zone, later).Of(window);
    WindowHoldsNow(zone, now, window);
    WindowHoldsNow(zone, later, window);
    if c.start < b.resetsAt {
      WindowsAreShared(zone, b.resetsAt - 1, now, window);
      WindowsAreShared(zone, b.resetsAt - 1, later, window);
    }
  }
}
