/** Spending-limit arithmetic: what counts against a window, when an amount exceeds a limit and
    what the owner is shown. */
module Usage {
  import opened Wrappers
  import opened Domain
  import opened LimitWindows

  type ReservationTable = map<Id, AssetLimitReservation>

  // ------------------------------------------------------------------------------- sums

  /** The reservations of one key whose window starts at a given instant, in the given
      statuses. */
  datatype Query = Query(key: LimitKey, window: LimitWindow, start: Instant, statuses: set<ReservationStatus>)
  {
    function In(among: set<ReservationStatus>): Query {
      this.(statuses := among)
    }
  }

  const COUNTED: set<ReservationStatus> := {ACTIVE, CONSUMED}
  const ANY: set<ReservationStatus> := {ACTIVE, CONSUMED, RELEASED}

  function Weight(r: AssetLimitReservation, q: Query): nat {
    if r.key == q.key && r.WindowStart(q.window) == q.start && r.status in q.statuses then r.amount else 0
  }

  ghost function Sum(table: ReservationTable, q: Query): nat {
    if table == map[] then 0
    else
      var id :| id in table;
      Weight(table[id], q) + Sum(table - {id}, q)
  }

  function SeqSum(rows: seq<AssetLimitReservation>, q: Query): nat {
    if rows == [] then 0 else SeqSum(rows[..|rows| - 1], q) + Weight(rows[|rows| - 1], q)
  }

  /** Usage as the limits see it: active and consumed reservations of one window. */
  ghost function Used(table: ReservationTable, key: LimitKey, window: LimitWindow, start: Instant): nat {
    Sum(table, Query(key, window, start, COUNTED))
  }

  lemma {:induction false} SumWithout(table: ReservationTable, id: Id, q: Query)
    requires id in table
    ensures Sum(table, q) == Weight(table[id], q) + Sum(table - {id}, q)
    decreases |table|
  {
    var first :| first in table && Sum(table, q) == Weight(table[first], q) + Sum(table - {first}, q);
    if first != id {
      SumWithout(table - {first}, id, q);
      SumWithout(table - {id}, first, q);
      assert table - {first} - {id} == table - {id} - {first};
    }
  }

  /** Writing one row moves the sum by the difference of the weights. */
  lemma SumUpdate(table: ReservationTable, id: Id, r: AssetLimitReservation, q: Query)
    ensures Sum(table[id := r], q) + (if id in table then Weight(table[id], q) else 0) == Sum(table, q) + Weight(r, q)
  {
    SumWithout(table[id := r], id, q);
    if id in table {
      SumWithout(table, id, q);
      assert table[id := r] - {id} == table - {id};
    } else {
      assert table[id := r] - {id} == table;
    }
  }

  lemma {:induction false} SumMonotone(table: ReservationTable, p: Query, q: Query)
    requires forall id | id in table :: Weight(table[id], p) <= Weight(table[id], q)
    ensures Sum(table, p) <= Sum(table, q)
    decreases |table|
  {
    if table != map[] {
      var id :| id in table;
      SumWithout(table, id, p);
      SumWithout(table, id, q);
      SumMonotone(table - {id}, p, q);
    }
  }

  lemma {:induction false} SumSplit(table: ReservationTable, q: Query, a: set<ReservationStatus>, b: set<ReservationStatus>)
    requires a !! b
    ensures Sum(table, q.In(a + b)) == Sum(table, q.In(a)) + Sum(table, q.In(b))
    decreases |table|
  {
    if table != map[] {
      var id :| id in table;
      SumWithout(table, id, q.In(a));
      SumWithout(table, id, q.In(b));
      SumWithout(table, id, q.In(a + b));
      SumSplit(table - {id}, q, a, b);
    }
  }

  /** Rows are stored under their own operation id. */
  ghost predicate Keyed(table: ReservationTable) {
    forall id | id in table :: table[id].operationId == id
  }

  /** The rows of one key, each once, in some order. */
  ghost predicate Lists(rows: seq<AssetLimitReservation>, table: ReservationTable, key: LimitKey) {
    && (forall i | 0 <= i < |rows| :: rows[i].operationId in table && table[rows[i].operationId] == rows[i])
    && (forall i, j | 0 <= i < j < |rows| :: rows[i].operationId != rows[j].operationId)
    && (forall id | id in table && table[id].key == key :: table[id] in rows)
    && (forall i | 0 <= i < |rows| :: rows[i].key == key)
  }

  /** Summing a listing of the key's rows is summing the table: neither the order of the rows
      nor the rows of other keys matter. */
  lemma {:induction false} ListingSumsTable(rows: seq<AssetLimitReservation>, table: ReservationTable, q: Query)
    requires Keyed(table) && Lists(rows, table, q.key)
    ensures SeqSum(rows, q) == Sum(table, q)
    decreases |rows|
  {
    if rows == [] {
      NothingInWindow(table, q);
    } else {
      var last := rows[|rows| - 1];
      var rest := table - {last.operationId};
      assert Lists(rows[..|rows| - 1], rest, q.key) by {
        forall id | id in rest && rest[id].key == q.key ensures rest[id] in rows[..|rows| - 1] {
          var i :| 0 <= i < |rows| && rows[i] == table[id];
          assert rows[i] == rows[..|rows| - 1][i];
        }
      }
      ListingSumsTable(rows[..|rows| - 1], rest, q);
      SumWithout(table, last.operationId, q);
    }
  }

  lemma {:induction false} NothingInWindow(table: ReservationTable, q: Query)
    requires forall id | id in table :: Weight(table[id], q) == 0
    ensures Sum(table, q) == 0
    decreases |table|
  {
    if table != map[] {
      var id :| id in table;
      SumWithout(table, id, q);
      NothingInWindow(table - {id}, q);
    }
  }

  /** The amounts of these rows together. */
  ghost function AmountOf(table: ReservationTable, ids: set<Id>): nat
    requires ids <= table.Keys
  {
    if ids == {} then 0
    else
      var id :| id in ids;
      table[id].amount + AmountOf(table, ids - {id})
  }

  lemma {:induction false} SumIsAmount(table: ReservationTable, ids: set<Id>, q: Query)
    requires ids <= table.Keys
    requires forall id | id in table :: Weight(table[id], q) == if id in ids then table[id].amount else 0
    ensures Sum(table, q) == AmountOf(table, ids)
    decreases |ids|
  {
    if ids == {} {
      NothingInWindow(table, q);
    } else {
      var id :| id in ids && AmountOf(table, ids) == table[id].amount + AmountOf(table, ids - {id});
      SumWithout(table, id, q);
      SumIsAmount(table - {id}, ids - {id}, q);
      SameAmount(table - {id}, table, ids - {id});
    }
  }

  lemma {:induction false} SameAmount(a: ReservationTable, b: ReservationTable, ids: set<Id>)
    requires ids <= a.Keys && ids <= b.Keys && forall id | id in ids :: a[id] == b[id]
    ensures AmountOf(a, ids) == AmountOf(b, ids)
    decreases |ids|
  {
    if ids != {} {
      var id :| id in ids && AmountOf(a, ids) == a[id].amount + AmountOf(a, ids - {id});
      SameAmount(a, b, ids - {id});
      AmountWithout(b, ids, id);
    }
  }

  lemma {:induction false} AmountWithout(table: ReservationTable, ids: set<Id>, id: Id)
    requires ids <= table.Keys && id in ids
    ensures AmountOf(table, ids) == table[id].amount + AmountOf(table, ids - {id})
    decreases |ids|
  {
    var first :| first in ids && AmountOf(table, ids) == table[first].amount + AmountOf(table, ids - {first});
    if first != id {
      AmountWithout(table, ids - {first}, id);
      AmountWithout(table, ids - {id}, first);
      assert ids - {first} - {id} == ids - {id} - {first};
    }
  }

  /** What counts in a window: the amounts of the key's rows with that window's start that are
      ACTIVE or CONSUMED. */
  lemma UsedIsWhatCounts(table: ReservationTable, key: LimitKey, start: Instant)
    ensures Used(table, key, Daily, start) == AmountOf(table,
      set id | id in table && table[id].key == key && table[id].dailyWindowStart == start && table[id].status in {ACTIVE, CONSUMED})
    ensures Used(table, key, Weekly, start) == AmountOf(table,
      set id | id in table && table[id].key == key && table[id].weeklyWindowStart == start && table[id].status in {ACTIVE, CONSUMED})
    ensures Used(table, key, Monthly, start) == AmountOf(table,
      set id | id in table && table[id].key == key && table[id].monthlyWindowStart == start && table[id].status in {ACTIVE, CONSUMED})
  {
    SumIsAmount(table,
      (set id | id in table && table[id].key == key && table[id].dailyWindowStart == start && table[id].status in {ACTIVE, CONSUMED}),
      Query(key, Daily, start, COUNTED));
    SumIsAmount(table,
      (set id | id in table && table[id].key == key && table[id].weeklyWindowStart == start && table[id].status in {ACTIVE, CONSUMED}),
      Query(key, Weekly, start, COUNTED));
    SumIsAmount(table,
      (set id | id in table && table[id].key == key && table[id].monthlyWindowStart == start && table[id].status in {ACTIVE, CONSUMED}),
      Query(key, Monthly, start, COUNTED));
  }

  // ------------------------------------------------------------------------ usage totals

  datatype UsageTotals = UsageTotals(
    dailyConsumed: nat, weeklyConsumed: nat, monthlyConsumed: nat,
    dailyReserved: nat, weeklyReserved: nat, monthlyReserved: nat)
  {
    function Consumed(window: LimitWindow): nat {
      match window
      case Daily => dailyConsumed
      case Weekly => weeklyConsumed
      case Monthly => monthlyConsumed
    }

    function Reserved(window: LimitWindow): nat {
      match window
      case Daily => dailyReserved
      case Weekly => weeklyReserved
      case Monthly => monthlyReserved
    }

    function Effective(window: LimitWindow): nat {
      Consumed(window) + Reserved(window)
    }
  }

  function WindowQuery(key: LimitKey, window: LimitWindow, b: Boundaries, status: ReservationStatus): Query {
    Query(key, window, b.Of(window).start, {status})
  }

  /** Each of the six totals is the sum of the rows in its window and status. */
  ghost predicate AreTotals(totals: UsageTotals, rows: seq<AssetLimitReservation>, key: LimitKey, b: Boundaries) {
    forall window: LimitWindow ::
      && totals.Consumed(window) == SeqSum(rows, WindowQuery(key, window, b, CONSUMED))
      && totals.Reserved(window) == SeqSum(rows, WindowQuery(key, window, b, ACTIVE))
  }

  /** One pass over the rows, adding each counted row to the windows it belongs to. */
  method CalculateUsageTotals(rows: seq<AssetLimitReservation>, b: Boundaries, ghost key: LimitKey)
    returns (totals: UsageTotals)
    requires forall r | r in rows :: r.key == key
    ensures AreTotals(totals, rows, key, b)
  {
    totals := UsageTotals(0, 0, 0, 0, 0, 0);
    for i := 0 to |rows|
      invariant AreTotals(totals, rows[..i], key, b)
    {
      var r := rows[i];
      assert rows[..i + 1][..i] == rows[..i] && r.key == key;
      if r.status != ACTIVE && r.status != CONSUMED {
        continue;
      }
      if r.status == CONSUMED {
        if r.dailyWindowStart == b.daily.start {
          totals := totals.(dailyConsumed := totals.dailyConsumed + r.amount);
        }
        if r.weeklyWindowStart == b.weekly.start {
          totals := totals.(weeklyConsumed := totals.weeklyConsumed + r.amount);
        }
        if r.monthlyWindowStart == b.monthly.start {
          totals := totals.(monthlyConsumed := totals.monthlyConsumed + r.amount);
        }
      } else {
        if r.dailyWindowStart == b.daily.start {
          totals := totals.(dailyReserved := totals.dailyReserved + r.amount);
        }
        if r.weeklyWindowStart == b.weekly.start {
          totals := totals.(weeklyReserved := totals.weeklyReserved + r.amount);
        }
        if r.monthlyWindowStart == b.monthly.start {
          totals := totals.(monthlyReserved := totals.monthlyReserved + r.amount);
        }
      }
    }
    assert rows[..|rows|] == rows;
  }

  /** The totals of a stored table, whatever the order its rows are listed in. */
  ghost function TableTotals(table: ReservationTable, key: LimitKey, b: Boundaries): UsageTotals {
    UsageTotals(
      Sum(table, WindowQuery(key, Daily, b, CONSUMED)),
      Sum(table, WindowQuery(key, Weekly, b, CONSUMED)),
      Sum(table, WindowQuery(key, Monthly, b, CONSUMED)),
      Sum(table, WindowQuery(key, Daily, b, ACTIVE)),
      Sum(table, WindowQuery(key, Weekly, b, ACTIVE)),
      Sum(table, WindowQuery(key, Monthly, b, ACTIVE)))
  }

  /** The loop's totals of any listing of the key's rows are those of the table. */
  lemma TotalsMeasureTable(totals: UsageTotals, rows: seq<AssetLimitReservation>, table: ReservationTable,
                           key: LimitKey, b: Boundaries)
    requires Keyed(table) && Lists(rows, table, key) && AreTotals(totals, rows, key, b)
    ensures totals == TableTotals(table, key, b)
  {
    forall window: LimitWindow
      ensures totals.Consumed(window) == Sum(table, WindowQuery(key, window, b, CONSUMED))
      ensures totals.Reserved(window) == Sum(table, WindowQuery(key, window, b, ACTIVE))
    {
      ListingSumsTable(rows, table, WindowQuery(key, window, b, CONSUMED));
      ListingSumsTable(rows, table, WindowQuery(key, window, b, ACTIVE));
    }
    assert totals.Consumed(Daily) == TableTotals(table, key, b).Consumed(Daily);
    assert totals.Consumed(Weekly) == TableTotals(table, key, b).Consumed(Weekly);
    assert totals.Consumed(Monthly) == TableTotals(table, key, b).Consumed(Monthly);
    assert totals.Reserved(Daily) == TableTotals(table, key, b).Reserved(Daily);
    assert totals.Reserved(Weekly) == TableTotals(table, key, b).Reserved(Weekly);
    assert totals.Reserved(Monthly) == TableTotals(table, key, b).Reserved(Monthly);
  }

  /** Consumed and reserved amounts add up to the usage that counts. */
  lemma EffectiveIsUsed(table: ReservationTable, key: LimitKey, b: Boundaries, window: LimitWindow)
    ensures TableTotals(table, key, b).Effective(window) == Used(table, key, window, b.Of(window).start)
  {
    SumSplit(table, WindowQuery(key, window, b, ACTIVE), {ACTIVE}, {CONSUMED});
    assert {ACTIVE} + {CONSUMED} == COUNTED;
    assert TableTotals(table, key, b).Consumed(window) == Sum(table, WindowQuery(key, window, b, CONSUMED));
    assert TableTotals(table, key, b).Reserved(window) == Sum(table, WindowQuery(key, window, b, ACTIVE));
  }

  // ------------------------------------------------------------------------- enforcement

  function LimitOf(policy: Option<AssetLimitPolicy>, window: LimitWindow): Option<nat> {
    match policy
    case Some(p) => p.Limit(window)
    case None => None
  }

  function ClampToZero(value: int): nat {
    if value > 0 then value else 0
  }

  predicate Exceeds(amount: nat, policy: Option<AssetLimitPolicy>, usage: UsageTotals, window: LimitWindow) {
    match LimitOf(policy, window)
    case Some(limit) => usage.Effective(window) + amount > limit
    case None => false
  }

  /** The first window, in the order day, week, month, whose limit the amount would exceed. */
  function EvaluateLimitExceedance(key: LimitKey, amount: nat, policy: Option<AssetLimitPolicy>,
                                   usage: UsageTotals, b: Boundaries): Option<LimitDetail>
  {
    if Exceeds(amount, policy, usage, Daily) then Some(Detail(key, amount, policy, usage, b, Daily))
    else if Exceeds(amount, policy, usage, Weekly) then Some(Detail(key, amount, policy, usage, b, Weekly))
    else if Exceeds(amount, policy, usage, Monthly) then Some(Detail(key, amount, policy, usage, b, Monthly))
    else None
  }

  function Detail(key: LimitKey, amount: nat, policy: Option<AssetLimitPolicy>, usage: UsageTotals,
                  b: Boundaries, window: LimitWindow): LimitDetail
    requires LimitOf(policy, window).Some?
  {
    var limit := LimitOf(policy, window).value;
    LimitDetail(key, window, limit, usage.Effective(window), amount,
                ClampToZero(limit - usage.Effective(window)), b.Of(window).resetsAt)
  }

  // ---------------------------------------------------------------------- the owner's view

  datatype WindowUsage = WindowUsage(
    window: LimitWindow, limitAmount: Option<nat>, consumedAmount: nat, reservedAmount: nat,
    effectiveUsedAmount: nat, remainingAmount: Option<nat>, resetsAt: Instant)

  function BuildWindowUsage(window: LimitWindow, limit: Option<nat>, consumed: nat, reserved: nat,
                            resetsAt: Instant): WindowUsage
  {
    var effective := consumed + reserved;
    WindowUsage(window, limit, consumed, reserved, effective,
                match limit { case Some(l) => Some(ClampToZero(l - effective)) case None => None }, resetsAt)
  }

  function OwnerView(policy: Option<AssetLimitPolicy>, usage: UsageTotals, b: Boundaries, window: LimitWindow): WindowUsage {
    BuildWindowUsage(window, LimitOf(policy, window), usage.Consumed(window), usage.Reserved(window), b.Of(window).resetsAt)
  }

  predicate RoomFor(amount: nat, view: WindowUsage) {
    match view.remainingAmount
    case Some(remaining) => amount <= remaining
    case None => true
  }

  predicate Before(a: LimitWindow, b: LimitWindow) {
    (a == Daily && b != Daily) || (a == Weekly && b == Monthly)
  }

  /** What the owner is shown decides what an agent may send: a positive amount is admitted
      exactly when every window shows room for it. A rejection repeats the figures of the
      first window without room. A limit lowered below its usage is no exception. */
  lemma OwnerViewEqualsEnforcement(key: LimitKey, amount: nat, policy: Option<AssetLimitPolicy>,
                                   usage: UsageTotals, b: Boundaries)
    requires amount > 0
    ensures var verdict := EvaluateLimitExceedance(key, amount, policy, usage, b);
            && (verdict.None? <==> forall window :: RoomFor(amount, OwnerView(policy, usage, b, window)))
            && (verdict.Some? ==>
                  var detail := verdict.value;
                  var view := OwnerView(policy, usage, b, detail.window);
                  && !RoomFor(amount, view)
                  && (forall earlier | Before(earlier, detail.window) :: RoomFor(amount, OwnerView(policy, usage, b, earlier)))
                  && view.limitAmount == Some(detail.limitAmount)
                  && view.effectiveUsedAmount == detail.usedAmount
                  && view.remainingAmount == Some(detail.remainingAmount)
                  && detail.requestedAmount == amount > detail.remainingAmount
                  && view.resetsAt == detail.resetsAt)
  {
    forall window: LimitWindow
      ensures Exceeds(amount, policy, usage, window) <==> !RoomFor(amount, OwnerView(policy, usage, b, window))
    {
    }
  }

  // --------------------------------------------------------------------- windows and time

  /** All three starts of the row come from one instant's windows. */
  predicate Stamped(r: AssetLimitReservation, b: Boundaries) {
    forall window: LimitWindow :: r.WindowStart(window) == b.Of(window).start
  }

  ghost function UsedAt(zone: Zone, table: ReservationTable, key: LimitKey, window: LimitWindow, now: Instant): nat {
    Used(table, key, window, GetAssetLimitWindowBoundaries(zone, now).Of(window).start)
  }

  /** A day lies in one week and one month, so usage nests. */
  lemma NestedUsage(zone: Zone, table: ReservationTable, key: LimitKey, now: Instant)
    requires ValidZone(zone)
    requires forall id | id in table :: exists t :: Stamped(table[id], GetAssetLimitWindowBoundaries(zone, t))
    ensures UsedAt(zone, table, key, Daily, now) <= UsedAt(zone, table, key, Weekly, now)
    ensures UsedAt(zone, table, key, Daily, now) <= UsedAt(zone, table, key, Monthly, now)
  {
    hide GetAssetLimitWindowBoundaries, ValidZone;
    var b := GetAssetLimitWindowBoundaries(zone, now);
    var daily := Query(key, Daily, b.daily.start, COUNTED);
    var weekly := Query(key, Weekly, b.weekly.start, COUNTED);
    var monthly := Query(key, Monthly, b.monthly.start, COUNTED);
    forall id | id in table
      ensures Weight(table[id], daily) <= Weight(table[id], weekly)
      ensures Weight(table[id], daily) <= Weight(table[id], monthly)
    {
      var t :| Stamped(table[id], GetAssetLimitWindowBoundaries(zone, t));
      assert table[id].WindowStart(Daily) == GetAssetLimitWindowBoundaries(zone, t).Of(Daily).start;
      assert table[id].WindowStart(Weekly) == GetAssetLimitWindowBoundaries(zone, t).Of(Weekly).start;
      assert table[id].WindowStart(Monthly) == GetAssetLimitWindowBoundaries(zone, t).Of(Monthly).start;
      if GetAssetLimitWindowBoundaries(zone, t).daily.start == b.daily.start {
        DayInsideWeekAndMonth(zone, t, now);
      }
    }
    SumMonotone(table, daily, weekly);
    SumMonotone(table, daily, monthly);
  }
}
