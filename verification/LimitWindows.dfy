/** The day, week and month windows a spending limit is counted over. */
module LimitWindows {
  import opened Domain
  import opened Calendar

  /** Local time: the day number an instant falls on, and the instant a day starts at. Days need
      not be equally long. */
  datatype Zone = Zone(dayOf: Instant -> int, midnight: int -> Instant)

  ghost predicate ValidZone(zone: Zone) {
    && (forall day :: zone.midnight(day) < zone.midnight(day + 1))
    && (forall now :: zone.midnight(zone.dayOf(now)) <= now < zone.midnight(zone.dayOf(now) + 1))
  }

  /** Universal time, whose days are equally long. */
  const UTC := Zone(now => now / 86_400_000, day => day * 86_400_000)

  lemma UtcIsValid()
    ensures ValidZone(UTC)
    ensures UTC.midnight(0) == 0 && forall day :: UTC.midnight(day + 1) == UTC.midnight(day) + 24 * 60 * 60 * 1000
  {
    forall now: Instant ensures UTC.midnight(UTC.dayOf(now)) <= now < UTC.midnight(UTC.dayOf(now) + 1) {
      assert now == now / 86_400_000 * 86_400_000 + now % 86_400_000;
    }
  }

  datatype Boundary = Boundary(start: Instant, resetsAt: Instant)

  datatype Boundaries = Boundaries(daily: Boundary, weekly: Boundary, monthly: Boundary)
  {
    function Of(window: LimitWindow): Boundary {
      match window
      case Daily => daily
      case Weekly => weekly
      case Monthly => monthly
    }
  }

  /** `new Date(year, month, date)` for the date of `day` shifted by `shift` days. */
  function ShiftedDate(day: int, shift: int): int {
    MakeDay(YearOf(day), MonthOf(day), DateOf(day) + shift)
  }

  function MondayOffset(weekday: int): int {
    if weekday == 0 then -6 else 1 - weekday
  }

  function GetAssetLimitWindowBoundaries(zone: Zone, now: Instant): Boundaries {
    var today := zone.dayOf(now);
    var dailyStart := zone.midnight(ShiftedDate(today, 0));
    var startDay := zone.dayOf(dailyStart);
    var weeklyStart := zone.midnight(ShiftedDate(startDay, MondayOffset(WeekdayOf(startDay))));
    Boundaries(
      Boundary(dailyStart, zone.midnight(ShiftedDate(today, 1))),
      Boundary(weeklyStart, zone.midnight(ShiftedDate(zone.dayOf(weeklyStart), 7))),
      Boundary(zone.midnight(MakeDay(YearOf(today), MonthOf(today), 1)),
               zone.midnight(MakeDay(YearOf(today), MonthOf(today) + 1, 1))))
  }

  lemma {:induction false} MidnightsIncrease(zone: Zone, a: int, b: int)
    requires ValidZone(zone) && a < b
    ensures zone.midnight(a) < zone.midnight(b)
    decreases b - a
  {
    if a + 1 < b { MidnightsIncrease(zone, a + 1, b); }
  }

  lemma MidnightIsOnItsDay(zone: Zone, day: int)
    requires ValidZone(zone)
    ensures zone.dayOf(zone.midnight(day)) == day
  {
    var found := zone.dayOf(zone.midnight(day));
    assert zone.midnight(found) <= zone.midnight(day) < zone.midnight(found + 1);
    hide ValidZone;
    if day < found { MidnightsIncrease(zone, day, found); }
    if found + 1 < day { MidnightsIncrease(zone, found + 1, day); }
  }

  /** What the boundaries are, in day numbers. */
  lemma BoundariesInDays(zone: Zone, now: Instant)
    requires ValidZone(zone)
    ensures var b := GetAssetLimitWindowBoundaries(zone, now);
            var today := zone.dayOf(now);
            var month := MonthIndexOf(today);
            && b.daily == Boundary(zone.midnight(today), zone.midnight(today + 1))
            && b.weekly == Boundary(zone.midnight(today - (today + 3) % 7), zone.midnight(today - (today + 3) % 7 + 7))
            && b.monthly == Boundary(zone.midnight(MonthStart(month)), zone.midnight(MonthStart(month + 1)))
  {
    hide MonthStart, MonthIndexOf, ValidZone;
    var today := zone.dayOf(now);
    var offset := MondayOffset(WeekdayOf(today));
    MidnightIsOnItsDay(zone, today);
    MidnightIsOnItsDay(zone, today + offset);
    MakeDayInvertsReaders(today, 0, 0);
    MakeDayInvertsReaders(today, 1, 1);
    MakeDayInvertsReaders(today, 0, 1);
    MakeDayInvertsReaders(today, 0, offset);
    MakeDayInvertsReaders(today + offset, 0, 7);
    MondayBehind(today);
  }

  lemma MondayBehind(day: int)
    ensures MondayOffset(WeekdayOf(day)) == -((day + 3) % 7)
  {
  }

  lemma DayHolds(zone: Zone, now: Instant, from: int, to: int)
    requires ValidZone(zone)
    ensures from <= zone.dayOf(now) < to <==> zone.midnight(from) <= now < zone.midnight(to)
  {
    var today := zone.dayOf(now);
    assert zone.midnight(today) <= now < zone.midnight(today + 1);
    hide ValidZone;
    if from < today { MidnightsIncrease(zone, from, today); }
    if today + 1 < from { MidnightsIncrease(zone, today + 1, from); }
    if today + 1 < to { MidnightsIncrease(zone, today + 1, to); }
    if to < today { MidnightsIncrease(zone, to, today); }
  }

  /** A window holds the instant it was taken from. */
  lemma WindowHoldsNow(zone: Zone, now: Instant, window: LimitWindow)
    requires ValidZone(zone)
    ensures var b := GetAssetLimitWindowBoundaries(zone, now).Of(window); b.start <= now < b.resetsAt
  {
    hide GetAssetLimitWindowBoundaries, MonthIndexOf, MonthStart, ValidZone;
    BoundariesInDays(zone, now);
    var today := zone.dayOf(now);
    DayHolds(zone, now, today, today + 1);
    DayHolds(zone, now, today - (today + 3) % 7, today - (today + 3) % 7 + 7);
    DayHolds(zone, now, MonthStart(MonthIndexOf(today)), MonthStart(MonthIndexOf(today) + 1));
  }

  lemma DaysShareWindow(zone: Zone, t: Instant, now: Instant)
    requires ValidZone(zone)
    ensures var b := GetAssetLimitWindowBoundaries(zone, now).daily;
            b.start <= t < b.resetsAt ==> GetAssetLimitWindowBoundaries(zone, t).daily == b
  {
    hide GetAssetLimitWindowBoundaries, MonthIndexOf, MonthStart, ValidZone;
    BoundariesInDays(zone, now);
    BoundariesInDays(zone, t);
    DayHolds(zone, t, zone.dayOf(now), zone.dayOf(now) + 1);
  }

  lemma WeeksShareWindow(zone: Zone, t: Instant, now: Instant)
    requires ValidZone(zone)
    ensures var b := GetAssetLimitWindowBoundaries(zone, now).weekly;
            b.start <= t < b.resetsAt ==> GetAssetLimitWindowBoundaries(zone, t).weekly == b
  {
    hide GetAssetLimitWindowBoundaries, MonthIndexOf, MonthStart, ValidZone;
    BoundariesInDays(zone, now);
    BoundariesInDays(zone, t);
    var monday := zone.dayOf(now) - (zone.dayOf(now) + 3) % 7;
    DayHolds(zone, t, monday, monday + 7);
    SameWeek(zone.dayOf(now), zone.dayOf(t));
  }

  lemma SameWeek(a: int, b: int)
    ensures a - (a + 3) % 7 <= b < a - (a + 3) % 7 + 7 ==> b - (b + 3) % 7 == a - (a + 3) % 7
  {
  }

  lemma MonthsShareWindow(zone: Zone, t: Instant, now: Instant)
    requires ValidZone(zone)
    ensures var b := GetAssetLimitWindowBoundaries(zone, now).monthly;
            b.start <= t < b.resetsAt ==> GetAssetLimitWindowBoundaries(zone, t).monthly == b
  {
    hide GetAssetLimitWindowBoundaries, MonthIndexOf, MonthStart, ValidZone;
    BoundariesInDays(zone, now);
    BoundariesInDays(zone, t);
    var month := MonthIndexOf(zone.dayOf(now));
    DayHolds(zone, t, MonthStart(month), MonthStart(month + 1));
    if MonthStart(month) <= zone.dayOf(t) < MonthStart(month + 1) {
      OneMonthHoldsADay(zone.dayOf(t), month, MonthIndexOf(zone.dayOf(t)));
    }
  }

  lemma WindowsAreShared(zone: Zone, t: Instant, now: Instant, window: LimitWindow)
    requires ValidZone(zone)
    ensures var b := GetAssetLimitWindowBoundaries(zone, now).Of(window);
            b.start <= t < b.resetsAt ==> GetAssetLimitWindowBoundaries(zone, t).Of(window) == b
  {
    match window
    case Daily => DaysShareWindow(zone, t, now);
    case Weekly => WeeksShareWindow(zone, t, now);
    case Monthly => MonthsShareWindow(zone, t, now);
  }

  /** Two instants get the same window start exactly when they lie in the same window, and then
      the whole window is the same: the starts can serve as keys. */
  lemma SameKeyIffSameWindow(zone: Zone, t: Instant, now: Instant, window: LimitWindow)
    requires ValidZone(zone)
    ensures var b := GetAssetLimitWindowBoundaries(zone, now).Of(window);
            && (GetAssetLimitWindowBoundaries(zone, t).Of(window).start == b.start <==> b.start <= t < b.resetsAt)
            && (b.start <= t < b.resetsAt ==> GetAssetLimitWindowBoundaries(zone, t).Of(window) == b)
  {
    hide GetAssetLimitWindowBoundaries, MonthIndexOf, MonthStart, ValidZone;
    var b := GetAssetLimitWindowBoundaries(zone, now).Of(window);
    var c := GetAssetLimitWindowBoundaries(zone, t).Of(window);
    WindowHoldsNow(zone, now, window);
    WindowHoldsNow(zone, t, window);
    WindowsAreShared(zone, t, now, window);
    WindowsAreShared(zone, b.start, t, window);
    WindowsAreShared(zone, b.start, now, window);
  }

  /** One window's reset is the start of the next one, so the windows tile time. */
  lemma ResetStartsNextWindow(zone: Zone, now: Instant, window: LimitWindow)
    requires ValidZone(zone)
    ensures var b := GetAssetLimitWindowBoundaries(zone, now).Of(window);
            GetAssetLimitWindowBoundaries(zone, b.resetsAt).Of(window).start == b.resetsAt
  {
    hide GetAssetLimitWindowBoundaries, MonthIndexOf, MonthStart, ValidZone;
    var b := GetAssetLimitWindowBoundaries(zone, now).Of(window);
    var c := GetAssetLimitWindowBoundaries(zone, b.resetsAt).Of(window);
    WindowHoldsNow(zone, now, window);
    WindowHoldsNow(zone, b.resetsAt, window);
    if c.start < b.resetsAt {
      // the last instant of the old window would belong to the new one
      WindowsAreShared(zone, b.resetsAt - 1, now, window);
      WindowsAreShared(zone, b.resetsAt - 1, b.resetsAt, window);
      assert false;
    }
  }

  /** The window runs from the midnight of its first day over `days` local days, however long
      these are. */
  predicate LastsDays(zone: Zone, b: Boundary, days: int) {
    var first := zone.dayOf(b.start);
    b.start == zone.midnight(first) && b.resetsAt == zone.midnight(first + days)
  }

  /** Weeks start on Monday and last seven local days, days one. A month starts on its first, which
      is the day within the year that the table of the standard gives, and lasts as many days as
      that month has. */
  lemma WindowShapes(zone: Zone, now: Instant)
    requires ValidZone(zone)
    ensures var b := GetAssetLimitWindowBoundaries(zone, now);
            var today := zone.dayOf(now);
            var year, month := YearOf(today), MonthOf(today);
            var leap := if IsLeap(year) then 1 else 0;
            && LastsDays(zone, b.daily, 1)
            && LastsDays(zone, b.weekly, 7) && WeekdayOf(zone.dayOf(b.weekly.start)) == 1
            && 0 <= month < 12
            && LastsDays(zone, b.monthly, [31, 28 + leap, 31, 30, 31, 30, 31, 31, 30, 31, 30, 31][month])
            && DateOf(zone.dayOf(b.monthly.start)) == 1
            && zone.dayOf(b.monthly.start)
               == DayFromYear(year) + [0, 31, 59, 90, 120, 151, 181, 212, 243, 273, 304, 334][month] + if month >= 2 then leap else 0
  {
    hide GetAssetLimitWindowBoundaries, MonthIndexOf, MonthStart, ValidZone, DayFromYear;
    BoundariesInDays(zone, now);
    var today := zone.dayOf(now);
    var month := MonthIndexOf(today);
    MidnightIsOnItsDay(zone, today);
    MidnightIsOnItsDay(zone, today - (today + 3) % 7);
    MidnightIsOnItsDay(zone, MonthStart(month));
    MonthStartStep(month);
    MondayIsDayOne(today);
    FirstOfItsMonth(month);
    hide DateOf, WeekdayOf, LastsDays, IsLeap;
    assert 12 * (YearOf(today) - 1970) + MonthOf(today) == month;
    MonthStartsAgree(YearOf(today), MonthOf(today));
  }

  lemma FirstOfItsMonth(month: int)
    ensures DateOf(MonthStart(month)) == 1
  {
    MonthStartsIncrease(month, month + 1);
    hide MonthIndexOf, MonthStart;
    OneMonthHoldsADay(MonthStart(month), month, MonthIndexOf(MonthStart(month)));
  }

  lemma MondayIsDayOne(day: int)
    ensures WeekdayOf(day - (day + 3) % 7) == 1
  {
  }

  /** Two instants of one day are in one week and one month. */
  lemma DayInsideWeekAndMonth(zone: Zone, t: Instant, now: Instant)
    requires ValidZone(zone)
    requires GetAssetLimitWindowBoundaries(zone, t).daily.start == GetAssetLimitWindowBoundaries(zone, now).daily.start
    ensures GetAssetLimitWindowBoundaries(zone, t) == GetAssetLimitWindowBoundaries(zone, now)
  {
    hide GetAssetLimitWindowBoundaries, MonthIndexOf, MonthStart, ValidZone;
    BoundariesInDays(zone, t);
    BoundariesInDays(zone, now);
    MidnightIsOnItsDay(zone, zone.dayOf(t));
    MidnightIsOnItsDay(zone, zone.dayOf(now));
  }
}
