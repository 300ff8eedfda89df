/** The local calendar as the `Date` object sees it. Days are numbered from 1 January 1970 and
    months from January 1970, so `MakeDay` of section 21.4.1 of ECMA-262, which lets a month or
    a date outside its range carry into its neighbours, is a lookup in the month starts. */
module Calendar {

  predicate IsLeap(year: int) {
    year % 4 == 0 && (year % 100 != 0 || year % 400 == 0)
  }

  /** Days in a month, counted from January 1970. */
  function DaysInMonth(index: int): int {
    var month := index % 12;
    if month == 1 then (if IsLeap(1970 + index / 12) then 29 else 28)
    else if month == 3 || month == 5 || month == 8 || month == 10 then 30
    else 31
  }

  /** The day number on which a month starts. */
  function MonthStart(index: int): int
    decreases if index < 0 then -index else index
  {
    if index == 0 then 0
    else if index > 0 then MonthStart(index - 1) + DaysInMonth(index - 1)
    else MonthStart(index + 1) - DaysInMonth(index)
  }

  /** The day number of a year, a month (0 is January) and a date, none of which need be in
      range. */
  function MakeDay(year: int, month: int, date: int): int {
    MonthStart(12 * (year - 1970) + month) + date - 1
  }

  function SearchMonth(day: int, index: int): (r: int)
    ensures MonthStart(r) <= day < MonthStart(r + 1)
    decreases day < MonthStart(index), if day < MonthStart(index) then MonthStart(index) - day else day - MonthStart(index)
  {
    if day < MonthStart(index) then SearchMonth(day, index - 1)
    else if MonthStart(index + 1) <= day then SearchMonth(day, index + 1)
    else index
  }

  /** The month that holds a day. */
  function MonthIndexOf(day: int): (index: int)
    ensures MonthStart(index) <= day < MonthStart(index + 1)
  {
    SearchMonth(day, 0)
  }

  /** `getFullYear` */
  function YearOf(day: int): int {
    1970 + MonthIndexOf(day) / 12
  }

  /** `getMonth`: 0 is January. */
  function MonthOf(day: int): int {
    MonthIndexOf(day) % 12
  }

  /** `getDate`: 1 is the first of the month. */
  function DateOf(day: int): int {
    day - MonthStart(MonthIndexOf(day)) + 1
  }

  /** `getDay`: 0 is Sunday. Day 0 was a Thursday. */
  function WeekdayOf(day: int): (weekday: int)
    ensures 0 <= weekday < 7
  {
    (day + 4) % 7
  }

  /** Dates read off a day and put back, shifted by whole months or days, land where they
      should: `MakeDay` inverts the readers. */
  lemma MakeDayInvertsReaders(day: int, months: int, date: int)
    ensures MakeDay(YearOf(day), MonthOf(day) + months, date) == MonthStart(MonthIndexOf(day) + months) + date - 1
    ensures MakeDay(YearOf(day), MonthOf(day), DateOf(day) + date) == day + date
  {
  }

  lemma MonthStartStep(index: int)
    ensures MonthStart(index + 1) == MonthStart(index) + DaysInMonth(index)
  {
  }

  lemma {:induction false} MonthStartsIncrease(a: int, b: int)
    requires a < b
    ensures MonthStart(a) < MonthStart(b)
    decreases b - a
  {
    if a + 1 < b {
      MonthStartsIncrease(a + 1, b);
    }
  }

  /** A day lies in one month only. */
  lemma OneMonthHoldsADay(day: int, a: int, b: int)
    requires MonthStart(a) <= day < MonthStart(a + 1)
    requires MonthStart(b) <= day < MonthStart(b + 1)
    ensures a == b
  {
    if a + 1 < b { MonthStartsIncrease(a + 1, b); }
    if b + 1 < a { MonthStartsIncrease(b + 1, a); }
  }

  /** `DayFromYear` of section 21.4.1 of ECMA-262. */
  function DayFromYear(year: int): int {
    365 * (year - 1970) + (year - 1969) / 4 - (year - 1901) / 100 + (year - 1601) / 400
  }

  lemma YearLength(year: int)
    ensures DayFromYear(year + 1) - DayFromYear(year) == if IsLeap(year) then 366 else 365
  {
    hide IsLeap;
    LeapDays(year);
  }

  /** The three corrections of the closed form move together exactly at leap years. */
  lemma LeapDays(year: int)
    ensures ((year - 1968) / 4 - (year - 1969) / 4) - ((year - 1900) / 100 - (year - 1901) / 100)
            + ((year - 1600) / 400 - (year - 1601) / 400) == if IsLeap(year) then 1 else 0
  {
    EveryFourth(year);
    EveryHundredth(year);
    EveryFourHundredth(year);
    HundredsAreFours(year);
  }

  lemma EveryFourth(year: int)
    ensures (year - 1968) / 4 - (year - 1969) / 4 == if year % 4 == 0 then 1 else 0
  {
  }

  lemma EveryHundredth(year: int)
    ensures (year - 1900) / 100 - (year - 1901) / 100 == if year % 100 == 0 then 1 else 0
  {
  }

  lemma EveryFourHundredth(year: int)
    ensures (year - 1600) / 400 - (year - 1601) / 400 == if year % 400 == 0 then 1 else 0
  {
  }

  lemma HundredsAreFours(year: int)
    ensures year % 100 == 0 ==> year % 4 == 0
    ensures year % 400 == 0 ==> year % 100 == 0
  {
  }

  lemma TwelveMonths(year: int)
    ensures MonthStart(12 * (year - 1970) + 12) - MonthStart(12 * (year - 1970)) == if IsLeap(year) then 366 else 365
  {
    var january := 12 * (year - 1970);
    var i := 0;
    var days := 0;
    while i < 12
      invariant 0 <= i <= 12
      invariant days == MonthStart(january + i) - MonthStart(january)
      invariant days == if i == 0 then 0 else if i == 1 then 31
        else (if IsLeap(year) then 29 else 28) + [31, 62, 92, 123, 153, 184, 215, 245, 276, 306, 337][i - 2]
    {
      assert (january + i) % 12 == i && 1970 + (january + i) / 12 == year;
      days := days + DaysInMonth(january + i);
      i := i + 1;
    }
  }

  /** The month starts agree with the closed form of the standard at every year, before and
      after 1970. */
  lemma {:induction false} YearStartsAgree(year: int)
    ensures MonthStart(12 * (year - 1970)) == DayFromYear(year)
    decreases if year < 1970 then 1970 - year else year - 1970
  {
    if year > 1970 {
      YearStartsAgree(year - 1);
      TwelveMonths(year - 1);
      YearLength(year - 1);
    } else if year < 1970 {
      YearStartsAgree(year + 1);
      TwelveMonths(year);
      YearLength(year);
    }
  }

  /** And at every month, with the day within the year of section 21.4.1 of ECMA-262. */
  lemma {:induction false} MonthStartsAgree(year: int, month: nat)
    requires month < 12
    ensures MonthStart(12 * (year - 1970) + month)
         == DayFromYear(year) + [0, 31, 59, 90, 120, 151, 181, 212, 243, 273, 304, 334][month]
            + if month >= 2 && IsLeap(year) then 1 else 0
    decreases month
  {
    if month == 0 {
      YearStartsAgree(year);
    } else {
      MonthStartsAgree(year, month - 1);
      var before := 12 * (year - 1970) + month - 1;
      assert before % 12 == month - 1 && 1970 + before / 12 == year;
      MonthStartStep(before);
      hide MonthStart, DayFromYear, IsLeap;
    }
  }
}
