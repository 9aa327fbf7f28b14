/** The proleptic Gregorian calendar as Go's time package sees it.

    A civil month is one integer: 12 * year + (month - 1), so month carries and
    borrows are plain integer arithmetic.  A date is such a month and a day of it.
    Day numbers count from 1 January of year 0. */
module Calendar {

  const NANOS_PER_DAY: int := 86_400_000_000_000

  function Year(month: int): int { month / 12 }

  /** Leap rule of RFC 3339, appendix C. */
  predicate IsLeap(year: int) {
    year % 4 == 0 && (year % 100 != 0 || year % 400 == 0)
  }

  /** Days in a month of a year, as tabulated in section 5.7 of RFC 3339; January is 0. */
  function LengthIn(year: int, m: int): (n: int)
    ensures 28 <= n <= 31
  {
    if m == 1 then (if IsLeap(year) then 29 else 28)
    else if m == 3 || m == 5 || m == 8 || m == 10 then 30
    else 31
  }

  function Length(month: int): (n: int)
    ensures 28 <= n <= 31
  {
    LengthIn(Year(month), month % 12)
  }

  /** Day number of the first day of a month. */
  function MonthStart(month: int): int
    decreases if month >= 0 then month else -month
  {
    if month == 0 then 0
    else if month > 0 then MonthStart(month - 1) + Length(month - 1)
    else MonthStart(month + 1) - Length(month)
  }

  datatype Date = Date(month: int, day: int)

  predicate Valid(d: Date) { 1 <= d.day <= Length(d.month) }

  function DayNumber(d: Date): int { MonthStart(d.month) + d.day - 1 }

  /** time.Date(y, m, day) for any m and day: overflow carries into later months,
      day 0 is the last day of the month before. */
  function Normalise(month: int, day: int): (d: Date)
    ensures Valid(d) && DayNumber(d) == MonthStart(month) + day - 1
    decreases if day < 1 then 40 - day else if day <= Length(month) then 0 else day
  {
    if day < 1 then Normalise(month - 1, day + Length(month - 1))
    else if day <= Length(month) then Date(month, day)
    else Normalise(month + 1, day - Length(month))
  }

  // ---- day numbers and dates are in order-preserving correspondence ----

  lemma {:induction false} MonthSpan(a: int, b: int)
    requires a <= b
    ensures 28 * (b - a) <= MonthStart(b) - MonthStart(a) <= 31 * (b - a)
    decreases b - a
  {
    if a < b {
      MonthSpan(a, b - 1);
      assert MonthStart(b) == MonthStart(b - 1) + Length(b - 1);
    }
  }

  /** Later months have larger day numbers, whatever the days. */
  lemma MonthDecides(a: Date, b: Date)
    requires Valid(a) && Valid(b) && a.month < b.month
    ensures DayNumber(a) < DayNumber(b)
  {
    MonthSpan(a.month + 1, b.month);
  }

  /** A day number names one date: Normalise is the inverse of DayNumber. */
  lemma DateOfDayNumberIsUnique(a: Date, b: Date)
    requires Valid(a) && Valid(b)
    ensures DayNumber(a) == DayNumber(b) <==> a == b
    ensures DayNumber(a) <= DayNumber(b) <==> a.month < b.month || (a.month == b.month && a.day <= b.day)
  {
    if a.month < b.month {
      MonthDecides(a, b);
    } else if b.month < a.month {
      MonthDecides(b, a);
    }
  }

  /** Day 0 of the month after is the last day of the month. */
  lemma DayZero(month: int)
    ensures Normalise(month + 1, 0) == Date(month, Length(month))
  {
    DateOfDayNumberIsUnique(Normalise(month + 1, 0), Date(month, Length(month)));
  }

  // ---- years ----

  /** Days before 1 January of a year, in closed form. */
  function DaysBeforeYear(year: int): int {
    365 * year + (year + 3) / 4 - (year + 99) / 100 + (year + 399) / 400
  }

  predicate LeapFebruaryAhead(month: int) {
    if month % 12 <= 1 then IsLeap(Year(month)) else IsLeap(Year(month) + 1)
  }

  /** Twelve months on is 366 days exactly when a 29 February lies between. */
  lemma YearAhead(month: int)
    ensures MonthStart(month + 12) - MonthStart(month) == if LeapFebruaryAhead(month) then 366 else 365
  {
    JanuaryBefore(month);
    YearFrom(month - month % 12, month % 12);
  }

  lemma JanuaryBefore(month: int)
    ensures (month - month % 12) % 12 == 0 && Year(month - month % 12) == Year(month)
  {}

  lemma {:induction false} YearFrom(january: int, m: int)
    requires january % 12 == 0 && 0 <= m < 12
    ensures MonthStart(january + m + 12) - MonthStart(january + m)
      == if IsLeap(if m <= 1 then Year(january) else Year(january) + 1) then 366 else 365
    decreases m
  {
    if m == 0 {
      FromJanuary(january);
    } else {
      YearFrom(january, m - 1);
      SpanStep(january + m - 1);
      SameMonthNextYear(january, m - 1);
    }
  }

  lemma FromJanuary(month: int)
    requires month % 12 == 0
    ensures MonthStart(month + 12) - MonthStart(month) == if IsLeap(Year(month)) then 366 else 365
  {
    TwelveSteps(month);
    LengthAhead(month, 0);
    LengthAhead(month, 1); LengthAhead(month, 2); LengthAhead(month, 3); LengthAhead(month, 4);
    LengthAhead(month, 5); LengthAhead(month, 6); LengthAhead(month, 7); LengthAhead(month, 8);
    LengthAhead(month, 9); LengthAhead(month, 10); LengthAhead(month, 11);
  }

  /** The length of the year ahead changes only when February drops out of it. */
  lemma SpanStep(month: int)
    ensures MonthStart(month + 13) - MonthStart(month + 1)
      == MonthStart(month + 12) - MonthStart(month) + Length(month + 12) - Length(month)
  {
    MonthStep(month);
    MonthStep(month + 12);
  }

  lemma SameMonthNextYear(january: int, j: int)
    requires january % 12 == 0 && 0 <= j < 12
    ensures Length(january + j) == LengthIn(Year(january), j)
    ensures Length(january + j + 12) == LengthIn(Year(january) + 1, j)
  {
    LengthAhead(january, j);
    LengthAhead(january + 12, j);
  }

  lemma LengthAhead(month: int, j: int)
    requires month % 12 == 0 && 0 <= j < 12
    ensures Length(month + j) == LengthIn(Year(month), j)
  {}

  lemma MonthStep(month: int)
    ensures MonthStart(month + 1) == MonthStart(month) + Length(month)
  {}

  lemma TwelveSteps(m: int)
    ensures MonthStart(m + 12) == MonthStart(m)
      + Length(m) + Length(m + 1) + Length(m + 2) + Length(m + 3)
      + Length(m + 4) + Length(m + 5) + Length(m + 6) + Length(m + 7)
      + Length(m + 8) + Length(m + 9) + Length(m + 10) + Length(m + 11)
  {
    MonthStep(m); MonthStep(m + 1); MonthStep(m + 2); MonthStep(m + 3);
    MonthStep(m + 4); MonthStep(m + 5); MonthStep(m + 6); MonthStep(m + 7);
    MonthStep(m + 8); MonthStep(m + 9); MonthStep(m + 10); MonthStep(m + 11);
  }

  lemma FourthYearPassed(year: int)
    ensures (year + 4) / 4 - (year + 3) / 4 == if year % 4 == 0 then 1 else 0
  {}

  lemma CenturyPassed(year: int)
    ensures (year + 100) / 100 - (year + 99) / 100 == if year % 100 == 0 then 1 else 0
  {}

  lemma FourthCenturyPassed(year: int)
    ensures (year + 400) / 400 - (year + 399) / 400 == if year % 400 == 0 then 1 else 0
  {}

  lemma MultiplesNest(year: int)
    ensures year % 400 == 0 ==> year % 100 == 0
    ensures year % 100 == 0 ==> year % 4 == 0
  {}

  lemma LeapInClosedForm(year: int)
    ensures DaysBeforeYear(year + 1) - DaysBeforeYear(year) == if IsLeap(year) then 366 else 365
  {
    FourthYearPassed(year);
    CenturyPassed(year);
    FourthCenturyPassed(year);
    MultiplesNest(year);
  }

  lemma JanuaryToJanuary(year: int)
    ensures MonthStart(12 * (year + 1)) == MonthStart(12 * year) + if IsLeap(year) then 366 else 365
  {
    YearAhead(12 * year);
    assert 12 * year + 12 == 12 * (year + 1);
  }

  /** The difference between the two counts is the same for every year. */
  lemma YearStep(year: int)
    ensures MonthStart(12 * (year + 1)) - DaysBeforeYear(year + 1) == MonthStart(12 * year) - DaysBeforeYear(year)
  {
    JanuaryToJanuary(year);
    LeapInClosedForm(year);
  }

  /** The month table and the closed form for years agree, for every year. */
  lemma {:induction false} YearStart(year: int)
    ensures MonthStart(12 * year) == DaysBeforeYear(year)
    decreases if year >= 0 then year else -year
  {
    if year > 0 {
      YearStart(year - 1);
      YearStep(year - 1);
    } else if year < 0 {
      YearStart(year + 1);
      YearStep(year);
    }
  }

  /** Days of a year before its m-th month, in closed form; leap years are those the
      closed form for years gives 366 days. */
  function DaysBeforeMonth(year: int, m: int): int {
    if m <= 1 then 31 * m
    else 59 + (153 * (m - 2) + 2) / 5 + (DaysBeforeYear(year + 1) - DaysBeforeYear(year) - 365)
  }

  lemma NextMonthBefore(year: int, m: int)
    requires 0 <= m < 11
    ensures DaysBeforeMonth(year, m + 1) == DaysBeforeMonth(year, m) + LengthIn(year, m)
  {
    LeapInClosedForm(year);
  }

  lemma {:induction false} MonthsInYear(january: int, m: int)
    requires january % 12 == 0 && 0 <= m < 12
    ensures MonthStart(january + m) == MonthStart(january) + DaysBeforeMonth(Year(january), m)
    decreases m
  {
    if m > 0 {
      MonthsInYear(january, m - 1);
      MonthStep(january + m - 1);
      LengthAhead(january, m - 1);
      NextMonthBefore(Year(january), m - 1);
    }
  }

  /** Where every month starts and how long it is, without the table of lengths. */
  lemma MonthStartIs(month: int)
    ensures MonthStart(month) == DaysBeforeYear(Year(month)) + DaysBeforeMonth(Year(month), month % 12)
    ensures Length(month) == MonthStart(month + 1) - MonthStart(month)
  {
    var january := month - month % 12;
    JanuaryBefore(month);
    MonthsInYear(january, month % 12);
    assert january == 12 * Year(month);
    YearStart(Year(month));
    MonthStep(month);
  }

  // ---- instants ----

  /** A UTC time: a date and the nanoseconds since its midnight. */
  datatype Stamp = Stamp(date: Date, clock: int)

  predicate ValidStamp(t: Stamp) { Valid(t.date) && 0 <= t.clock < NANOS_PER_DAY }

  function Instant(t: Stamp): int { DayNumber(t.date) * NANOS_PER_DAY + t.clock }

  predicate Before(a: Stamp, b: Stamp) { Instant(a) < Instant(b) }

  /** t.AddDate(0, months, days): the clock is kept, overflow normalised. */
  function AddDate(t: Stamp, months: int, days: int): (r: Stamp)
    requires ValidStamp(t)
    ensures ValidStamp(r) && r.clock == t.clock
    ensures DayNumber(r.date) == MonthStart(t.date.month + months) + t.date.day + days - 1
  {
    Stamp(Normalise(t.date.month + months, t.date.day + days), t.clock)
  }

  predicate Earlier(a: Stamp, b: Stamp) {
    || a.date.month < b.date.month
    || (a.date.month == b.date.month && a.date.day < b.date.day)
    || (a.date == b.date && a.clock < b.clock)
  }

  lemma DayDecides(a: Stamp, b: Stamp)
    requires ValidStamp(a) && ValidStamp(b) && DayNumber(a.date) < DayNumber(b.date)
    ensures Instant(a) < Instant(b)
  {
    assert (DayNumber(a.date) + 1) * NANOS_PER_DAY <= DayNumber(b.date) * NANOS_PER_DAY;
  }

  /** Instants order times as dates and clocks do, a clock that is only later counts, and
      a day is twenty-four hours. */
  lemma InstantsOrderTimes(a: Stamp, b: Stamp)
    requires ValidStamp(a) && ValidStamp(b)
    ensures Before(a, b) <==> Earlier(a, b)
    ensures Instant(a) == Instant(b) <==> a == b
    ensures Instant(AddDate(a, 0, 1)) == Instant(a) + 24 * 60 * 60 * 1_000_000_000
  {
    DateOfDayNumberIsUnique(a.date, b.date);
    if DayNumber(a.date) < DayNumber(b.date) {
      DayDecides(a, b);
    } else if DayNumber(b.date) < DayNumber(a.date) {
      DayDecides(b, a);
    }
  }
}
