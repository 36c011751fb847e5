/**
The proleptic Gregorian calendar and instants in a zone with a fixed offset. Instants are nanoseconds since
1970-01-01 00:00 UTC; a day is numbered by its distance from 1970-01-01. This is the part of Go's time package
that schedules, periods and dates rely on.
*/
module Calendar {
  type Instant = int
  type Zone = int   // nanoseconds east of UTC
  type Day = int

  const MINUTE: int := 60_000_000_000
  const DAY: int := 1440 * MINUTE

  datatype Date = Date(year: int, month: int, day: int)

  predicate Leap(y: int) {
    y % 4 == 0 && (y % 100 != 0 || y % 400 == 0)
  }

  /** January is month 0 here; `MonthIndex` counts months from January of year 0. */
  function MonthLength(y: int, m: nat): (n: int)
    requires m < 12
    ensures 28 <= n <= 31
  {
    if m == 1 then (if Leap(y) then 29 else 28)
    else if m in {3, 5, 8, 10} then 30
    else 31
  }

  /** The day number of 1 January. */
  function YearStart(y: int): Day {
    365 * y + (y + 3) / 4 - (y + 99) / 100 + (y + 399) / 400 - 719528
  }

  function DaysBeforeMonth(y: int, m: nat): int
    requires m <= 12
  {
    if m == 0 then 0 else DaysBeforeMonth(y, m - 1) + MonthLength(y, m - 1)
  }

  /** The first day of the month with this index. */
  function MonthStart(i: int): Day {
    YearStart(i / 12) + DaysBeforeMonth(i / 12, i % 12)
  }

  lemma YearLength(y: int)
    ensures YearStart(y + 1) == YearStart(y) + DaysBeforeMonth(y, 12)
    ensures DaysBeforeMonth(y, 12) == if Leap(y) then 366 else 365
  {
    assert (y + 4) / 4 - (y + 3) / 4 == if y % 4 == 0 then 1 else 0;
    assert (y + 100) / 100 - (y + 99) / 100 == if y % 100 == 0 then 1 else 0;
    assert (y + 400) / 400 - (y + 399) / 400 == if y % 400 == 0 then 1 else 0;
    TwelveMonths(y);
  }

  lemma TwelveMonths(y: int)
    ensures DaysBeforeMonth(y, 12) == if Leap(y) then 366 else 365
  {
    assert DaysBeforeMonth(y, 2) == DaysBeforeMonth(y, 1) + MonthLength(y, 1) == 31 + MonthLength(y, 1);
    assert DaysBeforeMonth(y, 4) == DaysBeforeMonth(y, 3) + 30 == DaysBeforeMonth(y, 2) + 61;
    assert DaysBeforeMonth(y, 6) == DaysBeforeMonth(y, 5) + 30 == DaysBeforeMonth(y, 4) + 61;
    assert DaysBeforeMonth(y, 8) == DaysBeforeMonth(y, 7) + 31 == DaysBeforeMonth(y, 6) + 62;
    assert DaysBeforeMonth(y, 10) == DaysBeforeMonth(y, 9) + 31 == DaysBeforeMonth(y, 8) + 61;
    assert DaysBeforeMonth(y, 12) == DaysBeforeMonth(y, 11) + 31 == DaysBeforeMonth(y, 10) + 61;
  }

  /** Months follow one another without a gap. */
  lemma MonthFollows(i: int)
    ensures MonthStart(i + 1) == MonthStart(i) + MonthLength(i / 12, i % 12)
  {
    var y, m := i / 12, i % 12;
    if m == 11 {
      assert (i + 1) / 12 == y + 1 && (i + 1) % 12 == 0;
      YearLength(y);
    } else {
      assert (i + 1) / 12 == y && (i + 1) % 12 == m + 1;
    }
  }

  lemma {:induction false} MonthsIncrease(i: int, j: int)
    requires i < j
    ensures MonthStart(i) + 28 <= MonthStart(j)
    decreases j - i
  {
    MonthFollows(i);
    if i + 1 < j {
      MonthsIncrease(i + 1, j);
    }
  }

  function DaysAway(n: Day, i: int): nat {
    if n < MonthStart(i) then MonthStart(i) - n else if n >= MonthStart(i + 1) then n - MonthStart(i + 1) + 1 else 0
  }

  lemma WalkGetsCloser(n: Day, i: int)
    ensures n < MonthStart(i) ==> DaysAway(n, i - 1) < DaysAway(n, i)
    ensures n >= MonthStart(i + 1) ==> DaysAway(n, i + 1) < DaysAway(n, i)
  {
    hide MonthStart;
    MonthsIncrease(i - 1, i);
    MonthsIncrease(i, i + 1);
    MonthsIncrease(i + 1, i + 2);
    assert i - 1 + 1 == i && i + 1 + 1 == i + 2;
  }

  /** The month a day belongs to, found by walking from a guess. */
  function MonthFrom(n: Day, i: int): (r: int)
    ensures MonthStart(r) <= n < MonthStart(r + 1)
    decreases DaysAway(n, i)
  {
    hide MonthStart, DaysAway;
    WalkGetsCloser(n, i);
    if n < MonthStart(i) then MonthFrom(n, i - 1)
    else if n >= MonthStart(i + 1) then MonthFrom(n, i + 1)
    else i
  }

  function MonthIndex(n: Day): (r: int)
    ensures MonthStart(r) <= n < MonthStart(r + 1)
  {
    hide MonthStart;
    MonthFrom(n, 12 * 1970)
  }

  lemma MonthUnique(n: Day, i: int)
    requires MonthStart(i) <= n < MonthStart(i + 1)
    ensures MonthIndex(n) == i
  {
    hide MonthStart;
    var r := MonthIndex(n);
    if r < i {
      if r + 1 < i { MonthsIncrease(r + 1, i); }
    } else if i < r {
      if i + 1 < r { MonthsIncrease(i + 1, r); }
    }
  }

  predicate ValidDate(d: Date) {
    1 <= d.month <= 12 && 1 <= d.day <= MonthLength(d.year, d.month - 1)
  }

  /** time.Date: months and days outside their range carry over. */
  function DayNumber(year: int, month: int, day: int): Day {
    MonthStart(12 * year + month - 1) + day - 1
  }

  /** Time.Date. */
  function CivilDate(n: Day): (d: Date)
    ensures ValidDate(d) && DayNumber(d.year, d.month, d.day) == n
  {
    hide MonthStart, MonthIndex;
    var i := MonthIndex(n);
    MonthFollows(i);
    assert 12 * (i / 12) + i % 12 == i;
    Date(i / 12, i % 12 + 1, n - MonthStart(i) + 1)
  }

  /** Days and valid dates correspond one to one. */
  lemma DateRoundTrip(d: Date)
    requires ValidDate(d)
    ensures CivilDate(DayNumber(d.year, d.month, d.day)) == d
  {
    var i := 12 * d.year + d.month - 1;
    assert i / 12 == d.year && i % 12 == d.month - 1;
    MonthFollows(i);
    MonthUnique(DayNumber(d.year, d.month, d.day), i);
  }

  /** Day 0 is 1 January 1970. */
  lemma Epoch()
    ensures DayNumber(1970, 1, 1) == 0 && CivilDate(0) == Date(1970, 1, 1)
  {
    assert 12 * 1970 == 23640 && 23640 / 12 == 1970 && 23640 % 12 == 0;
    assert DayNumber(1970, 1, 1) == 0;
    DateRoundTrip(Date(1970, 1, 1));
  }

  /** The lengths of the months, written out. */
  lemma LengthOfMonth(year: int, month: int)
    requires 1 <= month <= 12
    ensures MonthLength(year, month - 1)
            == if month in {4, 6, 9, 11} then 30
               else if month != 2 then 31
               else if year % 4 != 0 || (year % 100 == 0 && year % 400 != 0) then 28 else 29
  {
  }

  lemma DayFollows(d: Date, next: Date)
    requires ValidDate(d)
    requires next == if d.day < MonthLength(d.year, d.month - 1) then Date(d.year, d.month, d.day + 1)
                     else if d.month < 12 then Date(d.year, d.month + 1, 1)
                     else Date(d.year + 1, 1, 1)
    ensures ValidDate(next) && DayNumber(next.year, next.month, next.day) == DayNumber(d.year, d.month, d.day) + 1
  {
    hide MonthStart, Leap;
    var i := 12 * d.year + d.month - 1;
    assert i / 12 == d.year && i % 12 == d.month - 1;
    MonthFollows(i);
    if d.day == MonthLength(d.year, d.month - 1) {
      assert 12 * next.year + next.month - 1 == i + 1;
    }
  }

  /** The day after a date, by the lengths of the months and the leap rule. With the epoch this fixes the number of
      every date. */
  lemma Tomorrow(n: Day)
    ensures var d := CivilDate(n);
            var common := d.year % 4 != 0 || (d.year % 100 == 0 && d.year % 400 != 0);
            var last := if d.month in {4, 6, 9, 11} then 30 else if d.month != 2 then 31 else if common then 28 else 29;
            CivilDate(n + 1) == if d.day < last then Date(d.year, d.month, d.day + 1)
                                else if d.month < 12 then Date(d.year, d.month + 1, 1)
                                else Date(d.year + 1, 1, 1)
  {
    hide MonthStart, CivilDate, DayNumber, MonthLength;
    var d := CivilDate(n);
    LengthOfMonth(d.year, d.month);
    var next := if d.day < MonthLength(d.year, d.month - 1) then Date(d.year, d.month, d.day + 1)
                else if d.month < 12 then Date(d.year, d.month + 1, 1)
                else Date(d.year + 1, 1, 1);
    DayFollows(d, next);
    DateRoundTrip(next);
  }

  /** A date that is carried over comes back as a different date: the test by which parsers reject 31/02. */
  lemma InvalidDateMoves(d: Date)
    ensures CivilDate(DayNumber(d.year, d.month, d.day)) == d <==> ValidDate(d)
  {
    if ValidDate(d) { DateRoundTrip(d); }
  }

  // ---------------------------------------------------------------- instants

  /** Sunday is 0; 1 January 1970 was a Thursday. */
  function Weekday(n: Day): nat {
    (n + 4) % 7
  }

  function LocalDay(t: Instant, zone: Zone): Day {
    (t + zone) / DAY
  }

  /** time.Date at a minute of a local day. */
  function At(n: Day, minute: int, zone: Zone): Instant {
    n * DAY + minute * MINUTE - zone
  }

  function Midnight(n: Day, zone: Zone): Instant {
    At(n, 0, zone)
  }

  lemma LocalDayBounds(t: Instant, zone: Zone)
    ensures Midnight(LocalDay(t, zone), zone) <= t < Midnight(LocalDay(t, zone) + 1, zone)
  {
  }

  lemma LocalDayOfAt(n: Day, minute: int, zone: Zone)
    requires 0 <= minute < 1440
    ensures LocalDay(At(n, minute, zone), zone) == n
  {
    assert (n * DAY + minute * MINUTE) / DAY == n;
  }

  /** The epoch was a Thursday, weekdays take turns, and a clock east of Greenwich is ahead: midnight comes earlier
      there by the offset, and a day has 86400 seconds. */
  lemma ClockAndWeek(n: Day, minute: int, zone: Zone)
    ensures Weekday(0) == 4 && Weekday(n + 1) == (if Weekday(n) == 6 then 0 else Weekday(n) + 1)
    ensures Midnight(0, zone) == -zone && Midnight(n + 1, zone) == Midnight(n, zone) + 86_400_000_000_000
    ensures At(n, minute, zone) == Midnight(n, zone) + minute * 60_000_000_000
    ensures forall t :: LocalDay(t, zone) == n <==> Midnight(n, zone) <= t < Midnight(n + 1, zone)
  {
    forall t ensures LocalDay(t, zone) == n <==> Midnight(n, zone) <= t < Midnight(n + 1, zone) {
      LocalDayBounds(t, zone);
    }
  }

  function TimeOfDay(t: Instant, zone: Zone): int {
    (t + zone) % DAY
  }

  /** Time.AddDate without years: the date moves, the wall clock stays. */
  function AddDate(t: Instant, months: int, days: int, zone: Zone): Instant {
    var d := CivilDate(LocalDay(t, zone));
    DayNumber(d.year, d.month + months, d.day + days) * DAY + TimeOfDay(t, zone) - zone
  }

  lemma AddDays(t: Instant, days: int, zone: Zone)
    ensures AddDate(t, 0, days, zone) == t + days * DAY
  {
    hide MonthStart, ValidDate;
    var n := LocalDay(t, zone);
    var d := CivilDate(n);
    assert DayNumber(d.year, d.month, d.day + days) == n + days;
    assert n * DAY + TimeOfDay(t, zone) == t + zone;
  }

  /** From the first of a month AddDate reaches the first of any other, with no day to carry over. */
  lemma AddMonths(i: int, minute: int, months: int, zone: Zone)
    requires 0 <= minute < 1440
    ensures AddDate(At(MonthStart(i), minute, zone), months, 0, zone) == At(MonthStart(i + months), minute, zone)
  {
    hide MonthStart, ValidDate, MonthIndex;
    var t := At(MonthStart(i), minute, zone);
    LocalDayOfAt(MonthStart(i), minute, zone);
    MonthsIncrease(i, i + 1);
    MonthUnique(MonthStart(i), i);
    var d := CivilDate(LocalDay(t, zone));
    assert d == Date(i / 12, i % 12 + 1, 1);
    assert 12 * d.year + (d.month + months) - 1 == i + months;
    assert (MonthStart(i) * DAY + minute * MINUTE) % DAY == minute * MINUTE;
  }
}
