/** Reporting periods: half-open intervals between local midnights. */
module Periods {
  import opened Calendar

  datatype Period = Period(start: Instant, end: Instant)

  predicate Contains(p: Period, t: Instant) {
    p.start <= t < p.end
  }

  function LocalMidnight(t: Instant, zone: Zone): Instant {
    var d := CivilDate(LocalDay(t, zone));
    Midnight(DayNumber(d.year, d.month, d.day), zone)
  }

  function WeekStartLocal(t: Instant, zone: Zone): Instant {
    var start := LocalMidnight(t, zone);
    var back := (Weekday(LocalDay(start, zone)) + 6) % 7;
    AddDate(start, 0, -back, zone)
  }

  function MonthStartLocal(t: Instant, zone: Zone): Instant {
    var d := CivilDate(LocalDay(t, zone));
    Midnight(DayNumber(d.year, d.month, 1), zone)
  }

  function Today(now: Instant, zone: Zone): Period {
    var start := LocalMidnight(now, zone);
    Period(start, AddDate(start, 0, 1, zone))
  }

  function Yesterday(now: Instant, zone: Zone): Period {
    var end := LocalMidnight(now, zone);
    Period(AddDate(end, 0, -1, zone), end)
  }

  function ClipCurrentEnd(fullEnd: Instant, now: Instant, zone: Zone): Instant {
    var tomorrow := AddDate(LocalMidnight(now, zone), 0, 1, zone);
    if fullEnd > tomorrow then tomorrow else fullEnd
  }

  function ThisWeek(now: Instant, zone: Zone): Period {
    var start := WeekStartLocal(now, zone);
    Period(start, ClipCurrentEnd(AddDate(start, 0, 7, zone), now, zone))
  }

  function LastWeek(now: Instant, zone: Zone): Period {
    var start := AddDate(WeekStartLocal(now, zone), 0, -7, zone);
    Period(start, AddDate(start, 0, 7, zone))
  }

  function ThisMonth(now: Instant, zone: Zone): Period {
    var start := MonthStartLocal(now, zone);
    Period(start, ClipCurrentEnd(AddDate(start, 1, 0, zone), now, zone))
  }

  function LastMonth(now: Instant, zone: Zone): Period {
    var start := AddDate(MonthStartLocal(now, zone), -1, 0, zone);
    Period(start, AddDate(start, 1, 0, zone))
  }

  // ---------------------------------------------------------------- in terms of day numbers

  function Monday(n: Day): (m: Day)
    ensures m <= n < m + 7 && Weekday(m) == 1
  {
    n - (Weekday(n) + 6) % 7
  }

  lemma MondayUnique(n: Day, m: Day)
    requires m <= n < m + 7 && Weekday(m) == 1
    ensures Monday(n) == m
  {
  }

  lemma MondayBefore(k: Day, n: Day)
    requires Monday(k) - 7 <= n < Monday(k)
    ensures Monday(n) == Monday(k) - 7
  {
    MondayUnique(n, Monday(k) - 7);
  }

  lemma DayForm(now: Instant, zone: Zone)
    ensures var n := LocalDay(now, zone);
            && LocalMidnight(now, zone) == Midnight(n, zone)
            && Today(now, zone) == Period(Midnight(n, zone), Midnight(n + 1, zone))
            && Yesterday(now, zone) == Period(Midnight(n - 1, zone), Midnight(n, zone))
  {
    hide MonthStart, ValidDate, MonthIndex, AddDate;
    var n := LocalDay(now, zone);
    AddDays(Midnight(n, zone), 1, zone);
    AddDays(Midnight(n, zone), -1, zone);
  }

  lemma WeekForm(now: Instant, zone: Zone)
    ensures var m := Monday(LocalDay(now, zone));
            && WeekStartLocal(now, zone) == Midnight(m, zone)
            && ThisWeek(now, zone) == Period(Midnight(m, zone), Midnight(LocalDay(now, zone) + 1, zone))
            && LastWeek(now, zone) == Period(Midnight(m - 7, zone), Midnight(m, zone))
  {
    hide MonthStart, ValidDate, MonthIndex, AddDate, CivilDate;
    var n := LocalDay(now, zone);
    var m := Monday(n);
    DayForm(now, zone);
    LocalDayOfAt(n, 0, zone);
    AddDays(Midnight(n, zone), m - n, zone);
    AddDays(Midnight(m, zone), 7, zone);
    AddDays(Midnight(m, zone), -7, zone);
    AddDays(Midnight(m - 7, zone), 7, zone);
  }

  lemma MonthForm(now: Instant, zone: Zone)
    ensures var i := MonthIndex(LocalDay(now, zone));
            && MonthStartLocal(now, zone) == Midnight(MonthStart(i), zone)
            && ThisMonth(now, zone) == Period(Midnight(MonthStart(i), zone), Midnight(LocalDay(now, zone) + 1, zone))
            && LastMonth(now, zone) == Period(Midnight(MonthStart(i - 1), zone), Midnight(MonthStart(i), zone))
  {
    hide MonthStart, ValidDate, MonthIndex, AddDate;
    var n := LocalDay(now, zone);
    var i := MonthIndex(n);
    DayForm(now, zone);
    var d := CivilDate(n);
    assert 12 * d.year + d.month - 1 == i;
    AddMonths(i, 0, 1, zone);
    AddMonths(i, 0, -1, zone);
    AddMonths(i - 1, 0, 1, zone);
    assert i - 1 + 1 == i;
  }

  // ---------------------------------------------------------------- what the periods promise

  /** The current periods hold now, end together at the next local midnight, and meet the completed ones at an edge. */
  lemma PeriodsMeet(now: Instant, zone: Zone)
    ensures Contains(Today(now, zone), now) && Contains(ThisWeek(now, zone), now) && Contains(ThisMonth(now, zone), now)
    ensures Today(now, zone).end == ThisWeek(now, zone).end == ThisMonth(now, zone).end
    ensures Yesterday(now, zone).end == Today(now, zone).start
    ensures LastWeek(now, zone).end == ThisWeek(now, zone).start
    ensures LastMonth(now, zone).end == ThisMonth(now, zone).start
  {
    hide MonthStart, ValidDate, MonthIndex, LocalDay, AddDate, CivilDate, Today, Yesterday, ThisWeek, LastWeek,
      ThisMonth, LastMonth;
    DayForm(now, zone);
    WeekForm(now, zone);
    MonthForm(now, zone);
    LocalDayBounds(now, zone);
  }

  /** The current day, week and month start at midnight of today, of a Monday within the last seven days, and of the
      first of the month of today; the completed ones start a day, a week and a month before. */
  lemma PeriodsStart(now: Instant, zone: Zone)
    ensures var n := LocalDay(now, zone);
            && Today(now, zone).start == Midnight(n, zone) && Yesterday(now, zone).start == Midnight(n - 1, zone)
            && (exists m :: Weekday(m) == 1 && m <= n < m + 7
                            && ThisWeek(now, zone).start == Midnight(m, zone)
                            && LastWeek(now, zone).start == Midnight(m - 7, zone))
            && ThisMonth(now, zone).start == Midnight(DayNumber(CivilDate(n).year, CivilDate(n).month, 1), zone)
            && LastMonth(now, zone).start == Midnight(DayNumber(CivilDate(n).year, CivilDate(n).month - 1, 1), zone)
  {
    hide MonthStart, ValidDate, MonthIndex, LocalDay, AddDate, Today, Yesterday, ThisWeek, LastWeek, ThisMonth,
      LastMonth;
    var n := LocalDay(now, zone);
    DayForm(now, zone);
    WeekForm(now, zone);
    MonthForm(now, zone);
    var m := Monday(n);
    assert Weekday(m) == 1 && m <= n < m + 7;
    var d := CivilDate(n);
    assert 12 * d.year + d.month - 1 == MonthIndex(n);
  }

  /** An instant lies in the completed period exactly when that period is the one around the instant. */
  lemma CompletedDay(t: Instant, u: Instant, zone: Zone)
    ensures Contains(Yesterday(t, zone), u) <==> Today(u, zone) == Yesterday(t, zone)
  {
    hide MonthStart, ValidDate, MonthIndex, LocalDay, AddDate, CivilDate, Today, Yesterday;
    DayForm(t, zone);
    DayForm(u, zone);
    LocalDayBounds(u, zone);
  }

  lemma CompletedWeek(t: Instant, u: Instant, zone: Zone)
    ensures Contains(LastWeek(t, zone), u) <==> WeekStartLocal(u, zone) == LastWeek(t, zone).start
  {
    hide MonthStart, ValidDate, MonthIndex, LocalDay, AddDate, CivilDate, LastWeek, WeekStartLocal, Weekday, Monday;
    WeekForm(t, zone);
    WeekForm(u, zone);
    LocalDayBounds(u, zone);
    var m, n := Monday(LocalDay(t, zone)), LocalDay(u, zone);
    if m - 7 <= n < m { MondayBefore(LocalDay(t, zone), n); }
  }

  lemma InMonth(n: Day, i: int)
    ensures MonthStart(i) <= n < MonthStart(i + 1) <==> MonthStart(MonthIndex(n)) == MonthStart(i)
  {
    hide MonthStart, MonthIndex;
    var j := MonthIndex(n);
    if MonthStart(i) <= n < MonthStart(i + 1) { MonthUnique(n, i); }
    if j < i { MonthsIncrease(j, i); }
    if j > i { MonthsIncrease(i, j); }
  }

  lemma CompletedMonth(t: Instant, u: Instant, zone: Zone)
    ensures Contains(LastMonth(t, zone), u) <==> MonthStartLocal(u, zone) == LastMonth(t, zone).start
  {
    hide MonthStart, ValidDate, MonthIndex, LocalDay, AddDate, CivilDate, LastMonth, MonthStartLocal;
    MonthForm(t, zone);
    MonthForm(u, zone);
    LocalDayBounds(u, zone);
    var i := MonthIndex(LocalDay(t, zone)) - 1;
    assert i + 1 == MonthIndex(LocalDay(t, zone));
    InMonth(LocalDay(u, zone), i);
  }
}

/** Delivery instants of scheduled summaries. */
module Schedule {
  import opened Calendar
  import opened Periods

  datatype Frequency = Daily | Weekly | Monthly | OtherFrequency

  datatype Delivery = Ok(at: Instant) | Bad

  function NextDelivery(now: Instant, zone: Zone, frequency: Frequency, minute: int): Delivery {
    if minute < 0 || minute >= 24 * 60 then Bad else
    var today := CivilDate(LocalDay(now, zone));
    var candidate := At(DayNumber(today.year, today.month, today.day), minute, zone);
    match frequency
    case Daily =>
      Ok(if candidate <= now then AddDate(candidate, 0, 1, zone) else candidate)
    case Weekly =>
      var daysUntilMonday := (1 - Weekday(LocalDay(candidate, zone)) + 7) % 7;
      var monday := AddDate(candidate, 0, daysUntilMonday, zone);
      Ok(if monday <= now then AddDate(monday, 0, 7, zone) else monday)
    case Monthly =>
      var first := At(DayNumber(today.year, today.month, 1), minute, zone);
      Ok(if first <= now then AddDate(first, 1, 0, zone) else first)
    case OtherFrequency => Bad
  }

  function LatestDelivery(now: Instant, zone: Zone, frequency: Frequency, minute: int): Delivery {
    if minute < 0 || minute >= 24 * 60 then Bad else
    var today := CivilDate(LocalDay(now, zone));
    var candidate := At(DayNumber(today.year, today.month, today.day), minute, zone);
    match frequency
    case Daily =>
      Ok(if candidate > now then AddDate(candidate, 0, -1, zone) else candidate)
    case Weekly =>
      var daysSinceMonday := (Weekday(LocalDay(candidate, zone)) + 6) % 7;
      var monday := AddDate(candidate, 0, -daysSinceMonday, zone);
      Ok(if monday > now then AddDate(monday, 0, -7, zone) else monday)
    case Monthly =>
      var first := At(DayNumber(today.year, today.month, 1), minute, zone);
      Ok(if first > now then AddDate(first, -1, 0, zone) else first)
    case OtherFrequency => Bad
  }

  /** The completed period a delivery reports. */
  function Reported(scheduledFor: Instant, zone: Zone, frequency: Frequency): Period {
    match frequency
    case Daily => Yesterday(scheduledFor, zone)
    case Weekly => LastWeek(scheduledFor, zone)
    case Monthly => LastMonth(scheduledFor, zone)
    case OtherFrequency => Period(0, 0)
  }

  // ---------------------------------------------------------------- what a schedule is

  predicate DeliveryDay(n: Day, frequency: Frequency) {
    match frequency
    case Daily => true
    case Weekly => Weekday(n) == 1
    case Monthly => CivilDate(n).day == 1
    case OtherFrequency => false
  }

  /** The local clock shows the delivery minute of a delivery day. */
  predicate Scheduled(t: Instant, zone: Zone, frequency: Frequency, minute: int) {
    TimeOfDay(t, zone) == minute * MINUTE && DeliveryDay(LocalDay(t, zone), frequency)
  }

  /** The last delivery day up to `n`, and the first one after it. */
  function DayUpTo(n: Day, frequency: Frequency): Day {
    match frequency
    case Weekly => Monday(n)
    case Monthly => MonthStart(MonthIndex(n))
    case _ => n
  }

  function DayAfter(n: Day, frequency: Frequency): Day {
    match frequency
    case Weekly => Monday(n) + 7
    case Monthly => MonthStart(MonthIndex(n) + 1)
    case _ => n + 1
  }

  function DayBefore(n: Day, frequency: Frequency): Day {
    match frequency
    case Weekly => Monday(n) - 7
    case Monthly => MonthStart(MonthIndex(n) - 1)
    case _ => n - 1
  }

  lemma FirstOfMonth(i: int)
    ensures MonthIndex(MonthStart(i)) == i && CivilDate(MonthStart(i)).day == 1
  {
    hide MonthStart, ValidDate, MonthIndex;
    MonthsIncrease(i, i + 1);
    MonthUnique(MonthStart(i), i);
  }

  lemma DeliveryDays(n: Day, frequency: Frequency)
    requires !frequency.OtherFrequency?
    ensures DayBefore(n, frequency) < DayUpTo(n, frequency) <= n < DayAfter(n, frequency)
    ensures DeliveryDay(DayBefore(n, frequency), frequency)
    ensures DeliveryDay(DayUpTo(n, frequency), frequency)
    ensures DeliveryDay(DayAfter(n, frequency), frequency)
  {
    hide MonthStart, ValidDate, MonthIndex, CivilDate;
    if frequency == Monthly {
      var i := MonthIndex(n);
      FirstOfMonth(i - 1);
      FirstOfMonth(i);
      FirstOfMonth(i + 1);
      MonthsIncrease(i - 1, i);
    }
  }

  /** No delivery day lies strictly between neighbours. */
  lemma NoDayBetween(n: Day, k: Day, frequency: Frequency)
    requires DeliveryDay(k, frequency)
    ensures k <= DayBefore(n, frequency) || k == DayUpTo(n, frequency) || k >= DayAfter(n, frequency)
  {
    hide MonthStart, ValidDate, MonthIndex;
    if frequency == Monthly {
      var i, j := MonthIndex(n), MonthIndex(k);
      assert k == MonthStart(j);
      if j < i - 1 { MonthsIncrease(j, i - 1); }
      if j > i + 1 { MonthsIncrease(i + 1, j); }
    }
  }

  lemma NextForm(now: Instant, zone: Zone, frequency: Frequency, minute: int)
    requires 0 <= minute < 1440 && !frequency.OtherFrequency?
    ensures var n := LocalDay(now, zone);
            var here := At(DayUpTo(n, frequency), minute, zone);
            NextDelivery(now, zone, frequency, minute) ==
            Ok(if here > now then here else At(DayAfter(n, frequency), minute, zone))
  {
    hide MonthStart, ValidDate, MonthIndex, AddDate;
    var n := LocalDay(now, zone);
    var candidate := At(n, minute, zone);
    LocalDayOfAt(n, minute, zone);
    match frequency
    case Daily => AddDays(candidate, 1, zone);
    case Weekly =>
      var until := (1 - Weekday(n) + 7) % 7;
      AddDays(candidate, until, zone);
      AddDays(At(n + until, minute, zone), 7, zone);
      assert n + until == if Weekday(n) == 1 then Monday(n) else Monday(n) + 7;
      LocalDayBounds(now, zone);
    case Monthly =>
      var d := CivilDate(n);
      assert 12 * d.year + d.month - 1 == MonthIndex(n);
      AddMonths(MonthIndex(n), minute, 1, zone);
  }

  lemma LatestForm(now: Instant, zone: Zone, frequency: Frequency, minute: int)
    requires 0 <= minute < 1440 && !frequency.OtherFrequency?
    ensures var n := LocalDay(now, zone);
            var here := At(DayUpTo(n, frequency), minute, zone);
            LatestDelivery(now, zone, frequency, minute) ==
            Ok(if here <= now then here else At(DayBefore(n, frequency), minute, zone))
  {
    hide MonthStart, ValidDate, MonthIndex, AddDate;
    var n := LocalDay(now, zone);
    var candidate := At(n, minute, zone);
    LocalDayOfAt(n, minute, zone);
    match frequency
    case Daily => AddDays(candidate, -1, zone);
    case Weekly =>
      AddDays(candidate, Monday(n) - n, zone);
      AddDays(At(Monday(n), minute, zone), -7, zone);
    case Monthly =>
      var d := CivilDate(n);
      assert 12 * d.year + d.month - 1 == MonthIndex(n);
      AddMonths(MonthIndex(n), minute, -1, zone);
  }

  lemma ScheduledAt(n: Day, minute: int, zone: Zone, frequency: Frequency)
    requires 0 <= minute < 1440 && DeliveryDay(n, frequency)
    ensures Scheduled(At(n, minute, zone), zone, frequency, minute)
  {
    hide MonthStart, ValidDate, MonthIndex, CivilDate, Weekday;
    LocalDayOfAt(n, minute, zone);
    assert (n * DAY + minute * MINUTE) % DAY == minute * MINUTE;
  }

  lemma ScheduledIsAt(t: Instant, zone: Zone, frequency: Frequency, minute: int)
    requires Scheduled(t, zone, frequency, minute)
    ensures t == At(LocalDay(t, zone), minute, zone) && DeliveryDay(LocalDay(t, zone), frequency)
  {
    hide MonthStart, ValidDate, MonthIndex, CivilDate, Weekday;
  }

  // ---------------------------------------------------------------- main results

  ghost predicate Brackets(latest: Instant, now: Instant, next: Instant, zone: Zone, frequency: Frequency,
                           minute: int) {
    && latest <= now < next
    && Scheduled(latest, zone, frequency, minute) && Scheduled(next, zone, frequency, minute)
    && forall t :: Scheduled(t, zone, frequency, minute) ==> t <= latest || next <= t
  }

  lemma Neighbouring(now: Instant, zone: Zone, frequency: Frequency, minute: int)
    requires 0 <= minute < 1440 && frequency != OtherFrequency
    ensures Brackets(LatestDelivery(now, zone, frequency, minute).at, now,
                     NextDelivery(now, zone, frequency, minute).at, zone, frequency, minute)
  {
    hide MonthStart, ValidDate, MonthIndex, CivilDate, Weekday, NextDelivery, LatestDelivery, DeliveryDay,
      DayUpTo, DayAfter, DayBefore, Scheduled, LocalDay;
    var n := LocalDay(now, zone);
    NextForm(now, zone, frequency, minute);
    LatestForm(now, zone, frequency, minute);
    LocalDayBounds(now, zone);
    DeliveryDays(n, frequency);
    ScheduledAt(DayBefore(n, frequency), minute, zone, frequency);
    ScheduledAt(DayUpTo(n, frequency), minute, zone, frequency);
    ScheduledAt(DayAfter(n, frequency), minute, zone, frequency);
    var latest := LatestDelivery(now, zone, frequency, minute).at;
    var next := NextDelivery(now, zone, frequency, minute).at;
    forall t | Scheduled(t, zone, frequency, minute) ensures t <= latest || next <= t {
      ScheduledIsAt(t, zone, frequency, minute);
      NoDayBetween(n, LocalDay(t, zone), frequency);
    }
  }

  /** The two deliveries are the neighbours of now among all scheduled instants; they exist for exactly the supported
      frequencies and minutes. */
  lemma DeliveriesBracketNow(now: Instant, zone: Zone, frequency: Frequency, minute: int)
    ensures var latest := LatestDelivery(now, zone, frequency, minute);
            var next := NextDelivery(now, zone, frequency, minute);
            && (latest.Ok? <==> next.Ok?)
            && (next.Ok? <==> 0 <= minute < 1440 && frequency != OtherFrequency)
            && (next.Ok? ==> Brackets(latest.at, now, next.at, zone, frequency, minute))
  {
    hide MonthStart, ValidDate, MonthIndex, CivilDate, Weekday, AddDate, Brackets, LocalDay, DayNumber;
    if 0 <= minute < 1440 && frequency != OtherFrequency {
      Neighbouring(now, zone, frequency, minute);
    }
  }

  /** Deliveries that bracket some instant report adjacent periods, each completed when it is reported. */
  lemma ReportedPeriodsAdjoin(now: Instant, zone: Zone, frequency: Frequency, minute: int)
    requires 0 <= minute < 1440 && frequency != OtherFrequency
    ensures var latest := LatestDelivery(now, zone, frequency, minute).at;
            var next := NextDelivery(now, zone, frequency, minute).at;
            var p, q := Reported(latest, zone, frequency), Reported(next, zone, frequency);
            && p.start < p.end <= latest && p.end == q.start && q.start < q.end <= next
            && p.end == Midnight(LocalDay(latest, zone), zone) && q.end == Midnight(LocalDay(next, zone), zone)
  {
    hide MonthStart, ValidDate, MonthIndex, CivilDate, Weekday, NextDelivery, LatestDelivery, DeliveryDay, DayUpTo,
      DayAfter, DayBefore, Scheduled, LocalDay, Reported;
    var n := LocalDay(now, zone);
    NextForm(now, zone, frequency, minute);
    LatestForm(now, zone, frequency, minute);
    DeliveryDays(n, frequency);
    ReportedForm(DayBefore(n, frequency), zone, frequency, minute);
    ReportedForm(DayUpTo(n, frequency), zone, frequency, minute);
    ReportedForm(DayAfter(n, frequency), zone, frequency, minute);
    LocalDayOfAt(DayBefore(n, frequency), minute, zone);
    LocalDayOfAt(DayUpTo(n, frequency), minute, zone);
    LocalDayOfAt(DayAfter(n, frequency), minute, zone);
    Neighbours(n, frequency);
  }

  lemma ReportedForm(k: Day, zone: Zone, frequency: Frequency, minute: int)
    requires 0 <= minute < 1440 && DeliveryDay(k, frequency)
    ensures Reported(At(k, minute, zone), zone, frequency) ==
            Period(Midnight(DayBefore(k, frequency), zone), Midnight(k, zone))
    ensures DayBefore(k, frequency) < k
  {
    hide MonthStart, ValidDate, MonthIndex, CivilDate, Weekday, LocalDay, Yesterday, LastWeek, LastMonth;
    var t := At(k, minute, zone);
    LocalDayOfAt(k, minute, zone);
    DeliveryDays(k, frequency);
    UpToSelf(k, frequency);
    match frequency
    case Daily => DayForm(t, zone);
    case Weekly => WeekForm(t, zone);
    case Monthly => MonthForm(t, zone);
  }

  lemma Neighbours(n: Day, frequency: Frequency)
    requires frequency != OtherFrequency
    ensures DayBefore(DayUpTo(n, frequency), frequency) == DayBefore(n, frequency)
    ensures DayBefore(DayAfter(n, frequency), frequency) == DayUpTo(n, frequency)
  {
    hide MonthStart, ValidDate, MonthIndex, CivilDate;
    if frequency == Monthly {
      FirstOfMonth(MonthIndex(n));
      FirstOfMonth(MonthIndex(n) + 1);
    }
  }

  /** A later clock reading never yields an earlier delivery, and yields a later one exactly when a delivery fell due
      in between. */
  lemma LatestMonotone(a: Instant, b: Instant, zone: Zone, frequency: Frequency, minute: int)
    requires 0 <= minute < 1440 && frequency != OtherFrequency && a <= b
    ensures LatestDelivery(a, zone, frequency, minute).at <= LatestDelivery(b, zone, frequency, minute).at
    ensures NextDelivery(a, zone, frequency, minute).at <= NextDelivery(b, zone, frequency, minute).at
    ensures NextDelivery(a, zone, frequency, minute).at <= b <==>
            LatestDelivery(a, zone, frequency, minute).at < LatestDelivery(b, zone, frequency, minute).at
  {
    hide MonthStart, ValidDate, MonthIndex, CivilDate, Weekday, NextDelivery, LatestDelivery, DeliveryDay, DayUpTo,
      DayAfter, DayBefore, Scheduled, LocalDay;
    DeliveriesBracketNow(a, zone, frequency, minute);
    DeliveriesBracketNow(b, zone, frequency, minute);
  }

  /** Later deliveries report later periods that do not overlap the earlier ones. */
  lemma ReportedInOrder(s: Instant, t: Instant, zone: Zone, frequency: Frequency, minute: int)
    requires 0 <= minute < 1440 && s < t
    requires Scheduled(s, zone, frequency, minute) && Scheduled(t, zone, frequency, minute)
    ensures Reported(s, zone, frequency).end <= Reported(t, zone, frequency).start
    ensures Reported(s, zone, frequency).start < Reported(s, zone, frequency).end
  {
    hide MonthStart, ValidDate, MonthIndex, CivilDate, Weekday, LocalDay, DayUpTo, DayAfter, DayBefore, Reported;
    var j, k := LocalDay(s, zone), LocalDay(t, zone);
    ScheduledIsAt(s, zone, frequency, minute);
    ScheduledIsAt(t, zone, frequency, minute);
    ReportedForm(j, zone, frequency, minute);
    ReportedForm(k, zone, frequency, minute);
    DeliveryDays(k, frequency);
    NoDayBetween(k, j, frequency);
    UpToSelf(k, frequency);
  }

  lemma UpToSelf(k: Day, frequency: Frequency)
    requires DeliveryDay(k, frequency)
    ensures DayUpTo(k, frequency) == k
  {
    hide MonthStart, ValidDate, MonthIndex;
  }
}
