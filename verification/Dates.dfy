/** Reading and printing dates. */
module Dates {
  import opened Text
  import opened Calendar
  import opened Periods

  datatype Parsed = Ok(at: Instant) | Bad

  /** Digits, a separator, digits, a separator, and the rest. */
  datatype Three = Three(a: string, s1: char, b: string, s2: char, c: string) | NoThree

  function DigitRun(w: string): (n: nat)
    ensures n <= |w| && AllDigits(w[..n]) && (n < |w| ==> !IsDigit(w[n]))
  {
    if w == "" || !IsDigit(w[0]) then 0 else
    var n := 1 + DigitRun(w[1..]);
    assert forall i :: 1 <= i < n ==> w[i] == w[1..][i - 1];
    n
  }

  function Split(w: string): Three {
    var i := DigitRun(w);
    if i == |w| then NoThree else
    var rest := w[i + 1..];
    var j := DigitRun(rest);
    if j == |rest| then NoThree else Three(w[..i], w[i], rest[..j], rest[j], rest[j + 1..])
  }

  /** yyyy-mm-dd */
  predicate IsoShape(p: Three) {
    && p.Three? && AllDigits(p.a) && AllDigits(p.b) && AllDigits(p.c) && p.s1 == p.s2 == '-'
    && |p.a| == 4 && 1 <= |p.b| <= 2 && 1 <= |p.c| <= 2
  }

  /** dd/mm/yyyy, with one or two digits for day and month, two or four for the year, and either separator */
  predicate DmyShape(p: Three) {
    && p.Three? && AllDigits(p.a) && AllDigits(p.b) && AllDigits(p.c)
    && (p.s1 == '/' || p.s1 == '-') && (p.s2 == '/' || p.s2 == '-')
    && 1 <= |p.a| <= 2 && 1 <= |p.b| <= 2 && (|p.c| == 2 || |p.c| == 4)
  }

  /** Years below 100 pivot at 69/70, whether written with two digits or four. */
  function Pivot(year: nat): nat {
    if year >= 100 then year else if year <= 69 then year + 2000 else year + 1900
  }

  datatype Clock = Clock(hour: nat, minute: nat) | NoClock

  /** hh:mm */
  function ReadClock(w: string): Clock {
    var i := DigitRun(w);
    if !(1 <= i <= 2 && |w| == i + 3 && w[i] == ':' && AllDigits(w[i + 1..])) then NoClock
    else Clock(Val(w[..i]), Val(w[i + 1..]))
  }

  datatype Written = Written(date: Date) | Unrecognised

  function ReadDate(w: string): Written {
    var p := Split(w);
    if IsoShape(p) then Written(Date(Val(p.a), Val(p.b), Val(p.c)))
    else if DmyShape(p) then Written(Date(Pivot(Val(p.c)), Val(p.b), Val(p.a)))
    else Unrecognised
  }

  function ParseDate(raw: string, zone: Zone): Parsed {
    var parts := Parts(raw);
    if |parts| == 0 || |parts| > 2 then Bad else
    match ReadDate(parts[0])
    case Unrecognised => Bad
    case Written(d) =>
      var clock := if |parts| == 2 then ReadClock(parts[1]) else Clock(0, 0);
      if clock.NoClock? || clock.hour > 23 || clock.minute > 59 then Bad else
      var t := At(DayNumber(d.year, d.month, d.day), 60 * clock.hour + clock.minute, zone);
      if CivilDate(LocalDay(t, zone)) != d then Bad else Ok(t)
  }

  /** Day, month and year with at least two, two and four digits. */
  function Printed(d: Date): string
    requires d.day >= 0 && d.month >= 0
  {
    Pad(d.day, 2) + "/" + Pad(d.month, 2) + "/" + (if d.year < 0 then "-" + Pad(-d.year, 4) else Pad(d.year, 4))
  }

  function DateVN(t: Instant, zone: Zone): string {
    Printed(CivilDate(LocalDay(t, zone)))
  }

  // ---------------------------------------------------------------- accepted dates

  /** Three numbers and two separators spell a date: four digits of year, then month and day, with dashes; or day, month
      and a year of two or four digits, with slashes or dashes. A year below 70 is of this century, one below 100 of the
      last. */
  predicate Means(p: Three, d: Date) {
    && p.Three? && AllDigits(p.a) && AllDigits(p.b) && AllDigits(p.c) && |p.b| in {1, 2} && d.month == Val(p.b)
    && (|| (&& |p.a| == 4 && |p.c| in {1, 2} && p.s1 == '-' && p.s2 == '-'
            && d.year == Val(p.a) && d.day == Val(p.c))
        || (&& |p.a| in {1, 2} && |p.c| in {2, 4} && p.s1 in "/-" && p.s2 in "/-"
            && d.day == Val(p.a)
            && d.year == Val(p.c) + (if Val(p.c) < 70 then 2000 else if Val(p.c) < 100 then 1900 else 0)))
  }

  ghost predicate Spells(w: string, d: Date) {
    exists p: Three :: p.Three? && w == p.a + [p.s1] + p.b + [p.s2] + p.c && Means(p, d)
  }

  predicate IsClock(h: string, m: string) {
    AllDigits(h) && AllDigits(m) && 1 <= |h| <= 2 && |m| == 2
  }

  ghost predicate SpellsTime(w: string, hour: nat, minute: nat) {
    exists h, m :: w == h + ":" + m && IsClock(h, m) && hour == Val(h) && minute == Val(m)
  }

  lemma {:induction false} DigitRunOf(a: string, tail: string)
    requires AllDigits(a) && (tail != "" ==> !IsDigit(tail[0]))
    ensures DigitRun(a + tail) == |a|
  {
    if a == "" {
      assert a + tail == tail;
    } else {
      assert (a + tail)[0] == a[0] && (a + tail)[1..] == a[1..] + tail;
      DigitRunOf(a[1..], tail);
    }
  }

  lemma SplitOf(p: Three)
    requires p.Three? && AllDigits(p.a) && AllDigits(p.b) && !IsDigit(p.s1) && !IsDigit(p.s2)
    ensures Split(p.a + [p.s1] + p.b + [p.s2] + p.c) == p
  {
    var w := p.a + [p.s1] + p.b + [p.s2] + p.c;
    var rest, last := p.b + [p.s2] + p.c, [p.s2] + p.c;
    assert w == p.a + ([p.s1] + rest);
    DigitRunOf(p.a, [p.s1] + rest);
    assert w[|p.a| + 1..] == rest;
    assert rest == p.b + last;
    DigitRunOf(p.b, last);
    assert rest[|p.b| + 1..] == p.c;
  }

  lemma SplitIs(w: string)
    requires Split(w).Three?
    ensures var p := Split(w); w == p.a + [p.s1] + p.b + [p.s2] + p.c
  {
    hide DigitRun;
    var i := DigitRun(w);
    var rest := w[i + 1..];
    var j := DigitRun(rest);
    CutAt(w, i);
    CutAt(rest, j);
    Regroup(w[..i], w[i], rest[..j], rest[j], rest[j + 1..]);
  }

  lemma CutAt(w: string, i: nat)
    requires i < |w|
    ensures w == w[..i] + [w[i]] + w[i + 1..]
  {
  }

  lemma Regroup(a: string, s1: char, b: string, s2: char, c: string)
    ensures a + [s1] + (b + [s2] + c) == a + [s1] + b + [s2] + c
  {
  }

  lemma ReadDateExact(w: string, d: Date)
    ensures ReadDate(w) == Written(d) <==> Spells(w, d)
  {
    hide Split, Val;
    if ReadDate(w) == Written(d) {
      SplitIs(w);
      assert Means(Split(w), d);
    }
    if Spells(w, d) {
      var p: Three :| p.Three? && w == p.a + [p.s1] + p.b + [p.s2] + p.c && Means(p, d);
      SplitOf(p);
    }
  }

  lemma ReadClockExact(w: string, hour: nat, minute: nat)
    ensures ReadClock(w) == Clock(hour, minute) <==> SpellsTime(w, hour, minute)
  {
    hide ReadClock, SpellsTime;
    if ReadClock(w) == Clock(hour, minute) { ClockIsSpelled(w, hour, minute); }
    if SpellsTime(w, hour, minute) { SpelledClock(w, hour, minute); }
  }

  lemma ClockIsSpelled(w: string, hour: nat, minute: nat)
    requires ReadClock(w) == Clock(hour, minute)
    ensures SpellsTime(w, hour, minute)
  {
    hide Val, DigitRun;
    var i := DigitRun(w);
    assert w == w[..i] + ":" + w[i + 1..] by { CutAt(w, i); }
  }

  lemma SpelledClock(w: string, hour: nat, minute: nat)
    requires SpellsTime(w, hour, minute)
    ensures ReadClock(w) == Clock(hour, minute)
  {
    hide ReadClock;
    var h, m :| w == h + ":" + m && IsClock(h, m) && hour == Val(h) && minute == Val(m);
    ClockOf(h, m);
  }

  lemma ClockOf(h: string, m: string)
    requires AllDigits(h) && AllDigits(m) && 1 <= |h| <= 2 && |m| == 2
    ensures ReadClock(h + ":" + m) == Clock(Val(h), Val(m))
  {
    hide Val, DigitRun;
    var w, tail := h + ":" + m, ":" + m;
    DigitRunOf(h, tail);
    assert w == h + tail;
    assert w[..|h|] == h && w[|h|] == ':' && w[|h| + 1..] == m;
  }

  function Parts(raw: string): seq<string> {
    Fields(Replace(TrimSpace(raw), ", ", " "))
  }

  lemma ReplaceFirst(s: string, t: string, u: string)
    requires t != "" && |t| <= |s|
    ensures Replace(s, t, u) == if s[..|t|] == t then u + Replace(s[|t|..], t, u) else [s[0]] + Replace(s[1..], t, u)
  {
  }

  lemma {:induction false} CommaGoes(a: string, b: string)
    requires ',' !in a && ',' !in b
    ensures Replace(a + ", " + b, ", ", " ") == a + " " + b
    decreases |a|
  {
    hide Replace;
    var s := a + ", " + b;
    ReplaceFirst(s, ", ", " ");
    if a == "" {
      assert s[..2] == ", " && s[2..] == b;
      ReplaceAbsent(b, ", ", " ", 0);
      assert a + " " + b == " " + b;
    } else {
      assert s[..2][0] == a[0] && ", "[0] == ',';
      assert s[1..] == a[1..] + ", " + b;
      CommaGoes(a[1..], b);
      assert [a[0]] + (a[1..] + " " + b) == a + " " + b;
    }
  }

  /** A date and a time may stand with a space or a comma and a space between them. */
  lemma TwoParts(date: string, time: string, comma: bool)
    requires date != "" && time != "" && NoSpace(date) && NoSpace(time) && ',' !in date && ',' !in time
    ensures Parts(date + (if comma then ", " else " ") + time) == [date, time]
  {
    hide Fields, Replace;
    var raw := date + (if comma then ", " else " ") + time;
    TrimNothing(raw);
    var spaced := date + " " + time;
    if comma { CommaGoes(date, time); } else { ReplaceAbsent(spaced, ", ", " ", 0); }
    FieldsCons(date, ' ', time);
    assert date + [' '] + time == spaced;
    FieldsOne(time);
  }

  /** The parts spell a date, alone at midnight or with a time of day. */
  ghost predicate Spelled(parts: seq<string>, d: Date, hour: nat, minute: nat) {
    && 1 <= |parts| <= 2 && Spells(parts[0], d)
    && if |parts| == 2 then SpellsTime(parts[1], hour, minute) else hour == 0 && minute == 0
  }

  lemma SpelledIsRead(raw: string, zone: Zone, d: Date, hour: nat, minute: nat)
    requires Spelled(Parts(raw), d, hour, minute)
    ensures ParseDate(raw, zone) == if hour <= 23 && minute <= 59 && ValidDate(d)
                                    then Ok(At(DayNumber(d.year, d.month, d.day), 60 * hour + minute, zone)) else Bad
  {
    hide Fields, Replace, TrimSpace, ReadDate, ReadClock, Spells, SpellsTime, CivilDate, DayNumber, ValidDate;
    var parts := Parts(raw);
    ReadDateExact(parts[0], d);
    if |parts| == 2 { ReadClockExact(parts[1], hour, minute); }
    if hour <= 23 && minute <= 59 {
      LocalDayOfAt(DayNumber(d.year, d.month, d.day), 60 * hour + minute, zone);
      InvalidDateMoves(d);
    }
  }

  /** A text is accepted exactly when it spells a date of the calendar, alone or with a time of day; the result is that
      local time. */
  lemma AcceptsExactlyCalendarDates(raw: string, zone: Zone, t: Instant)
    ensures ParseDate(raw, zone) == Ok(t) <==>
            exists d: Date, hour: nat, minute: nat ::
              && Spelled(Parts(raw), d, hour, minute) && ValidDate(d) && hour <= 23 && minute <= 59
              && t == At(DayNumber(d.year, d.month, d.day), 60 * hour + minute, zone)
  {
    hide Fields, Replace, TrimSpace, ReadDate, ReadClock, Spells, SpellsTime, CivilDate, DayNumber, ValidDate, At,
      LocalDay, Spelled;
    if ParseDate(raw, zone) == Ok(t) {
      var d, hour, minute := WhatWasRead(raw, zone, t);
      SpelledIsRead(raw, zone, d, hour, minute);
    }
    forall d: Date, hour: nat, minute: nat | Spelled(Parts(raw), d, hour, minute)
      ensures ParseDate(raw, zone) == if hour <= 23 && minute <= 59 && ValidDate(d)
                                      then Ok(At(DayNumber(d.year, d.month, d.day), 60 * hour + minute, zone)) else Bad
    {
      SpelledIsRead(raw, zone, d, hour, minute);
    }
  }

  lemma WhatWasRead(raw: string, zone: Zone, t: Instant) returns (d: Date, hour: nat, minute: nat)
    requires ParseDate(raw, zone) == Ok(t)
    ensures Spelled(Parts(raw), d, hour, minute)
  {
    hide Fields, Replace, TrimSpace, ReadDate, ReadClock, Spells, SpellsTime, CivilDate, DayNumber, ValidDate, At,
      LocalDay;
    var parts := Parts(raw);
    d := ReadDate(parts[0]).date;
    ReadDateExact(parts[0], d);
    var clock := if |parts| == 2 then ReadClock(parts[1]) else Clock(0, 0);
    hour, minute := clock.hour, clock.minute;
    if |parts| == 2 { ReadClockExact(parts[1], hour, minute); }
  }

  // ---------------------------------------------------------------- printed dates

  /** The date a printed date is read as: the pivot moves the years below 100. */
  function Reread(d: Date): Date {
    if 0 <= d.year then d.(year := Pivot(d.year)) else d
  }

  predicate DateChar(c: char) {
    IsDigit(c) || c == '/' || c == '-'
  }

  lemma PrintedChars(d: Date)
    requires d.day >= 0 && d.month >= 0
    ensures var w := Printed(d);
            NoSpace(w) && ',' !in w && w != ""
  {
    hide Pad;
    var w := Printed(d);
    assert forall i :: 0 <= i < |w| ==> DateChar(w[i]);
  }

  lemma PrintedParts(t: Instant, zone: Zone)
    ensures Parts(DateVN(t, zone)) == [DateVN(t, zone)]
  {
    hide Parts, Pad, CivilDate, LocalDay, NoSpace;
    PrintedChars(CivilDate(LocalDay(t, zone)));
    OneWord(DateVN(t, zone));
  }

  lemma OneWord(w: string)
    requires NoSpace(w) && ',' !in w && w != ""
    ensures Parts(w) == [w]
  {
    hide Fields, Replace, TrimSpace;
    TrimNothing(w);
    ReplaceAbsent(w, ", ", " ", 0);
    FieldsOne(w);
  }

  lemma PrintedShape(d: Date)
    requires 0 <= d.year <= 9999 && ValidDate(d)
    ensures Spells(Pad(d.day, 2) + "/" + Pad(d.month, 2) + "/" + Pad(d.year, 4), Reread(d))
  {
    hide Pad, Val, MonthLength;
    assert Pow10(2) == 100 && Pow10(4) == 10_000;
    PadLength(d.day, 2);
    PadLength(d.month, 2);
    PadLength(d.year, 4);
    PadValue(d.day, 2);
    PadValue(d.month, 2);
    PadValue(d.year, 4);
    var p := Three(Pad(d.day, 2), '/', Pad(d.month, 2), '/', Pad(d.year, 4));
    assert Means(p, Reread(d));
    assert Pad(d.day, 2) + "/" + Pad(d.month, 2) + "/" + Pad(d.year, 4) == p.a + [p.s1] + p.b + [p.s2] + p.c;
  }

  /** dd/mm/yyyy: two digits, two digits and four digits, with slashes between them. */
  lemma PrintedForm(t: Instant, zone: Zone)
    requires 0 <= CivilDate(LocalDay(t, zone)).year <= 9999
    ensures var w, d := DateVN(t, zone), CivilDate(LocalDay(t, zone));
            && |w| == 10 && w[2] == '/' && w[5] == '/'
            && AllDigits(w[..2]) && AllDigits(w[3..5]) && AllDigits(w[6..])
            && Val(w[..2]) == d.day && Val(w[3..5]) == d.month && Val(w[6..]) == d.year
  {
    hide Pad, Val, MonthLength, CivilDate, LocalDay;
    var d := CivilDate(LocalDay(t, zone));
    assert Pow10(2) == 100 && Pow10(4) == 10_000;
    PadLength(d.day, 2);
    PadLength(d.month, 2);
    PadLength(d.year, 4);
    PadValue(d.day, 2);
    PadValue(d.month, 2);
    PadValue(d.year, 4);
    var w := DateVN(t, zone);
    assert w[..2] == Pad(d.day, 2) && w[3..5] == Pad(d.month, 2) && w[6..] == Pad(d.year, 4);
  }

  lemma RereadIsValid(d: Date)
    requires 0 <= d.year && ValidDate(d)
    ensures ValidDate(Reread(d))
  {
    assert Leap(Pivot(d.year)) == Leap(d.year);
  }

  /** A year outside four digits is printed in no accepted shape. */
  lemma LongYearRefused(d: Date)
    requires ValidDate(d) && (d.year < 0 || d.year > 9999)
    ensures ReadDate(Printed(d)) == Unrecognised
  {
    hide Pad, Val, MonthLength, Split;
    var year := if d.year < 0 then "-" + Pad(-d.year, 4) else Pad(d.year, 4);
    var p := Three(Pad(d.day, 2), '/', Pad(d.month, 2), '/', year);
    assert Pad(d.day, 2) + "/" + Pad(d.month, 2) + "/" + year == p.a + [p.s1] + p.b + [p.s2] + p.c;
    SplitOf(p);
    if d.year > 9999 {
      assert Pow10(4) == 10_000;
      PadLength(d.year, 4);
    } else {
      assert year[0] == '-';
    }
  }

  /** Parsing a printed date gives the local midnight of the instant exactly for the years 100 to 9999; an earlier year
      is read as its pivot, any other is refused. */
  lemma PrintedDatesReadBack(t: Instant, zone: Zone)
    ensures var d := CivilDate(LocalDay(t, zone));
            && (ParseDate(DateVN(t, zone), zone) == Ok(LocalMidnight(t, zone)) <==> 100 <= d.year <= 9999)
            && (0 <= d.year < 100 ==>
                  var year := d.year + if d.year < 70 then 2000 else 1900;
                  ParseDate(DateVN(t, zone), zone) == Ok(Midnight(DayNumber(year, d.month, d.day), zone)))
            && (d.year < 0 || d.year > 9999 ==> ParseDate(DateVN(t, zone), zone) == Bad)
  {
    hide Fields, Replace, TrimSpace, ReadDate, ReadClock, Spells, SpellsTime, CivilDate, MonthStart, ValidDate,
      LocalDay, Pad, Parts;
    var d := CivilDate(LocalDay(t, zone));
    PrintedParts(t, zone);
    if 0 <= d.year <= 9999 {
      PrintedShape(d);
      RereadIsValid(d);
      SpelledIsRead(DateVN(t, zone), zone, Reread(d), 0, 0);
      if d.year < 100 { YearsDiffer(d, Pivot(d.year)); }
    } else {
      LongYearRefused(d);
      NotRead(DateVN(t, zone), zone);
    }
  }

  lemma NotRead(raw: string, zone: Zone)
    requires Parts(raw) == [raw] && ReadDate(raw) == Unrecognised
    ensures ParseDate(raw, zone) == Bad
  {
  }

  lemma YearsDiffer(d: Date, year: int)
    requires ValidDate(d) && ValidDate(d.(year := year)) && year != d.year
    ensures DayNumber(d.year, d.month, d.day) != DayNumber(year, d.month, d.day)
  {
    hide CivilDate, MonthStart, ValidDate;
    DateRoundTrip(d);
    DateRoundTrip(d.(year := year));
  }
}
