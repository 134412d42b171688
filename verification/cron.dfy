// The search for the next activation of a cron schedule, over the proleptic
// Gregorian calendar in UTC.

module Calendar {
  datatype Civil = Civil(year: int, month: int, day: int, hour: int, minute: int, second: int)

  predicate Leap(y: int) {
    y % 4 == 0 && (y % 100 != 0 || y % 400 == 0)
  }

  function DaysIn(y: int, m: int): (n: int)
    ensures 28 <= n <= 31
  {
    if m == 2 then (if Leap(y) then 29 else 28)
    else if m in {4, 6, 9, 11} then 30
    else 31
  }

  predicate Valid(t: Civil) {
    && 1 <= t.month <= 12 && 1 <= t.day <= DaysIn(t.year, t.month)
    && 0 <= t.hour < 24 && 0 <= t.minute < 60 && 0 <= t.second < 60
  }

  // Days from January 1 of year 1 to January 1 of year y.
  function DaysBeforeYear(y: int): int {
    365 * (y - 1) + (y - 1) / 4 - (y - 1) / 100 + (y - 1) / 400
  }

  function DaysBeforeMonth(y: int, m: int): (n: int)
    requires 1 <= m <= 13
    ensures 28 * (m - 1) <= n <= 31 * (m - 1)
    decreases m
  {
    if m == 1 then 0 else DaysBeforeMonth(y, m - 1) + DaysIn(y, m - 1)
  }

  function DayNumber(t: Civil): int
    requires 1 <= t.month <= 12
  {
    DaysBeforeYear(t.year) + DaysBeforeMonth(t.year, t.month) + t.day - 1
  }

  function SecondOfDay(t: Civil): int {
    t.hour * 3600 + t.minute * 60 + t.second
  }

  // Seconds since January 1 of year 1, 00:00:00.
  function Seconds(t: Civil): int
    requires 1 <= t.month <= 12
  {
    DayNumber(t) * 86400 + SecondOfDay(t)
  }

  // Sunday is 0; January 1 of year 1 was a Monday.
  function Weekday(t: Civil): (w: int)
    requires 1 <= t.month <= 12
    ensures 0 <= w < 7
  {
    (DayNumber(t) + 1) % 7
  }

  // ---------- the calendar is ordered field by field ----------

  predicate DateBefore(a: Civil, b: Civil) {
    a.year < b.year || (a.year == b.year && (a.month < b.month || (a.month == b.month && a.day < b.day)))
  }

  predicate SameDate(a: Civil, b: Civil) {
    a.year == b.year && a.month == b.month && a.day == b.day
  }

  predicate Before(a: Civil, b: Civil) {
    DateBefore(a, b) || (SameDate(a, b) &&
      (a.hour < b.hour || (a.hour == b.hour && (a.minute < b.minute || (a.minute == b.minute && a.second < b.second)))))
  }

  lemma YearLength(y: int)
    ensures DaysBeforeYear(y + 1) == DaysBeforeYear(y) + DaysBeforeMonth(y, 13)
  {
    MonthsOfYear(y);
    LeapDays(y);
    hide DaysBeforeMonth, Leap;
  }

  lemma MonthsOfYear(y: int)
    ensures DaysBeforeMonth(y, 13) == if Leap(y) then 366 else 365
  {
    hide Leap;
    assert DaysBeforeMonth(y, 5) == 31 + DaysIn(y, 2) + 31 + 30;
    assert DaysBeforeMonth(y, 9) == DaysBeforeMonth(y, 5) + 31 + 30 + 31 + 31;
    assert DaysBeforeMonth(y, 13) == DaysBeforeMonth(y, 9) + 30 + 31 + 30 + 31;
  }

  lemma LeapDays(y: int)
    ensures y / 4 - y / 100 + y / 400 == (y - 1) / 4 - (y - 1) / 100 + (y - 1) / 400 + if Leap(y) then 1 else 0
  {
    StepBy4(y);
    StepBy100(y);
    StepBy400(y);
    assert y % 100 == 0 ==> y % 4 == 0;
    assert y % 400 == 0 ==> y % 100 == 0;
  }

  lemma StepBy4(y: int)
    ensures y / 4 == (y - 1) / 4 + if y % 4 == 0 then 1 else 0
  {
  }

  lemma StepBy100(y: int)
    ensures y / 100 == (y - 1) / 100 + if y % 100 == 0 then 1 else 0
  {
  }

  lemma StepBy400(y: int)
    ensures y / 400 == (y - 1) / 400 + if y % 400 == 0 then 1 else 0
  {
  }

  lemma YearsGrow(y: int, z: int)
    requires y < z
    ensures DaysBeforeYear(y + 1) <= DaysBeforeYear(z)
  {
  }

  lemma {:induction false} MonthsGrow(y: int, m: int, n: int)
    requires 1 <= m < n <= 13
    ensures DaysBeforeMonth(y, m) + DaysIn(y, m) <= DaysBeforeMonth(y, n)
    decreases n
  {
    if m < n - 1 {
      MonthsGrow(y, m, n - 1);
    }
  }

  lemma DateOrder(a: Civil, b: Civil)
    requires Valid(a) && Valid(b) && DateBefore(a, b)
    ensures DayNumber(a) < DayNumber(b)
  {
    if a.year < b.year {
      MonthsGrow(a.year, a.month, 13);
      YearLength(a.year);
      YearsGrow(a.year, b.year);
    } else if a.month < b.month {
      MonthsGrow(a.year, a.month, b.month);
    }
  }

  lemma SecondOfDayRange(t: Civil)
    requires Valid(t)
    ensures 0 <= SecondOfDay(t) < 86400
  {
  }

  lemma BeforeIsEarlier(a: Civil, b: Civil)
    requires Valid(a) && Valid(b) && Before(a, b)
    ensures Seconds(a) < Seconds(b)
  {
    SecondOfDayRange(a);
    SecondOfDayRange(b);
    if DateBefore(a, b) {
      DateOrder(a, b);
    }
  }

  // Field order is time order, so a civil time denotes one instant.
  lemma OrderAgrees(a: Civil, b: Civil)
    requires Valid(a) && Valid(b)
    ensures Before(a, b) <==> Seconds(a) < Seconds(b)
    ensures a == b <==> Seconds(a) == Seconds(b)
  {
    if Before(a, b) { BeforeIsEarlier(a, b); }
    if Before(b, a) { BeforeIsEarlier(b, a); }
    assert Before(a, b) || Before(b, a) || a == b;
  }

  // ---------- the operations of package time the search uses ----------

  // AddDate(0, 1, 0): a day the next month does not have runs over.
  function AddMonth(t: Civil): Civil
    requires Valid(t)
  {
    var y := if t.month == 12 then t.year + 1 else t.year;
    var m := if t.month == 12 then 1 else t.month + 1;
    if t.day <= DaysIn(y, m) then t.(year := y, month := m)
    else t.(year := y, month := m + 1, day := t.day - DaysIn(y, m))
  }

  // AddDate(0, 0, 1).
  function AddDay(t: Civil): Civil
    requires Valid(t)
  {
    if t.day < DaysIn(t.year, t.month) then t.(day := t.day + 1)
    else if t.month < 12 then t.(month := t.month + 1, day := 1)
    else t.(year := t.year + 1, month := 1, day := 1)
  }

  function AddHour(t: Civil): Civil
    requires Valid(t)
  {
    if t.hour < 23 then t.(hour := t.hour + 1) else AddDay(t).(hour := 0)
  }

  function AddMinute(t: Civil): Civil
    requires Valid(t)
  {
    if t.minute < 59 then t.(minute := t.minute + 1) else AddHour(t).(minute := 0)
  }

  function AddSecond(t: Civil): Civil
    requires Valid(t)
  {
    if t.second < 59 then t.(second := t.second + 1) else AddMinute(t).(second := 0)
  }

  function TruncateHour(t: Civil): Civil {
    t.(minute := 0, second := 0)
  }

  function TruncateMinute(t: Civil): Civil {
    t.(second := 0)
  }

  // A civil time carries no fraction of a second.
  function TruncateSecond(t: Civil): Civil {
    t
  }

  lemma AddDayIsADay(t: Civil)
    requires Valid(t)
    ensures Valid(AddDay(t)) && DayNumber(AddDay(t)) == DayNumber(t) + 1
  {
    if t.day == DaysIn(t.year, t.month) && t.month == 12 {
      YearLength(t.year);
      assert DaysBeforeMonth(t.year, 13) == DaysBeforeMonth(t.year, 12) + DaysIn(t.year, 12);
    }
  }

  // From one day to the next the day of the week goes round.
  lemma WeekdayFollows(t: Civil)
    requires Valid(t)
    ensures Valid(AddDay(t)) && Weekday(AddDay(t)) == (Weekday(t) + 1) % 7
  {
    hide *;
    AddDayIsADay(t);
    NextOf7(t, AddDay(t));
  }

  lemma NextOf7(t: Civil, u: Civil)
    requires Valid(t) && Valid(u) && DayNumber(u) == DayNumber(t) + 1
    ensures Weekday(u) == (Weekday(t) + 1) % 7
  {
    hide DayNumber;
  }

  // The Unix epoch was a Thursday, at the number of seconds that package time has
  // for it, and the millennium began on a Monday.
  lemma KnownDates()
    ensures Weekday(Civil(1970, 1, 1, 0, 0, 0)) == 4 && Seconds(Civil(1970, 1, 1, 0, 0, 0)) == 62135596800
    ensures Weekday(Civil(2001, 1, 1, 0, 0, 0)) == 1
  {
    hide *;
    NewYear(1970, 719162);
    NewYear(2001, 730485);
  }

  lemma NewYear(y: int, n: int)
    requires 365 * (y - 1) + (y - 1) / 4 - (y - 1) / 100 + (y - 1) / 400 == n
    ensures var t := Civil(y, 1, 1, 0, 0, 0); Weekday(t) == (n + 1) % 7 && Seconds(t) == n * 86400
  {
    hide DaysIn;
  }

  // Whatever the year, which days a month has.
  lemma MonthEnds(y: int, m: int, d: int)
    requires 1 <= m <= 12
    ensures var most :=
        if m == 4 || m == 6 || m == 9 || m == 11 then 30
        else if m != 2 then 31
        else if y % 400 == 0 || (y % 4 == 0 && y % 100 != 0) then 29
        else 28;
      Valid(Civil(y, m, d, 0, 0, 0)) <==> 1 <= d <= most
  {
    LeapIs(y);
    hide Leap;
  }

  lemma LeapIs(y: int)
    ensures Leap(y) <==> y % 400 == 0 || (y % 4 == 0 && y % 100 != 0)
  {
    Fourth(y);
  }

  lemma Fourth(y: int)
    ensures y % 400 == 0 ==> y % 4 == 0 && y % 100 == 0
  {
  }

  // Each operation adds the span of time its name says, across every boundary.
  lemma AddHourIsExact(t: Civil)
    requires Valid(t)
    ensures Valid(AddHour(t)) && Seconds(AddHour(t)) == Seconds(t) + 3600
  {
    AddDayIsADay(t);
    assert DayNumber(AddDay(t).(hour := 0)) == DayNumber(AddDay(t));
    assert t.hour < 23 ==> DayNumber(t.(hour := t.hour + 1)) == DayNumber(t);
  }

  lemma AddMinuteIsExact(t: Civil)
    requires Valid(t)
    ensures Valid(AddMinute(t)) && Seconds(AddMinute(t)) == Seconds(t) + 60
  {
    AddHourIsExact(t);
    assert AddHour(t).minute == t.minute;
    assert DayNumber(AddHour(t).(minute := 0)) == DayNumber(AddHour(t));
    assert t.minute < 59 ==> DayNumber(t.(minute := t.minute + 1)) == DayNumber(t);
  }

  lemma AddSecondIsExact(t: Civil)
    requires Valid(t)
    ensures Valid(AddSecond(t)) && Seconds(AddSecond(t)) == Seconds(t) + 1
  {
    AddMinuteIsExact(t);
    assert AddMinute(t).second == t.second;
    assert DayNumber(AddMinute(t).(second := 0)) == DayNumber(AddMinute(t));
    assert t.second < 59 ==> DayNumber(t.(second := t.second + 1)) == DayNumber(t);
  }

  lemma AddMonthIsExact(t: Civil)
    requires Valid(t)
    ensures Valid(AddMonth(t)) && Seconds(AddMonth(t)) == Seconds(t) + 86400 * DaysIn(t.year, t.month)
  {
    var y := if t.month == 12 then t.year + 1 else t.year;
    var m := if t.month == 12 then 1 else t.month + 1;
    MonthAfter(t.year, t.month, y, m);
    OverflowDay(t, y, m);
    hide DaysBeforeYear, DaysBeforeMonth, DaysIn, AddMonth;
  }

  lemma OverflowDay(t: Civil, y: int, m: int)
    requires Valid(t) && y == (if t.month == 12 then t.year + 1 else t.year) && m == (if t.month == 12 then 1 else t.month + 1)
    ensures Valid(AddMonth(t)) && SecondOfDay(AddMonth(t)) == SecondOfDay(t)
    ensures DayNumber(AddMonth(t)) == DaysBeforeYear(y) + DaysBeforeMonth(y, m) + t.day - 1
  {
    hide DaysBeforeYear;
    if t.day > DaysIn(y, m) {
      assert m <= 11 && DaysBeforeMonth(y, m + 1) == DaysBeforeMonth(y, m) + DaysIn(y, m);
    }
  }

  lemma MonthAfter(y: int, m: int, z: int, n: int)
    requires 1 <= m <= 12 && z == (if m == 12 then y + 1 else y) && n == (if m == 12 then 1 else m + 1)
    ensures DaysBeforeYear(z) + DaysBeforeMonth(z, n) == DaysBeforeYear(y) + DaysBeforeMonth(y, m) + DaysIn(y, m)
    ensures DaysIn(y, m) <= 31 && (DaysIn(z, n) < 31 ==> n <= 11)
  {
    if m == 12 { YearLength(y); }
    hide DaysBeforeYear;
    assert DaysBeforeMonth(y, m + 1) == DaysBeforeMonth(y, m) + DaysIn(y, m);
    assert DaysBeforeMonth(z, 1) == 0;
  }

  // Truncate rounds the absolute time down to a multiple of the hour or minute.
  lemma TruncatesAreFloors(t: Civil)
    requires Valid(t)
    ensures Seconds(TruncateHour(t)) == Seconds(t) - Seconds(t) % 3600
    ensures Seconds(TruncateMinute(t)) == Seconds(t) - Seconds(t) % 60
  {
    var h := DayNumber(t) * 24 + t.hour;
    assert Seconds(t) == h * 3600 + (t.minute * 60 + t.second);
    assert Seconds(t) == (h * 60 + t.minute) * 60 + t.second;
    Remainder(h, 3600, t.minute * 60 + t.second);
    Remainder(h * 60 + t.minute, 60, t.second);
  }

  lemma Remainder(q: int, k: int, r: int)
    requires 0 <= r < k
    ensures (q * k + r) % k == r
  {
    var x := q * k + r;
    assert x == (x / k) * k + x % k;
    var d := q - x / k;
    assert d * k == x % k - r;
    assert d >= 1 ==> d * k >= k;
    assert d <= -1 ==> d * k <= -k;
  }
}

// 64-bit words, each given by the positions of its one bits.
module Words {
  type Word = set<nat>

  const ZERO: Word := {}
  const ONE: Word := {0}
  const ALL_ONES: Word := set i: nat | i < 64

  function And(a: Word, b: Word): Word {
    a * b
  }

  function Or(a: Word, b: Word): Word {
    a + b
  }

  function Not(a: Word): Word {
    ALL_ONES - a
  }

  // a << n, where the bits shifted past the top are lost.
  function Shl(a: Word, n: nat): Word {
    set i | i in a && i + n < 64 :: i + n
  }
}

module Cron {
  import opened Calendar
  import opened Words

  datatype Option<T> = None | Some(value: T)

  datatype Schedule = Schedule(second: Word, minute: Word, hour: Word, dom: Word, month: Word, dow: Word)

  // 1<<i & mask != 0
  predicate Bit(mask: Word, i: nat) {
    And(Shl(ONE, i), mask) != ZERO
  }

  const STAR_BIT: nat := 63

  predicate MonthMatches(s: Schedule, t: Civil)
    requires Valid(t)
  {
    Bit(s.month, t.month)
  }

  predicate DayMatches(s: Schedule, t: Civil)
    requires Valid(t)
  {
    var domMatch := Bit(s.dom, t.day);
    var dowMatch := Bit(s.dow, Weekday(t));
    if Bit(s.dom, STAR_BIT) || Bit(s.dow, STAR_BIT) then domMatch && dowMatch else domMatch || dowMatch
  }

  predicate HourMatches(s: Schedule, t: Civil)
    requires Valid(t)
  {
    Bit(s.hour, t.hour)
  }

  predicate MinuteMatches(s: Schedule, t: Civil)
    requires Valid(t)
  {
    Bit(s.minute, t.minute)
  }

  predicate SecondMatches(s: Schedule, t: Civil)
    requires Valid(t)
  {
    Bit(s.second, t.second)
  }

  // The instants at which a schedule is due.
  predicate Matches(s: Schedule, t: Civil) {
    Valid(t) && MonthMatches(s, t) && DayMatches(s, t) && HourMatches(s, t) && MinuteMatches(s, t) && SecondMatches(s, t)
  }

  // The whole second u is strictly later than t plus nanos nanoseconds.
  predicate Later(u: Civil, t: Civil, nanos: nat)
    requires Valid(t) && Valid(u)
  {
    Seconds(u) * 1_000_000_000 > Seconds(t) * 1_000_000_000 + nanos
  }

  // The last year the search looks at.
  function Horizon(t: Civil): int
    requires Valid(t)
  {
    AddSecond(t).year + 5
  }

  // r is the least due instant after t, or there is none up to the horizon.
  ghost predicate IsNext(s: Schedule, t: Civil, nanos: nat, r: Option<Civil>)
    requires Valid(t)
  {
    match r
    case Some(n) =>
      && Matches(s, n) && Later(n, t, nanos) && n.year <= Horizon(t)
      && (forall u {:trigger Matches(s, u)} :: Matches(s, u) && Later(u, t, nanos) ==> Seconds(n) <= Seconds(u))
    case None =>
      forall u {:trigger Matches(s, u)} :: Matches(s, u) && Later(u, t, nanos) ==> u.year > Horizon(t)
  }

  // ---------- the search ----------

  predicate Midnight(t: Civil) {
    t.hour == 0 && t.minute == 0 && t.second == 0
  }

  // Once a field has been stepped, every field below the first one that does
  // not match is at its minimum, so stepping it again cannot skip an instant.
  predicate Aligned(s: Schedule, t: Civil)
    requires Valid(t)
  {
    if !MonthMatches(s, t) then t.day == 1 && Midnight(t)
    else if !DayMatches(s, t) then Midnight(t)
    else if !HourMatches(s, t) then t.minute == 0 && t.second == 0
    else if !MinuteMatches(s, t) then t.second == 0
    else true
  }

  // No instant from start up to but not including t is due.
  ghost predicate NoneDue(s: Schedule, start: Civil, t: Civil) {
    forall u {:trigger Matches(s, u)} :: Matches(s, u) && !Before(u, start) ==> !Before(u, t)
  }

  // What holds whenever the search is at t.
  ghost predicate At(s: Schedule, start: Civil, added: bool, t: Civil) {
    Valid(t) && !Before(t, start) && NoneDue(s, start, t) && (added ==> Aligned(s, t))
  }

  // The times from t up to the next month, day, hour or minute agree with t on
  // the fields above the one stepped.
  lemma MonthSpan(t: Civil, v: Civil)
    requires Valid(t) && Valid(v) && !Before(v, t) && Before(v, AddMonth(Civil(t.year, t.month, 1, 0, 0, 0)))
    ensures v.month == t.month
  {
  }

  lemma DaySpan(t: Civil, v: Civil)
    requires Valid(t) && Valid(v) && !Before(v, t) && Before(v, AddDay(Civil(t.year, t.month, t.day, 0, 0, 0)))
    ensures SameDate(v, t)
  {
  }

  lemma HourSpan(t: Civil, v: Civil)
    requires Valid(t) && Valid(v) && !Before(v, t) && Before(v, AddHour(TruncateHour(t)))
    ensures SameDate(v, t) && v.hour == t.hour
  {
  }

  lemma MinuteSpan(t: Civil, v: Civil)
    requires Valid(t) && Valid(v) && !Before(v, t) && Before(v, AddMinute(TruncateMinute(t)))
    ensures SameDate(v, t) && v.hour == t.hour && v.minute == t.minute
  {
  }

  lemma SecondSpan(t: Civil, v: Civil)
    requires Valid(t) && Valid(v) && !Before(v, t) && Before(v, AddSecond(t))
    ensures v == t
  {
  }

  lemma SameDayMatches(s: Schedule, t: Civil, u: Civil)
    requires Valid(t) && Valid(u) && SameDate(t, u)
    ensures MonthMatches(s, t) == MonthMatches(s, u) && DayMatches(s, t) == DayMatches(s, u)
  {
    hide Bit;
    assert DayNumber(u) == DayNumber(t);
  }

  // Stepping from a time that does not match to the first time that differs in
  // the failing field skips nothing due.
  lemma SkipMonth(s: Schedule, start: Civil, t: Civil, u: Civil)
    requires Valid(t) && !MonthMatches(s, t) && NoneDue(s, start, t) && !Before(t, start)
    requires u == AddMonth(Civil(t.year, t.month, 1, 0, 0, 0))
    ensures At(s, start, true, u) && Before(t, u)
    ensures u.month != 1 ==> u.year == t.year
  {
    hide Bit, DayMatches, HourMatches, MinuteMatches, SecondMatches, Seconds;
    AddMonthIsExact(Civil(t.year, t.month, 1, 0, 0, 0));
    forall v | Matches(s, v) && !Before(v, start) ensures !Before(v, u) {
      if Before(v, u) { MonthSpan(t, v); }
    }
  }

  lemma SkipDay(s: Schedule, start: Civil, t: Civil, u: Civil)
    requires Valid(t) && MonthMatches(s, t) && !DayMatches(s, t) && NoneDue(s, start, t) && !Before(t, start)
    requires u == AddDay(Civil(t.year, t.month, t.day, 0, 0, 0))
    ensures At(s, start, true, u) && Before(t, u)
    ensures u.day != 1 ==> MonthMatches(s, u) && u.year == t.year
  {
    hide Bit, DayMatches, HourMatches, MinuteMatches, SecondMatches, DayNumber;
    AddDayIsADay(Civil(t.year, t.month, t.day, 0, 0, 0));
    forall v | Matches(s, v) && !Before(v, start) ensures !Before(v, u) {
      if Before(v, u) { DaySpan(t, v); SameDayMatches(s, v, t); }
    }
  }

  lemma SkipHour(s: Schedule, start: Civil, t: Civil, u: Civil)
    requires Valid(t) && MonthMatches(s, t) && DayMatches(s, t) && !HourMatches(s, t)
    requires NoneDue(s, start, t) && !Before(t, start)
    requires u == AddHour(TruncateHour(t))
    ensures At(s, start, true, u) && Before(t, u)
    ensures u.hour != 0 ==> MonthMatches(s, u) && DayMatches(s, u) && u.year == t.year
  {
    hide Bit, DayMatches, MinuteMatches, SecondMatches, DayNumber, Seconds;
    AddHourIsExact(TruncateHour(t));
    if SameDate(t, u) { SameDayMatches(s, t, u); }
    forall v | Matches(s, v) && !Before(v, start) ensures !Before(v, u) {
      if Before(v, u) { HourSpan(t, v); }
    }
  }

  lemma SkipMinute(s: Schedule, start: Civil, t: Civil, u: Civil)
    requires Valid(t) && MonthMatches(s, t) && DayMatches(s, t) && HourMatches(s, t) && !MinuteMatches(s, t)
    requires NoneDue(s, start, t) && !Before(t, start)
    requires u == AddMinute(TruncateMinute(t))
    ensures At(s, start, true, u) && Before(t, u)
    ensures u.minute != 0 ==> MonthMatches(s, u) && DayMatches(s, u) && HourMatches(s, u) && u.year == t.year
  {
    hide Bit, DayMatches, SecondMatches, DayNumber, Seconds;
    AddMinuteIsExact(TruncateMinute(t));
    if SameDate(t, u) { SameDayMatches(s, t, u); }
    forall v | Matches(s, v) && !Before(v, start) ensures !Before(v, u) {
      if Before(v, u) { MinuteSpan(t, v); }
    }
  }

  lemma SkipSecond(s: Schedule, start: Civil, t: Civil, u: Civil)
    requires Valid(t) && MonthMatches(s, t) && DayMatches(s, t) && HourMatches(s, t) && MinuteMatches(s, t) && !SecondMatches(s, t)
    requires NoneDue(s, start, t) && !Before(t, start)
    requires u == AddSecond(t)
    ensures At(s, start, true, u) && Before(t, u)
    ensures u.second != 0 ==> MonthMatches(s, u) && DayMatches(s, u) && HourMatches(s, u) && MinuteMatches(s, u) && u.year == t.year
  {
    hide Bit, DayMatches, DayNumber, Seconds;
    AddSecondIsExact(t);
    if SameDate(t, u) { SameDayMatches(s, t, u); }
    forall v | Matches(s, v) && !Before(v, start) ensures !Before(v, u) {
      if Before(v, u) { SecondSpan(t, v); }
    }
  }

  lemma LaterIsFromStart(t: Civil, nanos: nat, u: Civil)
    requires Valid(t) && Valid(u) && nanos < 1_000_000_000
    ensures Later(u, t, nanos) <==> !Before(u, AddSecond(t))
  {
    AddSecondIsExact(t);
    OrderAgrees(u, AddSecond(t));
    hide Seconds;
  }

  lemma FoundIsNext(s: Schedule, t: Civil, nanos: nat, added: bool, n: Civil)
    requires Valid(t) && nanos < 1_000_000_000 && Valid(AddSecond(t))
    requires Matches(s, n) && At(s, AddSecond(t), added, n) && n.year <= Horizon(t)
    ensures IsNext(s, t, nanos, Some(n))
  {
    hide Seconds, MonthMatches, DayMatches, HourMatches, MinuteMatches, SecondMatches;
    LaterIsFromStart(t, nanos, n);
    forall u {:trigger Matches(s, u)} | Matches(s, u) && Later(u, t, nanos) ensures Seconds(n) <= Seconds(u) {
      LaterIsFromStart(t, nanos, u);
      OrderAgrees(u, n);
    }
  }

  lemma ExhaustedIsNext(s: Schedule, t: Civil, nanos: nat, at: Civil)
    requires Valid(t) && nanos < 1_000_000_000 && Valid(AddSecond(t)) && Valid(at)
    requires NoneDue(s, AddSecond(t), at) && at.year > Horizon(t)
    ensures IsNext(s, t, nanos, None)
  {
    hide Seconds, MonthMatches, DayMatches, HourMatches, MinuteMatches, SecondMatches;
    forall u {:trigger Matches(s, u)} | Matches(s, u) && Later(u, t, nanos) ensures u.year > Horizon(t) {
      LaterIsFromStart(t, nanos, u);
    }
  }

  lemma StartAt(s: Schedule, t: Civil)
    requires Valid(t)
    ensures At(s, t, false, t)
  {
  }

  // Where a step starts once the lower fields are at their minimum, whether they
  // were just reset or already were.
  lemma AlignedMonth(s: Schedule, was: Civil, t: Civil)
    requires Valid(was) && !MonthMatches(s, was)
    requires t == Civil(was.year, was.month, 1, 0, 0, 0) || (t == was && Aligned(s, was))
    ensures t == Civil(was.year, was.month, 1, 0, 0, 0)
  {
  }

  lemma AlignedDay(s: Schedule, was: Civil, t: Civil)
    requires Valid(was) && MonthMatches(s, was) && !DayMatches(s, was)
    requires t == Civil(was.year, was.month, was.day, 0, 0, 0) || (t == was && Aligned(s, was))
    ensures t == Civil(was.year, was.month, was.day, 0, 0, 0)
  {
  }

  lemma AlignedHour(s: Schedule, was: Civil, t: Civil)
    requires Valid(was) && MonthMatches(s, was) && DayMatches(s, was) && !HourMatches(s, was)
    requires t == TruncateHour(was) || (t == was && Aligned(s, was))
    ensures t == TruncateHour(was)
  {
  }

  lemma AlignedMinute(s: Schedule, was: Civil, t: Civil)
    requires Valid(was) && MonthMatches(s, was) && DayMatches(s, was) && HourMatches(s, was) && !MinuteMatches(s, was)
    requires t == TruncateMinute(was) || (t == was && Aligned(s, was))
    ensures t == TruncateMinute(was)
  {
  }

  // How far the search still has to go.
  function Left(t: Civil, limit: int): int
    requires 1 <= t.month <= 12
  {
    Seconds(Civil(limit + 2, 1, 1, 0, 0, 0)) - Seconds(t)
  }

  lemma LeftShrinks(t: Civil, u: Civil, limit: int)
    requires Valid(t) && Valid(u) && Before(t, u) && t.year <= limit
    ensures 0 <= Left(t, limit) && Left(u, limit) < Left(t, limit)
  {
    BeforeIsEarlier(t, Civil(limit + 2, 1, 1, 0, 0, 0));
    BeforeIsEarlier(t, u);
  }

  // t was reached from head without passing a due instant, and the year is in range.
  ghost predicate Searching(s: Schedule, start: Civil, head: Civil, added: bool, t: Civil, limit: int) {
    At(s, start, added, t) && t.year <= limit && Valid(head) && head.year <= limit && (t == head || Before(head, t))
  }

  // One step of a field loop, from was to u: u is further on, so the measures
  // of both loops shrink, and it is in range unless the step wrapped.
  lemma Progress(start: Civil, head: Civil, was: Civil, u: Civil, limit: int)
    requires Valid(head) && Valid(was) && Valid(u) && head.year <= limit && was.year <= limit
    requires (was == head || Before(head, was)) && Before(was, u)
    ensures Before(head, u)
    ensures 0 <= Left(was, limit) && Left(u, limit) < Left(was, limit)
    ensures 0 <= Left(head, limit) && Left(u, limit) < Left(head, limit)
  {
    hide Left;
    LeftShrinks(was, u, limit);
    LeftShrinks(head, u, limit);
  }

  lemma MonthStep(s: Schedule, start: Civil, head: Civil, added: bool, was: Civil, t: Civil, u: Civil, limit: int)
    requires Searching(s, start, head, added, was, limit) && !MonthMatches(s, was)
    requires t == (if added then was else Civil(was.year, was.month, 1, 0, 0, 0)) && Valid(t) && u == AddMonth(t)
    ensures At(s, start, true, u) && Before(head, u)
    ensures 0 <= Left(was, limit) && Left(u, limit) < Left(was, limit)
    ensures 0 <= Left(head, limit) && Left(u, limit) < Left(head, limit)
    ensures u.month != 1 ==> Searching(s, start, head, true, u, limit)
  {
    hide Seconds, Bit, DayMatches, NoneDue, Left;
    AlignedMonth(s, was, t);
    SkipMonth(s, start, was, u);
    Progress(start, head, was, u, limit);
  }

  lemma DayStep(s: Schedule, start: Civil, head: Civil, added: bool, was: Civil, t: Civil, u: Civil, limit: int)
    requires Searching(s, start, head, added, was, limit) && MonthMatches(s, was) && !DayMatches(s, was)
    requires t == (if added then was else Civil(was.year, was.month, was.day, 0, 0, 0)) && Valid(t) && u == AddDay(t)
    ensures At(s, start, true, u) && Before(head, u)
    ensures 0 <= Left(was, limit) && Left(u, limit) < Left(was, limit)
    ensures 0 <= Left(head, limit) && Left(u, limit) < Left(head, limit)
    ensures u.day != 1 ==> Searching(s, start, head, true, u, limit) && MonthMatches(s, u)
  {
    hide Seconds, Bit, DayMatches, NoneDue, Left;
    AlignedDay(s, was, t);
    SkipDay(s, start, was, u);
    Progress(start, head, was, u, limit);
  }

  lemma HourStep(s: Schedule, start: Civil, head: Civil, added: bool, was: Civil, t: Civil, u: Civil, limit: int)
    requires Searching(s, start, head, added, was, limit) && MonthMatches(s, was) && DayMatches(s, was) && !HourMatches(s, was)
    requires t == (if added then was else TruncateHour(was)) && Valid(t) && u == AddHour(t)
    ensures At(s, start, true, u) && Before(head, u)
    ensures 0 <= Left(was, limit) && Left(u, limit) < Left(was, limit)
    ensures 0 <= Left(head, limit) && Left(u, limit) < Left(head, limit)
    ensures u.hour != 0 ==> Searching(s, start, head, true, u, limit) && MonthMatches(s, u) && DayMatches(s, u)
  {
    hide Seconds, Bit, DayMatches, NoneDue, Left;
    AlignedHour(s, was, t);
    SkipHour(s, start, was, u);
    Progress(start, head, was, u, limit);
  }

  lemma MinuteStep(s: Schedule, start: Civil, head: Civil, added: bool, was: Civil, t: Civil, u: Civil, limit: int)
    requires Searching(s, start, head, added, was, limit) && MonthMatches(s, was) && DayMatches(s, was) && HourMatches(s, was) && !MinuteMatches(s, was)
    requires t == (if added then was else TruncateMinute(was)) && Valid(t) && u == AddMinute(t)
    ensures At(s, start, true, u) && Before(head, u)
    ensures 0 <= Left(was, limit) && Left(u, limit) < Left(was, limit)
    ensures 0 <= Left(head, limit) && Left(u, limit) < Left(head, limit)
    ensures u.minute != 0 ==> Searching(s, start, head, true, u, limit) && MonthMatches(s, u) && DayMatches(s, u) && HourMatches(s, u)
  {
    hide Seconds, Bit, DayMatches, NoneDue, Left;
    AlignedMinute(s, was, t);
    SkipMinute(s, start, was, u);
    Progress(start, head, was, u, limit);
  }

  lemma SecondStep(s: Schedule, start: Civil, head: Civil, added: bool, was: Civil, t: Civil, u: Civil, limit: int)
    requires Searching(s, start, head, added, was, limit) && MonthMatches(s, was) && DayMatches(s, was) && HourMatches(s, was) && MinuteMatches(s, was) && !SecondMatches(s, was)
    requires t == (if added then was else TruncateSecond(was)) && Valid(t) && u == AddSecond(t)
    ensures At(s, start, true, u) && Before(head, u)
    ensures 0 <= Left(was, limit) && Left(u, limit) < Left(was, limit)
    ensures 0 <= Left(head, limit) && Left(u, limit) < Left(head, limit)
    ensures u.second != 0 ==> Searching(s, start, head, true, u, limit) && MonthMatches(s, u) && DayMatches(s, u) && HourMatches(s, u) && MinuteMatches(s, u)
  {
    hide Seconds, Bit, DayMatches, NoneDue, Left;
    SkipSecond(s, start, was, u);
    Progress(start, head, was, u, limit);
  }

  // SpecSchedule.Next. The time given is t and nanos nanoseconds; the zero time
  // it returns when nothing is due within the horizon is None.
  method Next(s: Schedule, t0: Civil, nanos: nat) returns (r: Option<Civil>)
    requires Valid(t0) && nanos < 1_000_000_000
    ensures IsNext(s, t0, nanos, r)
  {
    hide Seconds, AddMonth, AddDay, AddHour, AddMinute, AddSecond, NoneDue, Aligned, IsNext, Left, Before;
    hide MonthMatches, DayMatches, HourMatches, MinuteMatches, SecondMatches;
    // Start at the upcoming whole second.
    var t := AddSecond(t0);
    AddSecondIsExact(t0);
    ghost var start := t;
    StartAt(s, start);
    var added := false;
    var yearLimit := t.year + 5;

    label WRAP:
    while true
      invariant At(s, start, added, t)
      decreases Left(t, yearLimit)
    {
      if t.year > yearLimit {
        ExhaustedIsNext(s, t0, nanos, t);
        return None;
      }
      ghost var head := t;

      while !MonthMatches(s, t)
        invariant Searching(s, start, head, added, t, yearLimit)
        decreases Left(t, yearLimit)
      {
        ghost var was, wasAdded := t, added;
        if !added {
          added := true;
          t := Civil(t.year, t.month, 1, 0, 0, 0);
        }
        ghost var from := t;
        t := AddMonth(t);
        MonthStep(s, start, head, wasAdded, was, from, t, yearLimit);
        if t.month == 1 {
          continue WRAP;
        }
      }

      while !DayMatches(s, t)
        invariant Searching(s, start, head, added, t, yearLimit)
        invariant MonthMatches(s, t)
        decreases Left(t, yearLimit)
      {
        ghost var was, wasAdded := t, added;
        if !added {
          added := true;
          t := Civil(t.year, t.month, t.day, 0, 0, 0);
        }
        ghost var from := t;
        t := AddDay(t);
        DayStep(s, start, head, wasAdded, was, from, t, yearLimit);
        if t.day == 1 {
          continue WRAP;
        }
      }

      while !HourMatches(s, t)
        invariant Searching(s, start, head, added, t, yearLimit)
        invariant MonthMatches(s, t)
        invariant DayMatches(s, t)
        decreases Left(t, yearLimit)
      {
        ghost var was, wasAdded := t, added;
        if !added {
          added := true;
          t := TruncateHour(t);
        }
        ghost var from := t;
        t := AddHour(t);
        HourStep(s, start, head, wasAdded, was, from, t, yearLimit);
        if t.hour == 0 {
          continue WRAP;
        }
      }

      while !MinuteMatches(s, t)
        invariant Searching(s, start, head, added, t, yearLimit)
        invariant MonthMatches(s, t)
        invariant DayMatches(s, t)
        invariant HourMatches(s, t)
        decreases Left(t, yearLimit)
      {
        ghost var was, wasAdded := t, added;
        if !added {
          added := true;
          t := TruncateMinute(t);
        }
        ghost var from := t;
        t := AddMinute(t);
        MinuteStep(s, start, head, wasAdded, was, from, t, yearLimit);
        if t.minute == 0 {
          continue WRAP;
        }
      }

      while !SecondMatches(s, t)
        invariant Searching(s, start, head, added, t, yearLimit)
        invariant MonthMatches(s, t)
        invariant DayMatches(s, t)
        invariant HourMatches(s, t)
        invariant MinuteMatches(s, t)
        decreases Left(t, yearLimit)
      {
        ghost var was, wasAdded := t, added;
        if !added {
          added := true;
          t := TruncateSecond(t);
        }
        ghost var from := t;
        t := AddSecond(t);
        SecondStep(s, start, head, wasAdded, was, from, t, yearLimit);
        if t.second == 0 {
          continue WRAP;
        }
      }

      FoundIsNext(s, t0, nanos, added, t);
      return Some(t);
    }
  }

  // The search covers the year it is asked in and the five after it, and goes at
  // most one year on, when it is asked in the last second of a year.
  lemma SearchSpan(s: Schedule, t: Civil, nanos: nat, r: Option<Civil>)
    requires Valid(t) && IsNext(s, t, nanos, r)
    ensures r == None ==> forall u :: Matches(s, u) && Later(u, t, nanos) ==> u.year > t.year + 5
    ensures r.Some? ==> r.value.year <= t.year + 5 || (t.month == 12 && t.day == 31 && r.value.year == t.year + 6)
  {
    hide Matches, Later;
    OneSecondOn(t);
  }

  lemma OneSecondOn(t: Civil)
    requires Valid(t)
    ensures AddSecond(t).year == t.year || (AddSecond(t).year == t.year + 1 && t.month == 12 && t.day == 31)
  {
  }

  // ---------- consequences for repeated calls ----------

  lemma NextIsUnique(s: Schedule, t: Civil, nanos: nat, r1: Option<Civil>, r2: Option<Civil>)
    requires Valid(t) && IsNext(s, t, nanos, r1) && IsNext(s, t, nanos, r2)
    ensures r1 == r2
  {
    hide Seconds, MonthMatches, DayMatches, HourMatches, MinuteMatches, SecondMatches, Horizon;
    if r1.Some? && r2.Some? {
      OrderAgrees(r1.value, r2.value);
    }
  }

  lemma HorizonGrows(t: Civil, u: Civil)
    requires Valid(t) && Valid(u) && Seconds(t) <= Seconds(u)
    ensures Horizon(t) <= Horizon(u)
  {
    AddSecondIsExact(t);
    AddSecondIsExact(u);
    OrderAgrees(AddSecond(u), AddSecond(t));
    hide Seconds;
  }

  // Asking again at any instant before the answer gives the same answer.
  lemma NextIsStable(s: Schedule, t1: Civil, n1: nat, t2: Civil, n2: nat, r: Civil)
    requires Valid(t1) && Valid(t2) && n1 < 1_000_000_000 && n2 < 1_000_000_000
    requires IsNext(s, t1, n1, Some(r))
    requires Seconds(t1) * 1_000_000_000 + n1 <= Seconds(t2) * 1_000_000_000 + n2
    requires Later(r, t2, n2)
    ensures IsNext(s, t2, n2, Some(r))
  {
    HorizonGrows(t1, t2);
    hide Seconds, MonthMatches, DayMatches, HourMatches, MinuteMatches, SecondMatches, Horizon;
  }

  // The answers of repeated calls, each asked at the one before.
  ghost predicate Chain(s: Schedule, ts: seq<Civil>) {
    && |ts| > 0 && (forall i :: 0 <= i < |ts| ==> Valid(ts[i]))
    && (forall i :: 0 <= i < |ts| - 1 ==> IsNext(s, ts[i], 0, Some(ts[i + 1])))
  }

  // Repeated calls list the due instants in order, with none skipped or repeated.
  lemma {:induction false} ChainEnumerates(s: Schedule, ts: seq<Civil>, u: Civil)
    requires Chain(s, ts) && Matches(s, u)
    requires Seconds(ts[0]) < Seconds(u) <= Seconds(ts[|ts| - 1])
    ensures exists i :: 0 < i < |ts| && ts[i] == u
    decreases |ts|
  {
    hide Seconds, MonthMatches, DayMatches, HourMatches, MinuteMatches, SecondMatches, Horizon;
    var n := |ts| - 1;
    assert n > 0;
    if Seconds(u) <= Seconds(ts[n - 1]) {
      var shorter := ts[..n];
      assert forall i :: 0 <= i < |shorter| - 1 ==> IsNext(s, shorter[i], 0, Some(shorter[i + 1]));
      ChainEnumerates(s, shorter, u);
      var i :| 0 < i < |shorter| && shorter[i] == u;
      assert ts[i] == u;
    } else {
      assert IsNext(s, ts[n - 1], 0, Some(ts[n]));
      OrderAgrees(u, ts[n]);
      assert ts[n] == u;
    }
  }

  lemma {:induction false} ChainAscends(s: Schedule, ts: seq<Civil>, i: nat, j: nat)
    requires Chain(s, ts) && i < j < |ts|
    ensures Seconds(ts[i]) < Seconds(ts[j]) && Matches(s, ts[j])
    decreases j
  {
    hide Seconds, MonthMatches, DayMatches, HourMatches, MinuteMatches, SecondMatches, Horizon;
    assert IsNext(s, ts[j - 1], 0, Some(ts[j]));
    if i < j - 1 {
      ChainAscends(s, ts, i, j - 1);
    }
  }
}
