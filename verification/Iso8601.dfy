/** Timestamp arithmetic (Iso8601.h) against a day-by-day Gregorian calendar. */
module Iso8601 {

  /** The six numbers scanned from "2022-04-04T16:45:39". */
  datatype Fields = Fields(year: int, month: int, day: int, hour: int, minute: int, second: int)

  /** The only checks the scanner makes: no month lengths, and no lower bound on
      the time of day, so "-5" passes as an hour. */
  predicate Accepted(f: Fields) {
    && f.year >= 1970 && 1 <= f.month <= 12 && 1 <= f.day <= 31
    && f.hour <= 23 && f.minute <= 59 && f.second <= 60
  }

  /** Closed-form days since 1970-01-01, in a year that starts on 1 March. */
  function DaysFromCivil(year: int, month: int, day: int): int
    requires year >= 1970 && 1 <= month <= 12
  {
    var y := if month <= 2 then year - 1 else year;
    var era := y / 400;
    var yoe := y - era * 400;
    var doy := (153 * (month + (if month > 2 then -3 else 9)) + 2) / 5 + day - 1;
    var doe := yoe * 365 + yoe / 4 - yoe / 100 + doy;
    era * 146097 + doe - 719468
  }

  /** Unix seconds, 0 when the fields are refused. */
  function Parse(f: Fields): int {
    if !Accepted(f) then 0
    else DaysFromCivil(f.year, f.month, f.day) * 86400 + f.hour * 3600 + f.minute * 60 + f.second
  }

  // ---- the calendar (RFC 3339, section 5.7 and Appendix C) -----------------

  predicate LeapYear(year: int) {
    year % 4 == 0 && (year % 100 != 0 || year % 400 == 0)
  }

  function MonthLength(year: int, month: int): int {
    if month == 2 then (if LeapYear(year) then 29 else 28)
    else if month in {4, 6, 9, 11} then 30
    else 31
  }

  function DaysBeforeYear(year: int): (n: int)
    requires year >= 1970
    decreases year
  {
    if year == 1970 then 0
    else DaysBeforeYear(year - 1) + (if LeapYear(year - 1) then 366 else 365)
  }

  function DaysBeforeMonth(year: int, month: int): int
    requires 1 <= month <= 12
    decreases month
  {
    if month == 1 then 0 else DaysBeforeMonth(year, month - 1) + MonthLength(year, month - 1)
  }

  predicate ValidDate(f: Fields) {
    && f.year >= 1970 && 1 <= f.month <= 12 && 1 <= f.day <= MonthLength(f.year, f.month)
  }

  /** A time of day as RFC 3339 writes it; 60 is the leap second. */
  predicate ValidTime(f: Fields) {
    0 <= f.hour <= 23 && 0 <= f.minute <= 59 && 0 <= f.second <= 60
  }

  // ---- the closed form is the calendar --------------------------------------

  /** Leap days before 1 March of year y, counted by the three division rules. */
  function LeapDays(y: int): int {
    y / 4 - y / 100 + y / 400
  }

  lemma LeapDaysStep(y: int)
    requires y >= 1
    ensures LeapDays(y) - LeapDays(y - 1) == if LeapYear(y) then 1 else 0
  {
    DivStep(y, 4);
    DivStep(y, 100);
    DivStep(y, 400);
    HundredsOfFour(y, y / 400);
    FoursOfHundred(y, y / 100);
  }

  lemma HundredsOfFour(y: int, q: int)
    ensures y == 400 * q ==> y % 100 == 0
  {
    assert 400 * q == 100 * (4 * q);
  }

  lemma FoursOfHundred(y: int, q: int)
    ensures y == 100 * q ==> y % 4 == 0
  {
    assert 100 * q == 4 * (25 * q);
  }

  lemma DivStep(y: int, n: int)
    requires y >= 1 && n in {4, 100, 400}
    ensures y / n - (y - 1) / n == if y % n == 0 then 1 else 0
  {
  }

  lemma {:induction false} YearsInClosedForm(year: int)
    requires year >= 1970
    ensures DaysBeforeYear(year) == 365 * (year - 1970) + LeapDays(year - 1) - LeapDays(1969)
    decreases year
  {
    if year > 1970 {
      YearsInClosedForm(year - 1);
      LeapDaysStep(year - 1);
    }
  }

  /** The 400-year split of the closed form is one linear formula. */
  lemma EraSplit(y: int)
    requires y >= 0
    ensures var era := y / 400;
            var yoe := y - era * 400;
            era * 146097 + yoe * 365 + yoe / 4 - yoe / 100 == 365 * y + LeapDays(y)
  {
    var era := y / 400;
    var yoe := y - era * 400;
    assert y / 4 == era * 100 + yoe / 4;
    assert y / 100 == era * 4 + yoe / 100;
  }

  /** The (153 m + 2) / 5 rule gives the days since 1 March. */
  lemma MonthsInClosedForm(year: int, month: int)
    requires 1 <= month <= 12
    ensures var doy := (153 * (month + (if month > 2 then -3 else 9)) + 2) / 5;
            DaysBeforeMonth(year, month) ==
            if month <= 2 then doy - 306 else doy + 59 + (if LeapYear(year) then 1 else 0)
  {
    MonthTable(year);
  }

  lemma MonthTable(year: int)
    ensures DaysBeforeMonth(year, 1) == 0 && DaysBeforeMonth(year, 2) == 31
    ensures var l := if LeapYear(year) then 1 else 0;
            && DaysBeforeMonth(year, 3) == 59 + l && DaysBeforeMonth(year, 4) == 90 + l
            && DaysBeforeMonth(year, 5) == 120 + l && DaysBeforeMonth(year, 6) == 151 + l
            && DaysBeforeMonth(year, 7) == 181 + l && DaysBeforeMonth(year, 8) == 212 + l
            && DaysBeforeMonth(year, 9) == 243 + l && DaysBeforeMonth(year, 10) == 273 + l
            && DaysBeforeMonth(year, 11) == 304 + l && DaysBeforeMonth(year, 12) == 334 + l
  {
  }

  /** For every accepted date, valid or not: a day past the end of its month
      counts on into the next one. */
  lemma DayCount(year: int, month: int, day: int)
    requires year >= 1970 && 1 <= month <= 12
    ensures DaysFromCivil(year, month, day) == DaysBeforeYear(year) + DaysBeforeMonth(year, month) + day - 1
  {
    var y := if month <= 2 then year - 1 else year;
    var doy := (153 * (month + (if month > 2 then -3 else 9)) + 2) / 5;
    assert DaysFromCivil(year, month, day) == 365 * y + LeapDays(y) + doy + day - 1 - 719468 by {
      EraSplit(y);
    }
    assert DaysBeforeYear(year) == 365 * year + LeapDays(year - 1) - 719527 by {
      YearsInClosedForm(year);
      assert LeapDays(1969) == 477;
    }
    MonthsInClosedForm(year, month);
    LeapDaysStep(year);
  }

  // ---- order ------------------------------------------------------------------

  predicate Before(a: Fields, b: Fields) {
    a.year < b.year || (a.year == b.year &&
    (a.month < b.month || (a.month == b.month &&
    (a.day < b.day || (a.day == b.day &&
    (a.hour < b.hour || (a.hour == b.hour &&
    (a.minute < b.minute || (a.minute == b.minute && a.second < b.second)))))))))
  }

  lemma {:induction false} MonthsAddUp(year: int, m: int, n: int)
    requires 1 <= m < n <= 12
    ensures DaysBeforeMonth(year, m) + MonthLength(year, m) <= DaysBeforeMonth(year, n)
    decreases n
  {
    if m < n - 1 {
      MonthsAddUp(year, m, n - 1);
    }
  }

  lemma {:induction false} YearsAddUp(y: int, z: int)
    requires 1970 <= y < z
    ensures DaysBeforeYear(y) + DaysBeforeMonth(y, 12) + 31 <= DaysBeforeYear(z)
    decreases z
  {
    MonthTable(y);
    if y < z - 1 {
      YearsAddUp(y, z - 1);
    }
  }

  predicate SameDate(a: Fields, b: Fields) {
    a.year == b.year && a.month == b.month && a.day == b.day
  }

  lemma DatesAreOrdered(a: Fields, b: Fields)
    requires ValidDate(a) && ValidDate(b) && !SameDate(a, b) && Before(a, b)
    ensures DaysFromCivil(a.year, a.month, a.day) < DaysFromCivil(b.year, b.month, b.day)
  {
    DayCount(a.year, a.month, a.day);
    DayCount(b.year, b.month, b.day);
    if a.year < b.year {
      YearsAddUp(a.year, b.year);
      if a.month < 12 {
        MonthsAddUp(a.year, a.month, 12);
      }
      if 1 < b.month {
        MonthsAddUp(b.year, 1, b.month);
      }
    } else if a.month < b.month {
      MonthsAddUp(a.year, a.month, b.month);
    }
  }

  function TimeOfDay(f: Fields): int {
    f.hour * 3600 + f.minute * 60 + f.second
  }

  /** Without leap seconds, timestamps order valid dates exactly. */
  lemma StrictlyIncreasing(a: Fields, b: Fields)
    requires ValidDate(a) && ValidTime(a) && a.second <= 59
    requires ValidDate(b) && ValidTime(b) && b.second <= 59
    ensures Parse(a) < Parse(b) <==> Before(a, b)
    ensures Parse(a) == Parse(b) <==> a == b
  {
    assert 0 <= TimeOfDay(a) < 86400 && 0 <= TimeOfDay(b) < 86400;
    if Before(a, b) && !SameDate(a, b) {
      DatesAreOrdered(a, b);
    }
    if Before(b, a) && !SameDate(a, b) {
      DatesAreOrdered(b, a);
    }
  }

  /** A leap second, which the check on seconds lets through, shares its stamp
      with the second after it, so strictness fails. */
  lemma LeapSecondCollides()
    ensures var leap, next := Fields(2016, 12, 31, 23, 59, 60), Fields(2017, 1, 1, 0, 0, 0);
            && ValidDate(leap) && ValidTime(leap) && ValidDate(next) && ValidTime(next)
            && Before(leap, next) && Parse(leap) == Parse(next)
  {
    YearsInClosedForm(2016);
    YearsInClosedForm(2017);
    DayCount(2016, 12, 31);
    DayCount(2017, 1, 1);
    MonthTable(2016);
    MonthTable(2017);
  }

  /** Earlier moments never get a later stamp, and collide only when the earlier
      one is a leap second. */
  lemma NeverDecreasing(a: Fields, b: Fields)
    requires ValidDate(a) && ValidTime(a) && ValidDate(b) && ValidTime(b) && Before(a, b)
    ensures Parse(a) <= Parse(b)
    ensures Parse(a) == Parse(b) ==> a.second == 60 && b.second == 0
    ensures a.second < 60 ==> Parse(a) < Parse(b)
  {
    assert 0 <= TimeOfDay(a) <= 86400 && 0 <= TimeOfDay(b) <= 86400;
    if !SameDate(a, b) {
      DatesAreOrdered(a, b);
    }
  }

  function NextDay(f: Fields): Fields
    requires ValidDate(f)
  {
    if f.day < MonthLength(f.year, f.month) then f.(day := f.day + 1)
    else if f.month < 12 then f.(month := f.month + 1, day := 1)
    else f.(year := f.year + 1, month := 1, day := 1)
  }

  /** The first second of the next minute. */
  function NextMinute(f: Fields): Fields
    requires ValidDate(f) && ValidTime(f)
  {
    if f.minute < 59 then f.(minute := f.minute + 1, second := 0)
    else if f.hour < 23 then f.(hour := f.hour + 1, minute := 0, second := 0)
    else NextDay(f).(hour := 0, minute := 0, second := 0)
  }

  lemma NextDayCounts(f: Fields)
    requires ValidDate(f)
    ensures var n := NextDay(f);
            ValidDate(n) && DaysFromCivil(n.year, n.month, n.day) == DaysFromCivil(f.year, f.month, f.day) + 1
  {
    hide DaysFromCivil;
    var n := NextDay(f);
    DayCount(f.year, f.month, f.day);
    DayCount(n.year, n.month, n.day);
    MonthTable(f.year);
  }

  /** So a stamp is below those of all later moments exactly when it is not a
      leap second: each leap second collides with the minute that follows it. */
  lemma StrictExactly(a: Fields)
    requires ValidDate(a) && ValidTime(a)
    ensures (forall b :: ValidDate(b) && ValidTime(b) && Before(a, b) ==> Parse(a) < Parse(b)) <==> a.second < 60
  {
    hide DaysFromCivil;
    if a.second < 60 {
      forall b | ValidDate(b) && ValidTime(b) && Before(a, b)
        ensures Parse(a) < Parse(b)
      {
        NeverDecreasing(a, b);
      }
    } else {
      var b := NextMinute(a);
      NextDayCounts(a);
      assert ValidDate(b) && ValidTime(b) && Before(a, b) && Parse(a) == Parse(b);
    }
  }

  /** What a field of two characters can hold when a minus sign is let through. */
  predicate Scanned(f: Fields) {
    f.hour >= -9 && f.minute >= -9 && f.second >= -9
  }

  /** 0 means "unknown" to the alert parser; only the epoch itself collides with it,
      written as midnight or with a negative part that the others make up for. */
  lemma ZeroMeansRefusedOrEpoch(f: Fields)
    requires Scanned(f)
    ensures Parse(f) == 0
            <==> !Accepted(f) || (SameDate(f, Fields(1970, 1, 1, 0, 0, 0)) && TimeOfDay(f) == 0)
    ensures Parse(f) < 0 <==> Accepted(f) && SameDate(f, Fields(1970, 1, 1, 0, 0, 0)) && TimeOfDay(f) < 0
  {
    if Accepted(f) {
      DayCount(f.year, f.month, f.day);
      DaysBeforeYearGrows(f.year);
      MonthTable(f.year);
    }
  }

  lemma {:induction false} DaysBeforeYearGrows(year: int)
    requires year >= 1970
    ensures DaysBeforeYear(year) >= 365 * (year - 1970)
    decreases year
  {
    if year > 1970 {
      DaysBeforeYearGrows(year - 1);
    }
  }

  /** A negative hour is accepted and gives a negative stamp. */
  lemma NegativeHourAccepted()
    ensures Parse(Fields(1970, 1, 1, -5, 0, 0)) == -18000
  {
    DayCount(1970, 1, 1);
  }
}
