/** Two independent date algorithms: time_sync.c counts years one by one, creds.c uses a closed form
    over 400-year eras. They must agree on every date. */
module Calendar {
  import opened Bytes

  /** C's / on int: truncation toward zero. */
  function CDiv(a: int, b: int): int
    requires b > 0
  {
    if a >= 0 then a / b else -(-a / b)
  }

  /** C's % on int: the sign of the dividend. */
  function CMod(a: int, b: int): int
    requires b > 0
  {
    a - CDiv(a, b) * b
  }

  /** is_leap(). */
  function IsLeap(y: int): int {
    if (CMod(y, 4) == 0 && CMod(y, 100) != 0) || CMod(y, 400) == 0 then 1 else 0
  }

  // ---------------------------------------------------------------- days_from_civil()

  /** Days since 1970-01-01, month 1 to 12; years start in March. */
  function DaysFromCivil(year: int, m: int, d: int): int {
    var y := if m <= 2 then year - 1 else year;
    var era := CDiv(if y >= 0 then y else y - 399, 400);
    var yoe := y - era * 400;
    var doy := CDiv(153 * (m + (if m > 2 then -3 else 9)) + 2, 5) + d - 1;
    var doe := yoe * 365 + CDiv(yoe, 4) - CDiv(yoe, 100) + doy;
    era * 146097 + doe - 719468
  }

  // ---------------------------------------------------------------- rmaker_timegm()

  const CUMULATIVE: seq<int> := [0, 31, 59, 90, 120, 151, 181, 212, 243, 273, 304, 334]

  /** tm_mon moved into range, carrying whole years. */
  function NormalizeMonth(year: int, month: int): (int, int) {
    if month < 0 then (year + CDiv(month - 11, 12), 12 + CMod(month, 12))
    else if month > 11 then (year + CDiv(month, 12), CMod(month, 12))
    else (year, month)
  }

  /** The carry lands inside the month table exactly when the month is not a negative multiple of 12
      (those give index 12); where it does, it keeps the month count since year 0. */
  lemma NormalizedMonth(year: int, month: int)
    ensures 0 <= NormalizeMonth(year, month).1 <= 11 <==> !(month < 0 && month % 12 == 0)
    ensures !(month < 0 && month % 12 == 0) ==>
      NormalizeMonth(year, month).0 * 12 + NormalizeMonth(year, month).1 == year * 12 + month
  {
  }

  /** Days of the years from a to b. */
  function YearsLength(a: int, b: int): int
    requires a <= b
    decreases b - a
  {
    if a == b then 0 else YearsLength(a, b - 1) + 365 + IsLeap(b - 1)
  }

  /** Days from 1970-01-01 to January 1st of year. */
  function DaysToYear(year: int): int {
    if year >= 1970 then YearsLength(1970, year) else -YearsLength(year, 1970)
  }

  /** The day number rmaker_timegm() reaches, month 0 to 11. */
  function TimegmDays(year: int, month: int, mday: int): int
    requires 0 <= month <= 11
  {
    DaysToYear(year) + CUMULATIVE[month] + (if month > 1 && IsLeap(year) == 1 then 1 else 0) + mday - 1
  }

  lemma {:induction false} YearsLengthFront(a: int, b: int)
    requires a < b
    ensures YearsLength(a, b) == 365 + IsLeap(a) + YearsLength(a + 1, b)
    decreases b - a
  {
    if a + 1 < b {
      YearsLengthFront(a, b - 1);
    }
  }

  /** rmaker_timegm(): the seconds of the broken-down time; None stands for a read past the month table. */
  method RmakerTimegm(tmYear: int, tmMon: int, mday: int, hour: int, min: int, sec: int) returns (seconds: Option<int>)
    ensures seconds.None? <==> tmMon < 0 && tmMon % 12 == 0
    ensures seconds.Some? ==> var (year, month) := NormalizeMonth(tmYear + 1900, tmMon);
      0 <= month <= 11 && seconds.value == TimegmDays(year, month, mday) * 86400 + hour * 3600 + min * 60 + sec
  {
    var year := tmYear + 1900;
    var month := tmMon;
    NormalizedMonth(year, month);
    if month < 0 {
      year := year + CDiv(month - 11, 12);
      month := 12 + CMod(month, 12);
    } else if month > 11 {
      year := year + CDiv(month, 12);
      month := CMod(month, 12);
    }
    var days := 0;
    if year >= 1970 {
      for y := 1970 to year
        invariant days == YearsLength(1970, y)
      {
        days := days + 365 + IsLeap(y);
      }
    } else {
      for y := year to 1970
        invariant days == -YearsLength(year, y)
      {
        days := days - (365 + IsLeap(y));
      }
    }
    if month >= |CUMULATIVE| {
      return None;
    }
    days := days + CUMULATIVE[month];
    if month > 1 && IsLeap(year) == 1 {
      days := days + 1;
    }
    days := days + (mday - 1);
    seconds := Some(days * 86400 + hour * 3600 + min * 60 + sec);
  }

  // ---------------------------------------------------------------- they agree

  /** Days before March 1st of year y, in closed form without eras (floor division). */
  function MarchDays(y: int): int { 365 * y + y / 4 - y / 100 + y / 400 }

  lemma EraForm(y: int)
    ensures var era := CDiv(if y >= 0 then y else y - 399, 400); var yoe := y - era * 400;
      && era == y / 400 && 0 <= yoe < 400
      && era * 146097 + yoe * 365 + CDiv(yoe, 4) - CDiv(yoe, 100) == MarchDays(y)
  {
    var era := CDiv(if y >= 0 then y else y - 399, 400);
    assert era == y / 400;
    var yoe := y - era * 400;
    assert y / 4 == era * 100 + yoe / 4;
    assert y / 100 == era * 4 + yoe / 100;
  }

  lemma CMod4Zero(y: int)
    ensures CMod(y, 4) == 0 <==> y % 4 == 0
  {
  }

  lemma CMod100Zero(y: int)
    ensures CMod(y, 100) == 0 <==> y % 100 == 0
  {
  }

  lemma CMod400Zero(y: int)
    ensures CMod(y, 400) == 0 <==> y % 400 == 0
  {
  }

  lemma MarchStep(y: int)
    ensures MarchDays(y) - MarchDays(y - 1) == 365 + IsLeap(y)
  {
    LeapIs(y);
    FloorStep(y, 4);
    FloorStep(y, 100);
    FloorStep(y, 400);
  }

  lemma FloorStep(y: int, n: int)
    requires n == 4 || n == 100 || n == 400
    ensures y / n - (y - 1) / n == if y % n == 0 then 1 else 0
  {
  }

  lemma LeapIs(y: int)
    ensures IsLeap(y) == (if y % 4 == 0 then 1 else 0) - (if y % 100 == 0 then 1 else 0) + (if y % 400 == 0 then 1 else 0)
  {
    CMod4Zero(y);
    CMod100Zero(y);
    CMod400Zero(y);
    Multiples(y);
  }

  lemma Multiples(y: int)
    ensures y % 400 == 0 ==> y % 100 == 0
    ensures y % 100 == 0 ==> y % 4 == 0
  {
    TimesMod(4 * (y / 400), 25 * (y / 100));
  }

  lemma TimesMod(a: int, b: int)
    ensures (100 * a) % 100 == 0 && (4 * b) % 4 == 0
  {
  }

  /** January 1st, by either algorithm. */
  lemma {:induction false} JanuaryFirst(year: int)
    ensures DaysToYear(year) == MarchDays(year - 1) - 719162
    decreases if year >= 1970 then year - 1970 else 1970 - year
  {
    if year > 1970 {
      JanuaryFirst(year - 1);
      MarchStep(year - 1);
    } else if year < 1970 {
      JanuaryFirst(year + 1);
      YearsLengthFront(year, 1970);
      MarchStep(year);
    }
  }

  /** The year-by-year count is the closed form, for every year, month and day number. */
  lemma DaysAgree(year: int, m: int, d: int)
    requires 1 <= m <= 12
    ensures TimegmDays(year, m - 1, d) == DaysFromCivil(year, m, d)
  {
    JanuaryFirst(year);
    EraForm(if m <= 2 then year - 1 else year);
    MarchStep(year);
  }

  /** The seconds rmaker_timegm() returns are what the credential code computes for the same fields. */
  method TimegmMatchesCivil(year: int, m: int, d: int, hour: int, min: int, sec: int) returns (seconds: int)
    requires 1 <= m <= 12
    ensures seconds == DaysFromCivil(year, m, d) * 86400 + hour * 3600 + min * 60 + sec
  {
    var r := RmakerTimegm(year - 1900, m - 1, d, hour, min, sec);
    DaysAgree(year, m, d);
    seconds := r.value;
  }

  // ---------------------------------------------------------------- the calendar itself

  function DaysInMonth(year: int, m: int): int
    requires 1 <= m <= 12
  {
    if m == 2 then 28 + IsLeap(year) else if m == 4 || m == 6 || m == 9 || m == 11 then 30 else 31
  }

  datatype Date = Date(year: int, month: int, day: int)

  predicate ValidDate(t: Date) { 1 <= t.month <= 12 && 1 <= t.day <= DaysInMonth(t.year, t.month) }

  /** The next day of the proleptic Gregorian calendar. */
  function NextDay(t: Date): (r: Date)
    requires ValidDate(t)
    ensures ValidDate(r)
  {
    if t.day < DaysInMonth(t.year, t.month) then Date(t.year, t.month, t.day + 1)
    else if t.month < 12 then Date(t.year, t.month + 1, 1)
    else Date(t.year + 1, 1, 1)
  }

  lemma MonthEnd(year: int, m: int)
    requires 1 <= m <= 11
    ensures TimegmDays(year, m, 1) == TimegmDays(year, m - 1, 1) + DaysInMonth(year, m)
  {
  }

  lemma YearEnd(year: int)
    ensures TimegmDays(year + 1, 0, 1) == TimegmDays(year, 11, 1) + 31
  {
    JanuaryFirst(year);
    JanuaryFirst(year + 1);
    MarchStep(year);
  }

  /** Stepping to the next calendar day is one more day, so exactly 86400 more seconds. */
  lemma NextDayIsOneDay(t: Date)
    requires ValidDate(t)
    ensures var n := NextDay(t); TimegmDays(n.year, n.month - 1, n.day) == TimegmDays(t.year, t.month - 1, t.day) + 1
    ensures var n := NextDay(t); DaysFromCivil(n.year, n.month, n.day) == DaysFromCivil(t.year, t.month, t.day) + 1
  {
    var n := NextDay(t);
    DaysAgree(t.year, t.month, t.day);
    DaysAgree(n.year, n.month, n.day);
    if t.month < 12 {
      MonthEnd(t.year, t.month);
    } else {
      YearEnd(t.year);
    }
  }

  function Advance(t: Date, n: nat): (r: Date)
    requires ValidDate(t)
    ensures ValidDate(r)
    decreases n
  {
    if n == 0 then t else Advance(NextDay(t), n - 1)
  }

  /** The date n days after t has the day number n higher, over any number of month and year ends. */
  lemma {:induction false} DayNumbersCountDays(t: Date, n: nat)
    requires ValidDate(t)
    ensures var r := Advance(t, n); DaysFromCivil(r.year, r.month, r.day) == DaysFromCivil(t.year, t.month, t.day) + n
    decreases n
  {
    if n > 0 {
      DayNumbersCountDays(NextDay(t), n - 1);
      NextDayIsOneDay(t);
    }
  }

  /** The epoch is day 0, and every later day number is the one its distance in days gives. */
  lemma EpochIsZero(n: nat)
    ensures DaysFromCivil(1970, 1, 1) == 0
    ensures var r := Advance(Date(1970, 1, 1), n); TimegmDays(r.year, r.month - 1, r.day) == n
  {
    DayNumbersCountDays(Date(1970, 1, 1), n);
    var r := Advance(Date(1970, 1, 1), n);
    DaysAgree(r.year, r.month, r.day);
  }
}
