/** days_from_civil against day-by-day counting on the Gregorian calendar. */
module Calendar {

  // --------------------------------------------------------------------------- the code's arithmetic

  /** Division of the source language, which truncates toward zero. */
  function TruncatedDiv(a: int, b: int): int
    requires b > 0
  {
    if a >= 0 then a / b else -((-a) / b)
  }

  function DaysFromCivil(year: int, m: int, d: int): int
    requires 1 <= m <= 12
  {
    var y := if m <= 2 then year - 1 else year;
    var era := TruncatedDiv(if y >= 0 then y else y - 399, 400);
    var yoe := y - era * 400;
    var doy := (153 * (m + if m > 2 then -3 else 9) + 2) / 5 + d - 1;
    var doe := yoe * 365 + yoe / 4 - yoe / 100 + doy;
    era * 146097 + doe - 719468
  }

  function DaysInMonth(year: int, month: int): int {
    if month < 1 || month > 12 then 0
    else if month == 2 && IsLeap(year) then 29
    else [31, 28, 31, 30, 31, 30, 31, 31, 30, 31, 30, 31][month - 1]
  }

  predicate IsLeap(year: int) {
    (year % 4 == 0 && year % 100 != 0) || year % 400 == 0
  }

  // ------------------------------------------------------------------------------ counting day by day

  datatype Date = Date(year: int, month: int, day: int)

  predicate IsDate(date: Date) {
    1 <= date.month <= 12 && 1 <= date.day <= DaysInMonth(date.year, date.month)
  }

  /** The day after, by month lengths and the leap rule alone. */
  function Tomorrow(date: Date): (next: Date)
    requires IsDate(date)
    ensures IsDate(next)
  {
    if date.day < DaysInMonth(date.year, date.month) then date.(day := date.day + 1)
    else if date.month < 12 then Date(date.year, date.month + 1, 1)
    else Date(date.year + 1, 1, 1)
  }

  function Yesterday(date: Date): (previous: Date)
    requires IsDate(date)
    ensures IsDate(previous) && Tomorrow(previous) == date
  {
    if date.day > 1 then date.(day := date.day - 1)
    else if date.month > 1 then Date(date.year, date.month - 1, DaysInMonth(date.year, date.month - 1))
    else Date(date.year - 1, 12, 31)
  }

  /** The date n days from 1970-01-01. */
  function Counted(n: int): (date: Date)
    ensures IsDate(date)
    decreases if n >= 0 then n else -n
  {
    if n == 0 then Date(1970, 1, 1)
    else if n > 0 then Tomorrow(Counted(n - 1))
    else Yesterday(Counted(n + 1))
  }

  function DayNumber(date: Date): int
    requires IsDate(date)
  {
    DaysFromCivil(date.year, date.month, date.day)
  }

  // --------------------------------------------------------------------------------------- the proof

  /** Leap days before March of year y, counted from year 0. */
  function LeapDays(y: int): int {
    y / 4 - y / 100 + y / 400
  }

  lemma EraIsFloor(y: int)
    ensures TruncatedDiv(if y >= 0 then y else y - 399, 400) == y / 400
  {
  }

  /** The era arithmetic is 365 days a year and the leap days. */
  lemma EraIsLinear(y: int)
    ensures var era := y / 400;
            var yoe := y - era * 400;
            era * 146097 + yoe * 365 + yoe / 4 - yoe / 100 == 365 * y + LeapDays(y)
  {
    var era := y / 400;
    var yoe := y - era * 400;
    assert 0 <= yoe < 400;
    assert y / 4 == 100 * era + yoe / 4;
    assert y / 100 == 4 * era + yoe / 100;
  }

  function MonthStart(m: int): int
    requires 1 <= m <= 12
  {
    [306, 337, 0, 31, 61, 92, 122, 153, 184, 214, 245, 275][m - 1]
  }

  lemma InClosedForm(year: int, m: int, d: int)
    requires 1 <= m <= 12
    ensures var y := if m <= 2 then year - 1 else year;
            DaysFromCivil(year, m, d) == 365 * y + LeapDays(y) + MonthStart(m) + d - 1 - 719468
  {
    var y := if m <= 2 then year - 1 else year;
    EraIsFloor(y);
    EraIsLinear(y);
    assert (153 * (m + if m > 2 then -3 else 9) + 2) / 5 == MonthStart(m);
  }

  lemma LeapDaysStep(y: int)
    ensures LeapDays(y) - LeapDays(y - 1) == if IsLeap(y) then 1 else 0
  {
    DivStep(y, 4);
    DivStep(y, 100);
    DivStep(y, 400);
    MultipleOf(y, 100, 4);
    MultipleOf(y, 4, 25);
  }

  lemma DivStep(y: int, n: int)
    requires n in {4, 100, 400}
    ensures y / n - (y - 1) / n == if y % n == 0 then 1 else 0
  {
  }

  lemma MultipleOf(y: int, n: int, k: int)
    requires (n == 100 && k == 4) || (n == 4 && k == 25)
    ensures y % (n * k) == 0 ==> y % n == 0
  {
    if y % (n * k) == 0 {
      var q := y / (n * k);
      assert y == n * (k * q);
    }
  }

  /** Days of a year before its month m. */
  function DaysBefore(year: int, m: int): int
    requires 1 <= m <= 12
  {
    [0, 31, 59, 90, 120, 151, 181, 212, 243, 273, 304, 334][m - 1] + if m > 2 && IsLeap(year) then 1 else 0
  }

  /** A day's number is its year's first day and the days of the year before it. */
  lemma InYear(year: int, m: int, d: int)
    requires 1 <= m <= 12
    ensures DaysFromCivil(year, m, d) == DaysFromCivil(year, 1, 1) + DaysBefore(year, m) + d - 1
  {
    hide DaysFromCivil;
    InClosedForm(year, m, d);
    InClosedForm(year, 1, 1);
    LeapDaysStep(year);
  }

  lemma NextYear(year: int)
    ensures DaysFromCivil(year + 1, 1, 1) == DaysFromCivil(year, 1, 1) + 365 + if IsLeap(year) then 1 else 0
  {
    hide DaysFromCivil;
    InClosedForm(year, 1, 1);
    InClosedForm(year + 1, 1, 1);
    LeapDaysStep(year);
  }

  lemma MonthsFit(year: int, m: int)
    requires 1 <= m <= 12
    ensures DaysBefore(year, m) + DaysInMonth(year, m)
            == if m < 12 then DaysBefore(year, m + 1) else 365 + if IsLeap(year) then 1 else 0
  {
  }

  /** The next day has the next number. */
  lemma TomorrowCountsOne(date: Date)
    requires IsDate(date)
    ensures DayNumber(Tomorrow(date)) == DayNumber(date) + 1
  {
    hide DaysFromCivil;
    var next := Tomorrow(date);
    InYear(date.year, date.month, date.day);
    InYear(next.year, next.month, next.day);
    MonthsFit(date.year, date.month);
    NextYear(date.year);
  }

  /** The formula numbers the days from 1970-01-01 in calendar order, one by one, in both directions
      without end ... */
  lemma {:induction false} NumbersCountDays(n: int)
    ensures DayNumber(Counted(n)) == n
    decreases if n >= 0 then n else -n
  {
    hide DaysFromCivil, Tomorrow, Yesterday;
    if n > 0 {
      NumbersCountDays(n - 1);
      TomorrowCountsOne(Counted(n - 1));
    } else if n < 0 {
      NumbersCountDays(n + 1);
      TomorrowCountsOne(Counted(n));
    } else {
      InClosedForm(1970, 1, 1);
    }
  }

  predicate Before(a: Date, b: Date) {
    a.year < b.year || (a.year == b.year && (a.month < b.month || (a.month == b.month && a.day < b.day)))
  }

  lemma {:induction false} YearsAscend(a: int, b: int)
    requires a < b
    ensures DaysFromCivil(a + 1, 1, 1) <= DaysFromCivil(b, 1, 1)
    decreases b - a
  {
    hide DaysFromCivil;
    if a + 1 < b {
      YearsAscend(a, b - 1);
      NextYear(b - 1);
    }
  }

  lemma {:induction false} MonthsAscend(year: int, m: int, n: int)
    requires 1 <= m < n <= 12
    ensures DaysBefore(year, m) + DaysInMonth(year, m) <= DaysBefore(year, n)
    decreases n - m
  {
    MonthsFit(year, m);
    if m + 1 < n {
      MonthsAscend(year, m + 1, n);
    }
  }

  lemma WithinYear(date: Date)
    requires IsDate(date)
    ensures DaysFromCivil(date.year, 1, 1) <= DayNumber(date) < DaysFromCivil(date.year + 1, 1, 1)
  {
    hide DaysFromCivil;
    InYear(date.year, date.month, date.day);
    NextYear(date.year);
    MonthsFit(date.year, date.month);
    if date.month < 12 {
      MonthsAscend(date.year, date.month, 12);
      MonthsFit(date.year, 12);
    }
  }

  lemma YearDecides(a: Date, b: Date)
    requires IsDate(a) && IsDate(b) && a.year < b.year
    ensures DayNumber(a) < DayNumber(b)
  {
    hide DaysFromCivil;
    WithinYear(a);
    WithinYear(b);
    YearsAscend(a.year, b.year);
  }

  lemma DayOfYearDecides(a: Date, b: Date)
    requires IsDate(a) && IsDate(b) && Before(a, b) && a.year == b.year
    ensures DayNumber(a) < DayNumber(b)
  {
    hide DaysFromCivil, DaysBefore;
    DaysOfYearAscend(a, b);
    InYear(a.year, a.month, a.day);
    InYear(a.year, b.month, b.day);
  }

  /** A later date has a greater number. */
  lemma NumbersAscend(a: Date, b: Date)
    requires IsDate(a) && IsDate(b) && Before(a, b)
    ensures DayNumber(a) < DayNumber(b)
  {
    hide DaysFromCivil;
    if a.year < b.year {
      YearDecides(a, b);
    } else {
      DayOfYearDecides(a, b);
    }
  }

  lemma DaysOfYearAscend(a: Date, b: Date)
    requires IsDate(a) && IsDate(b) && Before(a, b) && a.year == b.year
    ensures DaysBefore(a.year, a.month) + a.day < DaysBefore(b.year, b.month) + b.day
  {
    if a.month < b.month {
      MonthsAscend(a.year, a.month, b.month);
    }
  }

  /** ... and every date of the calendar is reached by the counting. */
  lemma EveryDateIsCounted(date: Date)
    requires IsDate(date)
    ensures Counted(DayNumber(date)) == date
  {
    hide DaysFromCivil, Tomorrow, Yesterday;
    var counted := Counted(DayNumber(date));
    NumbersCountDays(DayNumber(date));
    if Before(counted, date) {
      NumbersAscend(counted, date);
    } else if Before(date, counted) {
      NumbersAscend(date, counted);
    }
  }
}
