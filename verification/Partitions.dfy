/** The cache's partitions: calendar months and years covering a span, and how far the archive is
    published. */
module Partitions {
  import opened Calendar
  import opened Cache

  const DAY := 86_400_000_000_000

  function DayOf(t: int): int {
    t / DAY
  }

  /** Midnight starting a day. */
  function StartOf(day: int): int {
    day * DAY
  }

  lemma InDay(t: int)
    ensures StartOf(DayOf(t)) <= t < StartOf(DayOf(t) + 1)
  {
  }

  function FirstOfMonth(day: int): int {
    var date := Counted(day);
    DayNumber(Date(date.year, date.month, 1))
  }

  function FirstOfNextMonth(day: int): int {
    var date := Counted(day);
    if date.month < 12 then DayNumber(Date(date.year, date.month + 1, 1)) else DayNumber(Date(date.year + 1, 1, 1))
  }

  lemma InMonth(day: int)
    ensures FirstOfMonth(day) <= day < FirstOfNextMonth(day)
  {
    hide DaysFromCivil;
    var date := Counted(day);
    NumbersCountDays(day);
    InYear(date.year, date.month, date.day);
    InYear(date.year, date.month, 1);
    MonthsFit(date.year, date.month);
    if date.month < 12 {
      InYear(date.year, date.month + 1, 1);
    } else {
      NextYear(date.year);
    }
  }

  lemma FirstIsFirst(date: Date)
    requires IsDate(date) && date.day == 1
    ensures Counted(DayNumber(date)) == date && FirstOfMonth(DayNumber(date)) == DayNumber(date)
  {
    EveryDateIsCounted(date);
  }

  ghost predicate IsMonth(p: Part) {
    exists day :: p == Part(StartOf(FirstOfMonth(day)), StartOf(FirstOfNextMonth(day)))
  }

  /** One after the other, without a gap. */
  ghost predicate Tiles(parts: seq<Part>) {
    && (forall i :: 0 <= i < |parts| ==> parts[i].start < parts[i].end)
    && (forall i :: 0 < i < |parts| ==> parts[i - 1].end == parts[i].start)
  }

  lemma {:induction false} TilesAscend(parts: seq<Part>, i: nat, j: nat)
    requires Tiles(parts) && i < j < |parts|
    ensures parts[i].end <= parts[j].start
  {
    if i < j - 1 {
      TilesAscend(parts, i, j - 1);
    }
  }

  /** Tiles are parts the cache takes. */
  lemma TilesArePartsOk(parts: seq<Part>)
    requires Tiles(parts)
    ensures PartsOk(parts)
  {
    forall i, j | 0 <= i < j < |parts| ensures parts[i].end <= parts[j].start {
      TilesAscend(parts, i, j);
    }
  }

  ghost predicate Covers(parts: seq<Part>, start: int, end: int) {
    && Tiles(parts)
    && (start < end ==> parts != [] && parts[0].start <= start < parts[0].end
                        && parts[|parts| - 1].start < end <= parts[|parts| - 1].end)
  }

  /** months: whole calendar months, one after the other, from the one start is in to the one that
      reaches end; parts the cache takes. */
  method Months(start: int, end: int) returns (parts: seq<Part>)
    ensures Covers(parts, start, end) && PartsOk(parts) && forall p :: p in parts ==> IsMonth(p)
  {
    hide FirstOfMonth, FirstOfNextMonth, DayOf;
    parts := [];
    InDay(start);
    InMonth(DayOf(start));
    var first := FirstOfMonth(DayOf(start));
    assert first == FirstOfMonth(first) by { MonthBegins(DayOf(start)); }
    while StartOf(first) < end
      invariant Tiles(parts) && forall p :: p in parts ==> IsMonth(p)
      invariant first == FirstOfMonth(first)
      invariant parts == [] ==> first == FirstOfMonth(DayOf(start))
      invariant parts != [] ==> parts[0].start <= start < parts[0].end && parts[|parts| - 1].start < end
                                && parts[|parts| - 1].end == StartOf(first)
      decreases end - StartOf(first)
    {
      var next := FirstOfNextMonth(first);
      InMonth(first);
      MonthBegins(first);
      if parts == [] {
        MonthBegins(DayOf(start));
      }
      var p := Part(StartOf(first), StartOf(next));
      assert IsMonth(p);
      parts := parts + [p];
      first := next;
    }
    TilesArePartsOk(parts);
  }

  lemma FirstIs(day: int)
    ensures FirstOfMonth(day) == DayNumber(Date(Counted(day).year, Counted(day).month, 1))
  {
  }

  /** The first of a month and the first of the next are first days of months, and the month of the first
      day is the month of any other. */
  lemma MonthBegins(day: int)
    ensures FirstOfMonth(FirstOfMonth(day)) == FirstOfMonth(day)
    ensures FirstOfMonth(FirstOfNextMonth(day)) == FirstOfNextMonth(day)
    ensures FirstOfNextMonth(FirstOfMonth(day)) == FirstOfNextMonth(day)
  {
    hide DaysFromCivil, Counted, FirstOfMonth;
    FirstIs(day);
    FirstIs(FirstOfMonth(day));
    FirstIs(FirstOfNextMonth(day));
    var date := Counted(day);
    FirstIsFirst(Date(date.year, date.month, 1));
    if date.month < 12 {
      FirstIsFirst(Date(date.year, date.month + 1, 1));
    } else {
      FirstIsFirst(Date(date.year + 1, 1, 1));
    }
  }

  function YearStart(year: int): int {
    StartOf(DayNumber(Date(year, 1, 1)))
  }

  function YearOf(t: int): int {
    Counted(DayOf(t)).year
  }

  lemma InYearOf(t: int)
    ensures YearStart(YearOf(t)) <= t < YearStart(YearOf(t) + 1)
  {
    hide DaysFromCivil;
    InDay(t);
    NumbersCountDays(DayOf(t));
    WithinYear(Counted(DayOf(t)));
  }

  lemma YearsFollow(year: int)
    ensures YearStart(year) < YearStart(year + 1)
  {
    hide DaysFromCivil;
    NextYear(year);
  }

  /** years: whole calendar years, from the one start is in to the one the last nanosecond is in. */
  function Years(start: int, end: int): seq<Part> {
    var first, last := YearOf(start), YearOf(end - 1);
    if last < first then []
    else seq(last + 1 - first, k requires 0 <= k => Part(YearStart(first + k), YearStart(first + k + 1)))
  }

  ghost predicate IsYear(p: Part) {
    exists year :: p == Part(YearStart(year), YearStart(year + 1))
  }

  lemma YearsCover(start: int, end: int)
    ensures var parts := Years(start, end);
            Covers(parts, start, end) && PartsOk(parts) && forall p :: p in parts ==> IsYear(p)
  {
    hide YearStart, YearOf;
    var parts := Years(start, end);
    forall p | p in parts ensures IsYear(p) {
      var k :| 0 <= k < |parts| && parts[k] == p;
      assert p == Part(YearStart(YearOf(start) + k), YearStart(YearOf(start) + k + 1));
    }
    forall i | 0 <= i < |parts| ensures parts[i].start < parts[i].end { YearsFollow(YearOf(start) + i); }
    InYearOf(start);
    InYearOf(end - 1);
    if start < end && YearOf(end - 1) < YearOf(start) {
      YearStartsAscend(YearOf(end - 1) + 1, YearOf(start));
    }
    TilesArePartsOk(parts);
  }

  lemma {:induction false} YearStartsAscend(a: int, b: int)
    requires a <= b
    ensures YearStart(a) <= YearStart(b)
    decreases b - a
  {
    hide YearStart;
    if a < b {
      YearStartsAscend(a, b - 1);
      YearsFollow(b - 1);
    }
  }

  // ------------------------------------------------------------------------------------------- horizon

  /** Ends of the published daily and monthly files: a day behind midnight, and the month that began by a
      week before that. */
  function Horizon(now: int): (int, int) {
    var daily := DayOf(now) - 1;
    (StartOf(daily), StartOf(FirstOfMonth(daily - 7)))
  }

  /** The days end at the midnight before the last one, and the months with the one begun that holds the midnight a
      week before that, so planning covers its span. */
  lemma HorizonInOrder(now: int)
    ensures var (daily, monthly) := Horizon(now);
            && monthly + 7 * DAY <= daily && daily + DAY <= now < daily + 2 * DAY
            && daily - 7 * DAY < StartOf(FirstOfNextMonth(DayOf(now) - 8))
            && IsMonth(Part(monthly, StartOf(FirstOfNextMonth(DayOf(now) - 8))))
  {
    hide FirstOfMonth;
    InMonth(DayOf(now) - 8);
    InDay(now);
  }
}
