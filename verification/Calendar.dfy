/** The proleptic Gregorian calendar in UTC, from 0001-01-01, a Monday. */
module Calendar {
  datatype Date = Date(year: int, month: int, day: int)

  predicate IsLeap(y: int) {
    y % 4 == 0 && (y % 100 != 0 || y % 400 == 0)
  }

  function DaysIn(y: int, m: int): (n: int)
    ensures 28 <= n <= 31
  {
    if m == 2 then (if IsLeap(y) then 29 else 28) else if m in {4, 6, 9, 11} then 30 else 31
  }

  predicate ValidDate(d: Date) {
    d.year >= 1 && 1 <= d.month <= 12 && 1 <= d.day <= DaysIn(d.year, d.month)
  }

  function NextDate(d: Date): (r: Date)
    requires ValidDate(d)
    ensures ValidDate(r)
  {
    if d.day < DaysIn(d.year, d.month) then d.(day := d.day + 1)
    else if d.month < 12 then Date(d.year, d.month + 1, 1)
    else Date(d.year + 1, 1, 1)
  }

  /** The date of a day, counted from the first. */
  function DateOf(n: nat): (d: Date)
    ensures ValidDate(d)
  {
    if n == 0 then Date(1, 1, 1) else NextDate(DateOf(n - 1))
  }

  /** Sunday is 0. */
  function Weekday(n: nat): int {
    (n + 1) % 7
  }

  // ---------- the day of a date, by arithmetic ----------

  function DaysBeforeYear(y: int): int {
    365 * (y - 1) + (y - 1) / 4 - (y - 1) / 100 + (y - 1) / 400
  }

  function DaysBeforeMonth(y: int, m: int): int
    requires 1 <= m <= 12
  {
    [0, 31, 59, 90, 120, 151, 181, 212, 243, 273, 304, 334][m - 1] + (if m > 2 && IsLeap(y) then 1 else 0)
  }

  /** The day of a date; a day past the end of its month runs on into the next. */
  function DayNumber(d: Date): int
    requires 1 <= d.month <= 12
  {
    DaysBeforeYear(d.year) + DaysBeforeMonth(d.year, d.month) + d.day - 1
  }

  lemma {:induction false} FourthYear(y: int)
    ensures y / 4 == (y - 1) / 4 + (if y % 4 == 0 then 1 else 0)
  {
  }

  lemma {:induction false} Century(y: int)
    ensures y / 100 == (y - 1) / 100 + (if y % 100 == 0 then 1 else 0)
  {
  }

  lemma {:induction false} FourthCentury(y: int)
    ensures y / 400 == (y - 1) / 400 + (if y % 400 == 0 then 1 else 0)
  {
  }

  lemma {:induction false} CenturiesAreFourthYears(y: int)
    ensures (y % 400 == 0 ==> y % 100 == 0) && (y % 100 == 0 ==> y % 4 == 0)
  {
  }

  lemma {:induction false} YearLength(y: int)
    requires y >= 1
    ensures DaysBeforeYear(y + 1) == DaysBeforeYear(y) + 365 + (if IsLeap(y) then 1 else 0)
  {
    FourthYear(y);
    Century(y);
    FourthCentury(y);
    CenturiesAreFourthYears(y);
  }

  lemma {:induction false} MonthLength(y: int, m: int)
    requires 1 <= m < 12
    ensures DaysBeforeMonth(y, m + 1) == DaysBeforeMonth(y, m) + DaysIn(y, m)
  {
  }

  lemma {:induction false} NextDayNumber(d: Date)
    requires ValidDate(d)
    ensures DayNumber(NextDate(d)) == DayNumber(d) + 1
  {
    if d.day == DaysIn(d.year, d.month) {
      if d.month < 12 {
        MonthLength(d.year, d.month);
      } else {
        YearLength(d.year);
      }
    }
  }

  /** Counting days by dates and dates by days are inverse: one way, */
  lemma {:induction false} DayOfDate(n: nat)
    ensures DayNumber(DateOf(n)) == n
  {
    if n > 0 {
      DayOfDate(n - 1);
      NextDayNumber(DateOf(n - 1));
    }
  }

  function PreviousDate(d: Date): (r: Date)
    requires ValidDate(d) && d != Date(1, 1, 1)
    ensures ValidDate(r) && NextDate(r) == d
  {
    if d.day > 1 then d.(day := d.day - 1)
    else if d.month > 1 then Date(d.year, d.month - 1, DaysIn(d.year, d.month - 1))
    else Date(d.year - 1, 12, 31)
  }

  lemma {:induction false} DateOfNext(n: nat)
    ensures DateOf(n + 1) == NextDate(DateOf(n))
  {
  }

  lemma {:induction false} EveryDateIsReached(d: Date) returns (n: nat)
    requires ValidDate(d)
    ensures DateOf(n) == d
    decreases d.year, d.month, d.day
  {
    n := 0;
    if d != Date(1, 1, 1) {
      n := EveryDateIsReached(PreviousDate(d));
      DateOfNext(n);
      n := n + 1;
    }
  }

  /** and the other. */
  lemma {:induction false} DateOfDay(d: Date)
    requires ValidDate(d)
    ensures DayNumber(d) >= 0 && DateOf(DayNumber(d)) == d
  {
    var n := EveryDateIsReached(d);
    DayOfDate(n);
  }

  /** A week has seven days. */
  lemma {:induction false} WeekTurns(n: nat)
    ensures 0 <= Weekday(n) <= 6 && Weekday(n + 7) == Weekday(n) && Weekday(n + 1) == (Weekday(n) + 1) % 7
  {
  }

  lemma {:induction false} NumberOf(n: nat, d: Date, k: int)
    requires DateOf(n) == d && DayNumber(d) == k
    ensures n == k
  {
    DayOfDate(n);
  }

  lemma {:induction false} EighthByNumber()
    ensures DayNumber(Date(2024, 1, 8)) == 738892
  {
  }

  /** Day 738892, the 8th of January 2024, was a Monday. */
  lemma {:induction false} EighthOfJanuary(n: nat)
    requires n == 738892
    ensures Weekday(n) == 1
  {
  }
}
