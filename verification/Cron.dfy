/** The scan schedule: five sets of allowed values, and the search for the next minute they all allow. */
module Cron {
  import opened Wrappers
  import opened Calendar

  /** A parsed expression; each field is the set of bits its mask holds. */
  datatype Schedule = Schedule(
    minutes: set<int>, hours: set<int>, doms: set<int>, months: set<int>, dows: set<int>,
    domRestricted: bool, dowRestricted: bool)

  const MINUTES_PER_DAY := 1440
  const SEARCH_YEARS := 4

  /** A point in time: whole minutes since 0001-01-01, and what is left, in nanoseconds. */
  datatype Instant = Instant(minute: nat, rest: nat)

  predicate MatchesDay(s: Schedule, day: nat) {
    var date := DateOf(day);
    var dom, dow := date.day in s.doms, Weekday(day) in s.dows;
    && date.month in s.months
    && (if s.domRestricted && s.dowRestricted then dom || dow else dom && dow)
  }

  /** What the expression allows, minute by minute. */
  predicate Matches(s: Schedule, minute: nat) {
    && MatchesDay(s, minute / MINUTES_PER_DAY)
    && minute % MINUTES_PER_DAY / 60 in s.hours
    && minute % 60 in s.minutes
  }

  lemma {:induction false} FourYears(y: int)
    requires y >= 1
    ensures DaysBeforeYear(y + SEARCH_YEARS) >= DaysBeforeYear(y) + 1460 + (if IsLeap(y) then 1 else 0)
  {
    YearLength(y);
    YearLength(y + 1);
    YearLength(y + 2);
    YearLength(y + 3);
  }

  lemma {:induction false} FourYearsOn(d: Date)
    requires ValidDate(d)
    ensures DayNumber(d.(year := d.year + SEARCH_YEARS)) >= DayNumber(d) + 1460
  {
    FourYears(d.year);
  }

  /**
   The same day of the same month, four years on; the 29th of February becomes the 1st of March where there is none.
   */
  function LaterDay(day: nat): (r: nat)
    ensures r >= day + 1460
  {
    FourYearsOn(DateOf(day));
    DayOfDate(day);
    DayNumber(DateOf(day).(year := DateOf(day).year + SEARCH_YEARS))
  }

  /** The same time of that day. */
  function Limit(t: Instant): Instant {
    Instant(LaterDay(t.minute / MINUTES_PER_DAY) * MINUTES_PER_DAY + t.minute % MINUTES_PER_DAY, t.rest)
  }

  /** A whole minute lies before a point in time. */
  predicate IsBefore(minute: nat, t: Instant) {
    minute < t.minute || (minute == t.minute && t.rest > 0)
  }

  lemma {:induction false} SameDay(k: nat, cur: nat)
    requires cur <= k < cur - cur % MINUTES_PER_DAY + MINUTES_PER_DAY
    ensures k / MINUTES_PER_DAY == cur / MINUTES_PER_DAY
  {
  }

  lemma {:induction false} SameHour(k: nat, cur: nat)
    requires cur <= k < cur - cur % 60 + 60
    ensures k / MINUTES_PER_DAY == cur / MINUTES_PER_DAY && k % MINUTES_PER_DAY / 60 == cur % MINUTES_PER_DAY / 60
  {
    assert k / 60 == cur / 60;
    assert k / MINUTES_PER_DAY == k / 60 / 24 && cur / MINUTES_PER_DAY == cur / 60 / 24;
    assert k % MINUTES_PER_DAY / 60 == k / 60 % 24 && cur % MINUTES_PER_DAY / 60 == cur / 60 % 24;
  }

  /** No minute from a up to b is allowed. */
  ghost predicate NoneIn(s: Schedule, a: nat, b: nat) {
    forall k: nat :: a <= k < b ==> !Matches(s, k)
  }

  /** Skipping whole days and hours finds the same minute as trying each one. */
  method Next(s: Schedule, t: Instant) returns (r: Option<nat>)
    ensures r.Some? ==>
              && r.value > t.minute && Matches(s, r.value) && IsBefore(r.value, Limit(t))
              && NoneIn(s, t.minute + 1, r.value)
    ensures r.None? ==> forall k: nat :: k > t.minute && IsBefore(k, Limit(t)) ==> !Matches(s, k)
  {
    var cur := t.minute + 1;
    var limit := Limit(t);
    while IsBefore(cur, limit)
      invariant cur > t.minute && NoneIn(s, t.minute + 1, cur)
      decreases limit.minute - cur + 1
    {
      ghost var before := cur;
      if !MatchesDay(s, cur / MINUTES_PER_DAY) {
        cur := cur - cur % MINUTES_PER_DAY + MINUTES_PER_DAY;
        forall k: nat | before <= k < cur ensures !Matches(s, k) { SameDay(k, before); }
      } else if cur % MINUTES_PER_DAY / 60 !in s.hours {
        cur := cur - cur % 60 + 60;
        forall k: nat | before <= k < cur ensures !Matches(s, k) { SameHour(k, before); }
      } else if cur % 60 !in s.minutes {
        cur := cur + 1;
      } else {
        return Some(cur);
      }
    }
    return None;
  }

  // ---------- the two day fields ----------

  const DAYS_OF_A_MONTH :=
    {1, 2, 3, 4, 5, 6, 7, 8, 9, 10, 11, 12, 13, 14, 15, 16, 17, 18, 19, 20, 21, 22, 23, 24, 25, 26, 27, 28, 29, 30, 31}

  /** The schedule with its weekday field freed. */
  function OnAnyWeekday(s: Schedule): Schedule {
    s.(dows := {0, 1, 2, 3, 4, 5, 6}, dowRestricted := false)
  }

  /** The schedule with its day-of-month field freed. */
  function OnAnyDate(s: Schedule): Schedule {
    s.(doms := DAYS_OF_A_MONTH, domRestricted := false)
  }

  predicate AtTheTime(s: Schedule, minute: nat) {
    minute % MINUTES_PER_DAY / 60 in s.hours && minute % 60 in s.minutes
  }

  /** With one day field freed, the other decides the day. */
  lemma {:induction false} OneDayField(s: Schedule, minute: nat)
    ensures var date := DateOf(minute / MINUTES_PER_DAY);
            Matches(OnAnyWeekday(s), minute)
            <==> AtTheTime(s, minute) && date.month in s.months && date.day in s.doms
    ensures var date := DateOf(minute / MINUTES_PER_DAY);
            Matches(OnAnyDate(s), minute)
            <==> AtTheTime(s, minute) && date.month in s.months && Weekday(minute / MINUTES_PER_DAY) in s.dows
  {
    var date := DateOf(minute / MINUTES_PER_DAY);
    assert 1 <= date.day <= 31 && 0 <= Weekday(minute / MINUTES_PER_DAY) <= 6;
  }

  /** Two restricted day fields allow what either of them allows; otherwise both have their say. */
  lemma {:induction false} DayFieldsJoin(s: Schedule, minute: nat)
    ensures s.domRestricted && s.dowRestricted ==>
              (Matches(s, minute) <==> Matches(OnAnyWeekday(s), minute) || Matches(OnAnyDate(s), minute))
    ensures !(s.domRestricted && s.dowRestricted) ==>
              (Matches(s, minute) <==> Matches(OnAnyWeekday(s), minute) && Matches(OnAnyDate(s), minute))
  {
    OneDayField(s, minute);
  }

  lemma {:induction false} FourInTheMorning(day: nat)
    ensures var minute := day * MINUTES_PER_DAY + 240;
            minute / MINUTES_PER_DAY == day && minute % MINUTES_PER_DAY / 60 == 4 && minute % 60 == 0
  {
    SplitMinute(day, 240);
    assert day * MINUTES_PER_DAY + 240 == 60 * (24 * day + 4);
  }

  /** `0 4 1 * 1` is met at 04:00 on the 8th of January 2024, a Monday. */
  lemma {:induction false} MondayAsWellAsTheFirst(s: Schedule, day: nat)
    requires s.minutes == {0} && s.hours == {4} && s.doms == {1} && s.dows == {1} && 1 in s.months
    requires s.domRestricted && s.dowRestricted && DateOf(day) == Date(2024, 1, 8)
    ensures Matches(s, day * MINUTES_PER_DAY + 240)
  {
    EighthByNumber();
    NumberOf(day, Date(2024, 1, 8), 738892);
    EighthOfJanuary(day);
    FourInTheMorning(day);
    DayFieldsJoin(s, day * MINUTES_PER_DAY + 240);
    OneDayField(s, day * MINUTES_PER_DAY + 240);
  }

  // ---------- what the limit costs ----------

  /** Every day of the year is allowed. */
  predicate EveryDay(s: Schedule) {
    && (forall m :: 1 <= m <= 12 ==> m in s.months)
    && (forall d :: 1 <= d <= 31 ==> d in s.doms)
    && (forall w :: 0 <= w <= 6 ==> w in s.dows)
  }

  /** A single daily time is met once a day, at that time. */
  lemma {:induction false} DailyMatches(s: Schedule, hour: int, minute: int, k: nat)
    requires EveryDay(s) && s.hours == {hour} && s.minutes == {minute} && 0 <= hour < 24 && 0 <= minute < 60
    ensures Matches(s, k) <==> k % MINUTES_PER_DAY == 60 * hour + minute
  {
    assert k % MINUTES_PER_DAY == 60 * (k % MINUTES_PER_DAY / 60) + k % 60;
  }

  lemma {:induction false} YearOrder(a: int, b: int)
    requires 1 <= a < b
    ensures DaysBeforeYear(b) >= DaysBeforeYear(a) + 365
    decreases b
  {
    YearLength(b - 1);
    if a < b - 1 {
      YearOrder(a, b - 1);
    }
  }

  predicate LeapDayAt(s: Schedule, hour: int, minute: int) {
    && s.months == {2} && s.doms == {29} && (forall w :: 0 <= w <= 6 ==> w in s.dows) && !s.dowRestricted
    && s.hours == {hour} && s.minutes == {minute} && 0 <= hour < 24 && 0 <= minute < 60
  }

  lemma {:induction false} LeapDayMatches(s: Schedule, hour: int, minute: int, k: nat)
    requires LeapDayAt(s, hour, minute)
    ensures Matches(s, k) <==>
            && DateOf(k / MINUTES_PER_DAY).month == 2 && DateOf(k / MINUTES_PER_DAY).day == 29
            && k % MINUTES_PER_DAY == 60 * hour + minute
  {
    assert k % MINUTES_PER_DAY == 60 * (k % MINUTES_PER_DAY / 60) + k % 60;
  }

  function LeapDay(y: int): Date {
    Date(y, 2, 29)
  }

  lemma {:induction false} LeapDayOrder(a: int, b: int)
    requires 1 <= a < b
    ensures DayNumber(LeapDay(a)) < DayNumber(LeapDay(b))
  {
    YearOrder(a, b);
  }

  lemma {:induction false} NoLeapBetween(y: int, z: int)
    requires IsLeap(y) && IsLeap(z) && y < z
    ensures z >= y + 4
  {
  }

  /** The next leap day inside the search window can only be the one four years on. */
  lemma {:induction false} NextLeapDay(y: int, z: int)
    requires y >= 1 && z >= 1 && IsLeap(y) && IsLeap(z)
    requires DayNumber(LeapDay(y)) < DayNumber(LeapDay(z)) <= DayNumber(LeapDay(y + 4))
    ensures z == y + 4
  {
    if z < y {
      LeapDayOrder(z, y);
    } else if z > y + 4 {
      LeapDayOrder(y + 4, z);
    } else if z > y {
      NoLeapBetween(y, z);
    }
  }

  predicate FoundAt(s: Schedule, from: nat, limit: Instant, k: nat) {
    k > from && IsBefore(k, limit) && Matches(s, k)
  }

  /** The search finds some minute. */
  ghost predicate Finds(s: Schedule, t: Instant) {
    exists k: nat :: FoundAt(s, t.minute, Limit(t), k)
  }

  /**
   A schedule for the 29th of February, asked at one of its own minutes, finds the next one exactly if that is four
   years on and the question came after the minute began; otherwise the search ends just short of it.
   */
  lemma {:induction false} LeapDaySearch(s: Schedule, hour: int, minute: int, t: Instant)
    requires LeapDayAt(s, hour, minute) && Matches(s, t.minute)
    ensures Finds(s, t) <==> t.rest > 0 && IsLeap(DateOf(t.minute / MINUTES_PER_DAY).year + 4)
  {
    var y := DateOf(t.minute / MINUTES_PER_DAY).year;
    OnLeapDay(s, hour, minute, t.minute);
    LeapDayLimit(t, y);
    SearchBetween(s, hour, minute, t.minute, Limit(t), y);
  }

  /** The minutes of the schedule from one leap day on, up to the same minute four years later. */
  lemma {:induction false} SearchBetween(
    s: Schedule, hour: int, minute: int, from: nat, limit: Instant, y: int)
    requires LeapDayAt(s, hour, minute) && y >= 1 && IsLeap(y) && from < limit.minute
    requires from / MINUTES_PER_DAY == DayNumber(LeapDay(y)) && from % MINUTES_PER_DAY == 60 * hour + minute
    requires limit.minute / MINUTES_PER_DAY == DayNumber(LeapDay(y + 4))
    requires limit.minute % MINUTES_PER_DAY == 60 * hour + minute
    ensures (exists k: nat :: FoundAt(s, from, limit, k)) <==> limit.rest > 0 && IsLeap(y + 4)
  {
    if k: nat :| FoundAt(s, from, limit, k) {
      LeapDayFound(s, hour, minute, from, k, limit.minute, y);
    }
    if limit.rest > 0 && IsLeap(y + 4) {
      LeapDayAgain(s, hour, minute, limit.minute, y + 4);
      assert FoundAt(s, from, limit, limit.minute);
    }
  }

  lemma {:induction false} OnLeapDay(s: Schedule, hour: int, minute: int, k: nat)
    requires LeapDayAt(s, hour, minute) && Matches(s, k)
    ensures var n := k / MINUTES_PER_DAY;
            DateOf(n) == LeapDay(DateOf(n).year) && IsLeap(DateOf(n).year) && n == DayNumber(LeapDay(DateOf(n).year))
    ensures k % MINUTES_PER_DAY == 60 * hour + minute
  {
    LeapDayMatches(s, hour, minute, k);
    DayOfDate(k / MINUTES_PER_DAY);
  }

  lemma {:induction false} LeapDayAgain(s: Schedule, hour: int, minute: int, k: nat, y: int)
    requires LeapDayAt(s, hour, minute) && y >= 1 && IsLeap(y)
    requires k / MINUTES_PER_DAY == DayNumber(LeapDay(y)) && k % MINUTES_PER_DAY == 60 * hour + minute
    ensures Matches(s, k)
  {
    LeapDayMatches(s, hour, minute, k);
    DateOfDay(LeapDay(y));
  }

  lemma {:induction false} LeapDayLimit(t: Instant, y: int)
    requires DateOf(t.minute / MINUTES_PER_DAY) == LeapDay(y)
    ensures Limit(t).minute > t.minute && Limit(t).rest == t.rest
    ensures Limit(t).minute / MINUTES_PER_DAY == DayNumber(LeapDay(y + 4))
    ensures Limit(t).minute % MINUTES_PER_DAY == t.minute % MINUTES_PER_DAY
  {
    var day := t.minute / MINUTES_PER_DAY;
    assert LaterDay(day) == DayNumber(LeapDay(y + 4));
    SplitMinute(LaterDay(day), t.minute % MINUTES_PER_DAY);
  }

  lemma {:induction false} SplitMinute(day: int, minute: int)
    requires 0 <= minute < MINUTES_PER_DAY
    ensures (day * MINUTES_PER_DAY + minute) / MINUTES_PER_DAY == day
    ensures (day * MINUTES_PER_DAY + minute) % MINUTES_PER_DAY == minute
  {
  }

  lemma {:induction false} LeapDayFound(s: Schedule, hour: int, minute: int, from: nat, k: nat, later: nat, y: int)
    requires LeapDayAt(s, hour, minute) && Matches(s, k) && from < k <= later
    requires y >= 1 && IsLeap(y)
    requires from / MINUTES_PER_DAY == DayNumber(LeapDay(y)) && from % MINUTES_PER_DAY == 60 * hour + minute
    requires later / MINUTES_PER_DAY == DayNumber(LeapDay(y + 4)) && later % MINUTES_PER_DAY == 60 * hour + minute
    ensures k == later && IsLeap(y + 4)
  {
    LeapDayMatches(s, hour, minute, k);
    var n := k / MINUTES_PER_DAY;
    DayOfDate(n);
    var z := DateOf(n).year;
    assert DateOf(n) == LeapDay(z);
    NextLeapDay(y, z);
  }
}
