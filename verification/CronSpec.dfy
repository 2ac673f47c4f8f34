/** What a parsed cron expression means: which civil instants it fires at. */
module CronSpec {
  import opened Calendar
  import opened SortedLists

  /** A UTC instant. `Valid` is what every `time.Time` satisfies. */
  datatype Time = Time(year: int, month: int, day: int, hour: int, minute: int, second: int, nano: int) {
    predicate Valid() {
      Date(year, month, day).Valid() && 0 <= hour < 24 && 0 <= minute < 60 && 0 <= second < 60 &&
      0 <= nano < 1_000_000_000
    }

    function Seconds(): int
      requires Valid()
    {
      ((DayNumber(Date(year, month, day)) * 24 + hour) * 60 + minute) * 60 + second
    }

    /** Nanoseconds since the zero time. */
    function Nanos(): int
      requires Valid()
    {
      Seconds() * 1_000_000_000 + nano
    }
  }

  /** Go's zero `time.Time`, used as "none". */
  const ZERO := Time(1, 1, 1, 0, 0, 0, 0)

  /** The parsed fields of `expression`; everything but the day cache. */
  datatype Fields = Fields(
    secondList: seq<int>, minuteList: seq<int>, hourList: seq<int>,
    daysOfMonth: set<int>, workdaysOfMonth: set<int>,
    lastDayOfMonth: bool, lastWorkdayOfMonth: bool, daysOfMonthRestricted: bool,
    monthList: seq<int>,
    daysOfWeek: set<int>, specificWeekDaysOfWeek: set<int>, lastWeekDaysOfWeek: set<int>,
    daysOfWeekRestricted: bool,
    yearList: seq<int>)
  {
    /** The lists the step functions index at 0 hold something. */
    predicate Populated() {
      secondList != [] && minuteList != [] && hourList != [] && monthList != []
    }

    ghost predicate ListsInRange() {
      && ListIn(secondList, 0, 59) && ListIn(minuteList, 0, 59) && ListIn(hourList, 0, 23)
      && ListIn(monthList, 1, 12) && ListIn(yearList, 1970, 2099)
    }

    ghost predicate DaysInRange() {
      && (forall v :: v in daysOfMonth ==> 1 <= v <= 31)
      && (forall v :: v in workdaysOfMonth ==> 1 <= v <= 31)
      && (forall v :: v in daysOfWeek ==> 0 <= v <= 6)
      && (forall v :: v in specificWeekDaysOfWeek ==> 0 <= v < 35)
      && (forall v :: v in lastWeekDaysOfWeek ==> 0 <= v <= 6)
    }

    ghost predicate WellFormed() {
      Populated() && ListsInRange() && DaysInRange()
    }
  }

  ghost predicate ListIn(s: seq<int>, lo: int, hi: int) {
    Increasing(s) && forall i :: 0 <= i < |s| ==> lo <= s[i] <= hi
  }

  // ---- The crontab(5) day rule ----

  predicate IsWorkday(y: int, m: int, d: int) {
    Date(y, m, d).Valid() && Weekday(Date(y, m, d)) != SUNDAY && Weekday(Date(y, m, d)) != SATURDAY
  }

  function Distance(a: int, b: int): int {
    if a < b then b - a else a - b
  }

  /** d is the Monday-to-Friday day of the month closest to the target. */
  ghost predicate NearestWorkday(y: int, m: int, target: int, d: int) {
    IsWorkday(y, m, d) && forall e :: IsWorkday(y, m, e) ==> Distance(target, d) <= Distance(target, e)
  }

  ghost predicate LastWorkday(y: int, m: int, d: int) {
    IsWorkday(y, m, d) && forall e :: IsWorkday(y, m, e) ==> e <= d
  }

  ghost predicate FallsOn(y: int, m: int, d: int, w: int) {
    Date(y, m, d).Valid() && Weekday(Date(y, m, d)) == w
  }

  /** How many of the days 1..d of the month fall on weekday w. */
  ghost function Occurrences(y: int, m: int, d: nat, w: int): nat {
    if d == 0 then 0 else Occurrences(y, m, d - 1, w) + if FallsOn(y, m, d, w) then 1 else 0
  }

  /** d is the n-th weekday w of its month. */
  ghost predicate NthWeekday(y: int, m: int, d: int, w: int, n: int) {
    FallsOn(y, m, d, w) && Occurrences(y, m, d, w) == n
  }

  ghost predicate LastOfWeekday(y: int, m: int, d: int, w: int) {
    FallsOn(y, m, d, w) && forall e :: FallsOn(y, m, e, w) ==> e <= d
  }

  ghost predicate MonthDayRule(f: Fields, y: int, m: int, d: int)
    requires Date(y, m, d).Valid()
  {
    || (f.lastDayOfMonth && d == DaysIn(y, m))
    || (f.lastWorkdayOfMonth && LastWorkday(y, m, d))
    || d in f.daysOfMonth
    || exists v :: v in f.workdaysOfMonth && v <= DaysIn(y, m) && NearestWorkday(y, m, v, d)
  }

  ghost predicate WeekDayRule(f: Fields, y: int, m: int, d: int)
    requires Date(y, m, d).Valid()
  {
    || Weekday(Date(y, m, d)) in f.daysOfWeek
    || (exists v :: v in f.specificWeekDaysOfWeek && NthWeekday(y, m, d, v % 7, v / 7 + 1))
    || exists w :: w in f.lastWeekDaysOfWeek && LastOfWeekday(y, m, d, w)
  }

  /** Every day if neither field is restricted, otherwise the days of either restricted field. */
  ghost predicate DayRule(f: Fields, y: int, m: int, d: int) {
    Date(y, m, d).Valid() &&
    if !f.daysOfMonthRestricted && !f.daysOfWeekRestricted then true
    else
      || (f.daysOfMonthRestricted && MonthDayRule(f, y, m, d))
      || (f.daysOfWeekRestricted && WeekDayRule(f, y, m, d))
  }

  /** The instants of the schedule: whole seconds satisfying every field. */
  ghost predicate Fires(f: Fields, u: Time) {
    && u.Valid() && u.nano == 0
    && u.year in f.yearList && u.month in f.monthList && DayRule(f, u.year, u.month, u.day)
    && u.hour in f.hourList && u.minute in f.minuteList && u.second in f.secondList
  }

  // ---- Order of instants, field by field ----

  predicate YearAfter(u: Time, t: Time) { u.year > t.year }

  predicate MonthAfter(u: Time, t: Time) {
    YearAfter(u, t) || (u.year == t.year && u.month > t.month)
  }

  predicate SameMonth(u: Time, t: Time) { u.year == t.year && u.month == t.month }

  predicate DayAfter(u: Time, t: Time) {
    MonthAfter(u, t) || (SameMonth(u, t) && u.day > t.day)
  }

  predicate SameDay(u: Time, t: Time) { SameMonth(u, t) && u.day == t.day }

  predicate HourAfter(u: Time, t: Time) {
    DayAfter(u, t) || (SameDay(u, t) && u.hour > t.hour)
  }

  predicate SameHour(u: Time, t: Time) { SameDay(u, t) && u.hour == t.hour }

  predicate MinuteAfter(u: Time, t: Time) {
    HourAfter(u, t) || (SameHour(u, t) && u.minute > t.minute)
  }

  predicate SameMinute(u: Time, t: Time) { SameHour(u, t) && u.minute == t.minute }

  predicate SecondAfter(u: Time, t: Time) {
    MinuteAfter(u, t) || (SameMinute(u, t) && u.second > t.second)
  }

  /** Field-by-field order on whole seconds is the order of the second counts. */
  lemma SecondsOrder(u: Time, t: Time)
    requires u.Valid() && t.Valid()
    ensures SecondAfter(u, t) <==> u.Seconds() > t.Seconds()
  {
    DayNumberOrders(Date(t.year, t.month, t.day), Date(u.year, u.month, u.day));
    DayNumberOrders(Date(u.year, u.month, u.day), Date(t.year, t.month, t.day));
  }

  /** A whole second lies after t exactly when it is a later second. */
  lemma FiringOrder(u: Time, t: Time)
    requires u.Valid() && t.Valid() && u.nano == 0
    ensures SecondAfter(u, t) <==> u.Nanos() > t.Nanos()
  {
    SecondsOrder(u, t);
  }

  datatype Level = Year | Month | Day | Hour | Minute | Second

  /** u is later than t when only the fields down to the level count. */
  predicate After(level: Level, u: Time, t: Time) {
    match level
    case Year => YearAfter(u, t)
    case Month => MonthAfter(u, t)
    case Day => DayAfter(u, t)
    case Hour => HourAfter(u, t)
    case Minute => MinuteAfter(u, t)
    case Second => SecondAfter(u, t)
  }

  /** r is the earliest firing instant after t at the level, or ZERO if there is none. */
  ghost predicate Earliest(f: Fields, level: Level, t: Time, r: Time) {
    if r == ZERO then forall u :: Fires(f, u) ==> !After(level, u, t)
    else
      && Fires(f, r) && After(level, r, t)
      && forall u :: Fires(f, u) && After(level, u, t) ==> !SecondAfter(r, u)
  }

  /** r is the first instant of the schedule strictly later than t, or ZERO if there is none. */
  ghost predicate IsNext(f: Fields, t: Time, r: Time)
    requires t.Valid()
  {
    if r == ZERO then forall u :: Fires(f, u) ==> u.Nanos() <= t.Nanos()
    else
      && Fires(f, r) && t.Nanos() < r.Nanos()
      && forall u :: Fires(f, u) && t.Nanos() < u.Nanos() ==> r.Nanos() <= u.Nanos()
  }

  /** The instant a second later, by carrying. */
  function OneSecondLater(t: Time): Time
    requires t.Valid()
  {
    if t.second < 59 then t.(second := t.second + 1)
    else if t.minute < 59 then t.(second := 0, minute := t.minute + 1)
    else if t.hour < 23 then t.(second := 0, minute := 0, hour := t.hour + 1)
    else
      var d := Date(t.year, t.month, t.day).Next();
      Time(d.year, d.month, d.day, 0, 0, 0, t.nano)
  }

  /** The clock counts seconds one by one from the zero time, and a thousand million nanoseconds to each. */
  lemma ClockCounts(t: Time)
    requires t.Valid()
    ensures OneSecondLater(t).Valid() && OneSecondLater(t).Nanos() == t.Nanos() + 1_000_000_000
    ensures t.Nanos() == t.(nano := 0).Nanos() + t.nano
    ensures ZERO.Nanos() == 0
  {
    hide DayNumber, Date.Next;
    DayNumberCounts(Date(t.year, t.month, t.day));
    DayNumberOfZero();
  }

  lemma DayNumberOfZero()
    ensures DayNumber(Date(1, 1, 1)) == 0
  {
  }

  // ---- The day rules, by weeks ----

  lemma WorkdaysAreMondayToFriday(y: int, m: int, d: int)
    ensures IsWorkday(y, m, d) <==> Date(y, m, d).Valid() && Weekday(Date(y, m, d)) in {1, 2, 3, 4, 5}
  {
    hide Weekday;
  }

  /** Field order and clock order agree on what comes next. */
  lemma EarliestIsNext(f: Fields, t: Time, r: Time)
    requires t.Valid() && Earliest(f, Second, t, r)
    ensures IsNext(f, t, r)
  {
    forall u | Fires(f, u)
      ensures u.Nanos() > t.Nanos() <==> SecondAfter(u, t)
      ensures Fires(f, r) ==> (SecondAfter(r, u) <==> r.Nanos() > u.Nanos())
    {
      FiringOrder(u, t);
      if Fires(f, r) { FiringOrder(r, u); }
    }
  }
}
