/** From the set-building code of the day-of-month calculation to the declarative day rule. */
module CronDays {
  import opened Calendar
  import opened SortedLists
  import opened CronSpec

  // ---- Nearest workday ----

  /** `workdayOfMonth`: Saturday moves to Friday and Sunday to Monday, without leaving the month. */
  function WorkdayOfMonth(target: Date, last: Date): (dom: int)
    requires target.Valid() && last.Valid()
  {
    var dow := Weekday(target);
    if dow == SATURDAY then (if target.day > 1 then target.day - 1 else target.day + 2)
    else if dow == SUNDAY then (if target.day < last.day then target.day + 1 else target.day - 2)
    else target.day
  }

  function LastOf(y: int, m: int): (d: Date)
    requires 1 <= m <= 12
    ensures d.Valid()
  {
    Date(y, m, DaysIn(y, m))
  }

  /** The weekdays around day d, with no modulus left. */
  lemma Neighbours(y: int, m: int, d: int)
    requires Date(y, m, d).Valid() && Date(y, m, d + 1).Valid()
    ensures Weekday(Date(y, m, d + 1)) == if Weekday(Date(y, m, d)) == SATURDAY then SUNDAY else Weekday(Date(y, m, d)) + 1
  {
    hide DayNumber;
    assert Date(y, m, d).Next() == Date(y, m, d + 1);
    DayNumberCounts(Date(y, m, d));
  }

  lemma Around(y: int, m: int, v: int)
    requires Date(y, m, v).Valid()
    ensures v > 1 ==> FallsOn(y, m, v - 1, if Weekday(Date(y, m, v)) == SUNDAY then SATURDAY else Weekday(Date(y, m, v)) - 1)
    ensures v < DaysIn(y, m) ==> FallsOn(y, m, v + 1, if Weekday(Date(y, m, v)) == SATURDAY then SUNDAY else Weekday(Date(y, m, v)) + 1)
  {
    if v > 1 { Neighbours(y, m, v - 1); }
    if v < DaysIn(y, m) { Neighbours(y, m, v); }
  }

  lemma ShiftedIsWorkday(y: int, m: int, v: int)
    requires Date(y, m, v).Valid()
    ensures IsWorkday(y, m, WorkdayOfMonth(Date(y, m, v), LastOf(y, m)))
  {
    Around(y, m, v);
    if v == 1 {
      Around(y, m, 2);
    } else if v == DaysIn(y, m) {
      Around(y, m, v - 1);
    }
  }

  lemma ShiftedIsCloser(y: int, m: int, v: int, e: int)
    requires Date(y, m, v).Valid() && IsWorkday(y, m, e)
    ensures
      var n := WorkdayOfMonth(Date(y, m, v), LastOf(y, m));
      e != n ==> Distance(v, n) < Distance(v, e)
  {
    if e - 1 <= v <= e + 1 {
      Around(y, m, v);
    }
    if v == e + 2 {
      Around(y, m, v);
    }
  }

  /** The code's shift is the one nearest Monday-to-Friday day of the month. */
  lemma WorkdayIsNearest(y: int, m: int, v: int, d: int)
    requires Date(y, m, v).Valid()
    ensures WorkdayOfMonth(Date(y, m, v), LastOf(y, m)) == d <==> NearestWorkday(y, m, v, d)
  {
    var n := WorkdayOfMonth(Date(y, m, v), LastOf(y, m));
    ShiftedIsWorkday(y, m, v);
    forall e | IsWorkday(y, m, e)
      ensures e != n ==> Distance(v, n) < Distance(v, e)
    {
      ShiftedIsCloser(y, m, v, e);
    }
  }

  /** Applied to the last day it yields the last Monday-to-Friday day. */
  lemma WorkdayOfLast(y: int, m: int, d: int)
    requires 1 <= m <= 12
    ensures WorkdayOfMonth(LastOf(y, m), LastOf(y, m)) == d <==> LastWorkday(y, m, d)
  {
    var n := WorkdayOfMonth(LastOf(y, m), LastOf(y, m));
    Around(y, m, DaysIn(y, m));
    Around(y, m, DaysIn(y, m) - 1);
    assert IsWorkday(y, m, n);
    assert forall e :: IsWorkday(y, m, e) ==> e <= n;
  }

  // ---- Weekday offsets ----

  /** Row i lists the days of a month that lie i days, modulo a week, after the first. */
  const DOW_OFFSETS: seq<seq<int>> := [
    [1, 8, 15, 22, 29],
    [2, 9, 16, 23, 30],
    [3, 10, 17, 24, 31],
    [4, 11, 18, 25],
    [5, 12, 19, 26],
    [6, 13, 20, 27],
    [7, 14, 21, 28]]

  /** How far the first day of weekday v is from the first of the month, as the code computes it. */
  function Offset(y: int, m: int, v: int): (i: int)
    requires 1 <= m <= 12 && 0 <= v
    ensures 0 <= i < 7
  {
    (7 - Weekday(Date(y, m, 1)) + v) % 7
  }

  lemma Congruent(first: int, k: int, v: int)
    requires 0 <= first <= 6 && 0 <= k < 31 && 0 <= v < 35
    ensures (first + k) % 7 == v % 7 <==> k % 7 == (7 - first + v) % 7
  {
  }

  /** A day falls on weekday v exactly when it lies the offset past the first, modulo a week. */
  lemma OffsetIsWeekday(y: int, m: int, d: int, v: int)
    requires Date(y, m, d).Valid() && 0 <= v < 35
    ensures Weekday(Date(y, m, d)) == v % 7 <==> (d - 1) % 7 == Offset(y, m, v)
  {
    WithinMonth(y, m, d);
    Congruent(Weekday(Date(y, m, 1)), d - 1, v);
  }

  lemma {:induction false} OccurrencesCount(y: int, m: int, d: nat, v: int)
    requires 1 <= m <= 12 && d <= DaysIn(y, m) && 0 <= v < 35
    ensures Occurrences(y, m, d, v % 7) == (d + 6 - Offset(y, m, v)) / 7
  {
    hide Weekday, Offset;
    if d > 0 {
      OccurrencesCount(y, m, d - 1, v);
      OffsetIsWeekday(y, m, d, v);
      WeeksStep(d, Offset(y, m, v));
    }
  }

  lemma WeeksStep(d: int, o: int)
    requires 0 <= o < 7
    ensures (d + 6 - o) / 7 == (d + 5 - o) / 7 + if (d - 1) % 7 == o then 1 else 0
  {
  }

  lemma DayOfWeeks(d: int, o: int, k: int)
    requires 0 <= o < 7 && (d - 1) % 7 == o
    ensures d == 1 + 7 * k + o <==> (d + 6 - o) / 7 == k + 1
  {
  }

  /** The code's target for "n-th weekday w", encoded as v = 7(n-1) + w, is that day. */
  lemma SpecificWeek(y: int, m: int, v: int, d: int)
    requires Date(y, m, d).Valid() && 0 <= v < 35
    ensures d == 1 + 7 * (v / 7) + Offset(y, m, v) <==> NthWeekday(y, m, d, v % 7, v / 7 + 1)
  {
    hide Weekday, Offset, Occurrences;
    OffsetIsWeekday(y, m, d, v);
    OccurrencesCount(y, m, d, v);
    if (d - 1) % 7 == Offset(y, m, v) { DayOfWeeks(d, Offset(y, m, v), v / 7); }
  }

  /** The n-th such weekday of a month lies in its n-th seven days. */
  lemma NthByWeeks(y: int, m: int, d: int, w: int, n: int)
    requires Date(y, m, d).Valid() && 0 <= w <= 6
    ensures NthWeekday(y, m, d, w, n) <==> Weekday(Date(y, m, d)) == w && 7 * (n - 1) < d <= 7 * n
  {
    hide Weekday, Offset, Occurrences;
    OccurrencesCount(y, m, d, w);
    OffsetIsWeekday(y, m, d, w);
    if (d - 1) % 7 == Offset(y, m, w) { DayOfWeeks(d, Offset(y, m, w), n - 1); }
  }

  /** The last such weekday lies in the last seven days of the month. */
  lemma LastByWeeks(y: int, m: int, d: int, w: int)
    requires Date(y, m, d).Valid() && 0 <= w <= 6
    ensures LastOfWeekday(y, m, d, w) <==> Weekday(Date(y, m, d)) == w && DaysIn(y, m) - 7 < d
  {
    hide Weekday, DaysIn;
    LastWeek(y, m, w, d);
    if d > DaysIn(y, m) - 7 { OnlyInLastWeek(y, m, w, d); }
  }

  /** The code's target in the last seven days is the last such weekday. */
  lemma LastWeek(y: int, m: int, w: int, d: int)
    requires Date(y, m, d).Valid() && 0 <= w <= 6
    ensures
      var origin := Date(y, m, DaysIn(y, m) - 6);
      d == origin.day + (7 - Weekday(origin) + w) % 7 <==> LastOfWeekday(y, m, d, w)
  {
    var first := DaysIn(y, m) - 6;
    var n := first + (7 - Weekday(Date(y, m, first)) + w) % 7;
    OnlyInLastWeek(y, m, w, n);
    assert FallsOn(y, m, n, w);
    forall e | FallsOn(y, m, e, w)
      ensures e <= n
    {
      if e >= first { OnlyInLastWeek(y, m, w, e); }
    }
  }

  lemma OnlyInLastWeek(y: int, m: int, w: int, e: int)
    requires Date(y, m, e).Valid() && e >= DaysIn(y, m) - 6 && 0 <= w <= 6
    ensures
      var first := DaysIn(y, m) - 6;
      Weekday(Date(y, m, e)) == w <==> e == first + (7 - Weekday(Date(y, m, first)) + w) % 7
  {
    hide Weekday, DaysIn;
    var first := DaysIn(y, m) - 6;
    WeekFrom(y, m, first, e - first);
    WithinAWeek(Weekday(Date(y, m, first)), e - first, w);
  }

  lemma WithinAWeek(first: int, k: int, w: int)
    requires 0 <= first < 7 && 0 <= k < 7 && 0 <= w < 7
    ensures (first + k) % 7 == w <==> k == (7 - first + w) % 7
  {
    RemainderBelowTwoWeeks(first + k);
    RemainderBelowTwoWeeks(7 - first + w);
  }

  lemma RemainderBelowTwoWeeks(x: int)
    requires 0 <= x < 14
    ensures x % 7 == if x < 7 then x else x - 7
  {
  }

  lemma {:induction false} WeekFrom(y: int, m: int, d: int, k: nat)
    requires Date(y, m, d).Valid() && Date(y, m, d + k).Valid()
    ensures Weekday(Date(y, m, d + k)) == (Weekday(Date(y, m, d)) + k) % 7
  {
    hide Weekday;
    if k > 0 {
      WeekFrom(y, m, d, k - 1);
      Neighbours(y, m, d + k - 1);
    }
  }

  /** Row membership is the offset equation. */
  lemma RowDays(i: int, d: int)
    requires 0 <= i < 7 && 1 <= d <= 31
    ensures d in DOW_OFFSETS[i] <==> (d - 1) % 7 == i
  {
  }

  // ---- The set-building code ----

  const GENERIC_DEFAULT_LIST: seq<int> := seq(60, i => i)

  lemma DefaultDays(n: int, list: seq<int>)
    requires 1 <= n <= 31 && list == GENERIC_DEFAULT_LIST[1..n + 1]
    ensures Increasing(list)
    ensures forall d :: d in list <==> 1 <= d <= n
  {
    forall d | 1 <= d <= n ensures d in list {
      assert list[d - 1] == d;
    }
  }

  /** The day-of-month half of `calculateActualDaysOfMonth`. */
  method MonthDays(f: Fields, year: int, month: int) returns (days: set<int>)
    requires f.DaysInRange() && 1 <= month <= 12
    ensures forall d :: d in days <==> Date(year, month, d).Valid() && MonthDayRule(f, year, month, d)
  {
    var first := Date(year, month, 1);
    var last := AddDate(first, 1, -1);
    MonthEnd(year, month, 1);
    assert last == LastOf(year, month);
    days := {};
    if f.lastDayOfMonth {
      days := days + {last.day};
    }
    if f.lastWorkdayOfMonth {
      days := days + {WorkdayOfMonth(last, last)};
    }
    ghost var ends := days;
    var rest := f.daysOfMonth;
    while rest != {}
      invariant rest <= f.daysOfMonth
      invariant forall d :: d in days <==> d in ends || (d in f.daysOfMonth && d !in rest && d <= last.day)
    {
      ghost var some := SomeMember(rest);
      var v :| v in rest;
      rest := rest - {v};
      if v <= last.day {
        days := days + {v};
      }
    }
    ghost var plain := days;
    rest := f.workdaysOfMonth;
    while rest != {}
      invariant rest <= f.workdaysOfMonth
      invariant forall d :: d in days <==>
        d in plain || exists v :: v in f.workdaysOfMonth && v !in rest && v <= last.day && NearestWorkday(year, month, v, d)
    {
      ghost var some := SomeMember(rest);
      var v :| v in rest;
      rest := rest - {v};
      if v <= last.day {
        WithinMonth(year, month, v);
        var n := WorkdayOfMonth(AddDate(first, 0, v - 1), last);
        forall d ensures d == n <==> NearestWorkday(year, month, v, d) {
          WorkdayIsNearest(year, month, v, d);
        }
        days := days + {n};
      }
    }
    forall d ensures d in ends <==>
        (f.lastDayOfMonth && d == last.day) || (f.lastWorkdayOfMonth && LastWorkday(year, month, d))
    {
      WorkdayOfLast(year, month, d);
    }
  }

  /** The entries of a row the code takes: four always, the fifth if the month reaches it. */
  function RowWithin(w: seq<int>, last: int): set<int>
    requires |w| >= 4
  {
    {w[0], w[1], w[2], w[3]} + if |w| > 4 && w[4] <= last then {w[4]} else {}
  }

  /** They are the days of the month on that weekday. */
  lemma RowOfWeekday(y: int, m: int, v: int)
    requires 1 <= m <= 12 && 0 <= v <= 6
    ensures forall d :: d in RowWithin(DOW_OFFSETS[Offset(y, m, v)], DaysIn(y, m)) <==> FallsOn(y, m, d, v)
  {
    hide Weekday, Offset;
    forall d ensures d in RowWithin(DOW_OFFSETS[Offset(y, m, v)], DaysIn(y, m)) <==> FallsOn(y, m, d, v) {
      if Date(y, m, d).Valid() {
        RowDays(Offset(y, m, v), d);
        OffsetIsWeekday(y, m, d, v);
      }
    }
  }

  /** The loop over plain weekdays. */
  method PlainWeekDays(daysOfWeek: set<int>, year: int, month: int) returns (days: set<int>)
    requires 1 <= month <= 12 && forall v :: v in daysOfWeek ==> 0 <= v <= 6
    ensures forall d :: d in days <==> exists v :: v in daysOfWeek && FallsOn(year, month, d, v)
  {
    var first := Date(year, month, 1);
    var last := AddDate(first, 1, -1);
    MonthEnd(year, month, 1);
    days := {};
    var rest := daysOfWeek;
    while rest != {}
      invariant rest <= daysOfWeek
      invariant forall d :: d in days <==> exists v :: v in daysOfWeek && v !in rest && FallsOn(year, month, d, v)
    {
      ghost var some := SomeMember(rest);
      var v :| v in rest;
      rest := rest - {v};
      RowOfWeekday(year, month, v);
      days := days + RowWithin(DOW_OFFSETS[Offset(year, month, v)], last.day);
    }
  }

  /** The loop over "n-th weekday" entries. */
  method SpecificWeekDays(f: Fields, year: int, month: int) returns (days: set<int>)
    requires f.DaysInRange() && 1 <= month <= 12
    ensures forall d :: d in days <==>
      exists v :: v in f.specificWeekDaysOfWeek && NthWeekday(year, month, d, v % 7, v / 7 + 1)
  {
    var first := Date(year, month, 1);
    var last := AddDate(first, 1, -1);
    MonthEnd(year, month, 1);
    var offset := 7 - Weekday(first);
    days := {};
    var rest := f.specificWeekDaysOfWeek;
    while rest != {}
      invariant rest <= f.specificWeekDaysOfWeek
      invariant forall d :: d in days <==>
        exists v :: v in f.specificWeekDaysOfWeek && v !in rest && NthWeekday(year, month, d, v % 7, v / 7 + 1)
    {
      ghost var some := SomeMember(rest);
      var v :| v in rest;
      rest := rest - {v};
      var day := 1 + 7 * (v / 7) + (offset + v) % 7;
      ghost var w, n := v % 7, v / 7 + 1;
      forall d ensures NthWeekday(year, month, d, w, n) <==> d == day && day <= last.day {
        if Date(year, month, d).Valid() { SpecificWeek(year, month, v, d); }
      }
      if day <= last.day {
        days := days + {day};
      }
    }
  }

  /** The loop over "last weekday" entries, counted from seven days before the next month. */
  method LastWeekDays(f: Fields, year: int, month: int) returns (days: set<int>)
    requires f.DaysInRange() && 1 <= month <= 12
    ensures forall d :: d in days <==> exists w :: w in f.lastWeekDaysOfWeek && LastOfWeekday(year, month, d, w)
  {
    var first := Date(year, month, 1);
    var last := AddDate(first, 1, -1);
    MonthEnd(year, month, 1);
    var origin := AddDate(first, 1, -7);
    MonthEnd(year, month, 7);
    var offset := 7 - Weekday(origin);
    days := {};
    var rest := f.lastWeekDaysOfWeek;
    while rest != {}
      invariant rest <= f.lastWeekDaysOfWeek
      invariant forall d :: d in days <==>
        exists w :: w in f.lastWeekDaysOfWeek && w !in rest && LastOfWeekday(year, month, d, w)
    {
      ghost var some := SomeMember(rest);
      var v :| v in rest;
      rest := rest - {v};
      var day := origin.day + (offset + v) % 7;
      forall d ensures LastOfWeekday(year, month, d, v) <==> d == day {
        if Date(year, month, d).Valid() { LastWeek(year, month, v, d); }
      }
      if day <= last.day {
        days := days + {day};
      }
    }
  }

  /** The day-of-week half. */
  method WeekDays(f: Fields, year: int, month: int) returns (days: set<int>)
    requires f.DaysInRange() && 1 <= month <= 12
    ensures forall d :: d in days <==> Date(year, month, d).Valid() && WeekDayRule(f, year, month, d)
  {
    var plain := PlainWeekDays(f.daysOfWeek, year, month);
    var specific := SpecificWeekDays(f, year, month);
    var lasts := LastWeekDays(f, year, month);
    days := plain + specific + lasts;
  }

  /** `calculateActualDaysOfMonth`: exactly the days the rule admits, in increasing order. */
  method CalculateActualDaysOfMonth(f: Fields, year: int, month: int) returns (list: seq<int>)
    requires f.DaysInRange() && 1 <= month <= 12
    ensures Increasing(list)
    ensures forall d :: d in list <==> DayRule(f, year, month, d)
  {
    var last := AddDate(Date(year, month, 1), 1, -1);
    MonthEnd(year, month, 1);
    if !f.daysOfMonthRestricted && !f.daysOfWeekRestricted {
      list := GENERIC_DEFAULT_LIST[1..last.day + 1];
      DefaultDays(last.day, list);
      return;
    }
    var days := {};
    if f.daysOfMonthRestricted {
      days := MonthDays(f, year, month);
    }
    if f.daysOfWeekRestricted {
      var more := WeekDays(f, year, month);
      days := days + more;
    }
    list := ToList(days);
  }
}
