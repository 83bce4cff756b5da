/** Days are numbered from 1970-01-01 (day 0), a Thursday. */
module Calendar {
  /** Monday is 0, as in Python. */
  function Weekday(day: int): nat { (day + 3) % 7 }

  predicate Leap(year: nat) {
    year % 4 == 0 && (year % 100 != 0 || year % 400 == 0)
  }

  function YearLength(year: nat): nat { if Leap(year) then 366 else 365 }

  /** The year containing `day` and that year's first day, searched from `year` on. */
  function YearFrom(year: nat, first: nat, day: nat): (r: (nat, nat))
    requires first <= day
    ensures r.1 <= day < r.1 + YearLength(r.0)
    decreases day - first
  {
    if day < first + YearLength(year) then (year, first)
    else YearFrom(year + 1, first + YearLength(year), day)
  }

  datatype Week = Week(year: nat, index: nat)

  /** strftime("%Y-W%W"): weeks start on Monday, days before the first Monday are week 0. */
  function WeekOf(day: nat): Week {
    var (year, first) := YearFrom(1970, 0, day);
    Week(year, (day - first + 7 - Weekday(day)) / 7)
  }

  lemma {:induction false} YearNotBefore(year: nat, first: nat, day: nat)
    requires first <= day
    ensures YearFrom(year, first, day).0 >= year
    ensures YearFrom(year, first, day).0 == year ==> YearFrom(year, first, day).1 == first
    decreases day - first
  {
    if day >= first + YearLength(year) {
      YearNotBefore(year + 1, first + YearLength(year), day);
    }
  }

  lemma {:induction false} YearIsUnique(year: nat, first: nat, d1: nat, d2: nat)
    requires first <= d1 && first <= d2
    requires YearFrom(year, first, d1).0 == YearFrom(year, first, d2).0
    ensures YearFrom(year, first, d1).1 == YearFrom(year, first, d2).1
    decreases d1 - first
  {
    if d1 < first + YearLength(year) {
      YearNotBefore(year, first, d2);
    } else if d2 < first + YearLength(year) {
      YearNotBefore(year, first, d1);
    } else {
      YearIsUnique(year + 1, first + YearLength(year), d1, d2);
    }
  }

  /** A week key never spans more than seven consecutive days. */
  lemma WeekSpan(d1: nat, d2: nat)
    requires WeekOf(d1) == WeekOf(d2) && d1 <= d2
    ensures d2 - d1 <= 6
  {
    YearIsUnique(1970, 0, d1, d2);
  }

  // ----- The calendar, counted otherwise -----

  /** The number of 1 January of a year, by its distance from 1970 and the leap years in between. */
  function NewYear(year: nat): int
    requires year >= 1970
  {
    365 * (year - 1970) + (year - 1) / 4 - (year - 1) / 100 + (year - 1) / 400 - 477
  }

  lemma MultiplesStep(n: nat, k: nat)
    requires n >= 1 && (k == 4 || k == 100 || k == 400)
    ensures n / k == (n - 1) / k + if n % k == 0 then 1 else 0
  {
  }

  lemma NewYearStep(year: nat)
    requires year >= 1970
    ensures NewYear(year + 1) == NewYear(year) + YearLength(year)
  {
    MultiplesStep(year, 4);
    MultiplesStep(year, 100);
    MultiplesStep(year, 400);
  }

  lemma {:induction false} YearFromIsGregorian(year: nat, first: nat, day: nat)
    requires year >= 1970 && first == NewYear(year) && first <= day
    ensures var (y, start) := YearFrom(year, first, day);
      y >= 1970 && start == NewYear(y) && NewYear(y) <= day < NewYear(y + 1)
    decreases day - first
  {
    hide NewYear, Leap;
    NewYearStep(year);
    if day >= first + YearLength(year) {
      YearFromIsGregorian(year + 1, first + YearLength(year), day);
    }
  }

  /** The Mondays from `first` to `day`, both included. */
  function Mondays(first: nat, day: int): nat
    decreases day - first
  {
    if day < first then 0 else Mondays(first, day - 1) + if Weekday(day) == 0 then 1 else 0
  }

  lemma {:induction false} WeekIsMondays(first: nat, day: nat)
    requires first <= day
    ensures (day - first + 7 - Weekday(day)) / 7 == Mondays(first, day)
    decreases day
  {
    if day == first {
      assert Mondays(first, first - 1) == 0;
    } else {
      WeekIsMondays(first, day - 1);
    }
  }

  /** The year of a week key is the Gregorian one, and its number that of the year's Mondays so far. */
  lemma {:induction false} WeekOfIs(day: nat)
    ensures var week := WeekOf(day);
      && week.year >= 1970 && NewYear(week.year) <= day < NewYear(week.year + 1)
      && week.index == Mondays(NewYear(week.year), day)
  {
    assert NewYear(1970) == 0;
    YearFromIsGregorian(1970, 0, day);
    WeekIsMondays(YearFrom(1970, 0, day).1, day);
    hide NewYear, YearFrom, Mondays, Weekday;
  }

  /** 1 January 1970 was a Thursday, 1 January 2024 a Monday, and weekdays recur after seven days. */
  lemma KnownDays(day: int)
    ensures Weekday(0) == 3 && NewYear(2024) == 19723 && Weekday(19723) == 0
    ensures Weekday(day + 1) == if Weekday(day) == 6 then 0 else Weekday(day) + 1
  {
  }
}
