/** `_add_business_days` of src/agent/nodes/task_creator.py, on day numbers. */
module BusinessDays {
  import opened Calendar

  predicate IsWorkday(day: int) { Weekday(day) < 5 }

  /** Workdays in (from, to]. */
  function Workdays(from: int, to: int): nat
    decreases to - from
  {
    if to <= from then 0 else (if IsWorkday(to) then 1 else 0) + Workdays(from, to - 1)
  }

  function Anchor(start: int): int {
    if Weekday(start) > 4 then start - (Weekday(start) - 4) else start
  }

  /** Whole weeks by division, the rest by one weekend test; a weekend start counts from its Friday. */
  function ClosedForm(start: int, days: int): int {
    if days <= 0 then start
    else
      var anchor := Anchor(start);
      var rest := days % 5;
      anchor + 7 * (days / 5) + rest + if Weekday(anchor) + rest > 4 then 2 else 0
  }

  lemma WeekdayAfter(day: int, n: nat)
    requires n < 7
    ensures Weekday(day) < 7
    ensures Weekday(day + n) == if Weekday(day) + n < 7 then Weekday(day) + n else Weekday(day) + n - 7
  {
  }

  lemma WholeWeeks(day: int, weeks: int)
    ensures Weekday(day + 7 * weeks) == Weekday(day)
  {
    assert (day + 7 * weeks + 3) % 7 == (day + 3) % 7;
  }

  lemma FifthOf(days: int)
    requires days >= 0
    ensures (days + 1) / 5 == (if days % 5 == 4 then days / 5 + 1 else days / 5)
    ensures (days + 1) % 5 == if days % 5 == 4 then 0 else days % 5 + 1
  {
  }

  lemma AnchorIsWorkday(start: int)
    ensures Weekday(Anchor(start)) <= 4
  {
  }

  /** Where in the week the closed form lands. */
  lemma ClosedFormWeekday(start: int, days: int)
    requires days > 0
    ensures var u := Weekday(Anchor(start)) + days % 5;
            u <= 8 && Weekday(ClosedForm(start, days)) == if u > 4 then u - 5 else u
  {
    AnchorIsWorkday(start);
    var anchor := Anchor(start);
    var rest := days % 5;
    var shift := rest + if Weekday(anchor) + rest > 4 then 2 else 0;
    WeekdayAfter(anchor, shift);
    WholeWeeks(anchor + shift, days / 5);
    hide Weekday, Anchor;
    assert ClosedForm(start, days) == anchor + shift + 7 * (days / 5);
  }

  /** From each closed-form date the next workday is one, two or three days on, and is the next closed-form date. */
  lemma {:induction false} Gap(start: int, days: int)
    requires days >= 0
    ensures var c := ClosedForm(start, days);
            && ClosedForm(start, days + 1) == c + (if Weekday(c) == 4 then 3 else if Weekday(c) == 5 then 2 else 1)
            && (days > 0 ==> Weekday(c) <= 4)
  {
    FifthOf(days);
    if days > 0 {
      ClosedFormWeekday(start, days);
      hide Weekday;
    }
  }

  lemma NextIsNextWorkday(start: int, days: int)
    requires days >= 0
    ensures ClosedForm(start, days) < ClosedForm(start, days + 1)
    ensures IsWorkday(ClosedForm(start, days + 1))
    ensures forall d :: ClosedForm(start, days) < d < ClosedForm(start, days + 1) ==> !IsWorkday(d)
  {
    Gap(start, days);
    var c := ClosedForm(start, days);
    WeekdayAfter(c, 1);
    WeekdayAfter(c, 2);
    WeekdayAfter(c, 3);
    hide ClosedForm, Weekday;
    forall d | c < d < ClosedForm(start, days + 1)
      ensures !IsWorkday(d)
    {
      assert d == c + 1 || d == c + 2;
    }
  }

  lemma ClosedFormOfNegative(start: int, days: int)
    requires days <= 0
    ensures ClosedForm(start, days) == start
  {
  }

  lemma {:induction false} WorkdaysMonotone(start: int, a: int, b: int)
    requires a <= b
    ensures Workdays(start, a) <= Workdays(start, b)
    decreases b - a
  {
    if a < b {
      WorkdaysMonotone(start, a, b - 1);
    }
  }

  lemma StrictlyMore(start: int, a: int, b: int)
    requires start <= a < b && IsWorkday(b)
    ensures Workdays(start, a) < Workdays(start, b)
  {
    WorkdaysMonotone(start, a, b - 1);
  }

  lemma {:induction false} SameOverWeekend(start: int, a: int, b: int)
    requires start <= a <= b && forall d :: a < d <= b ==> !IsWorkday(d)
    ensures Workdays(start, a) == Workdays(start, b)
    decreases b - a
  {
    if a < b {
      SameOverWeekend(start, a, b - 1);
    }
  }

  lemma {:induction false} ClosedFormCounts(start: int, days: int)
    requires days >= 0
    ensures ClosedForm(start, days) >= start && Workdays(start, ClosedForm(start, days)) == days
    ensures days > 0 ==> IsWorkday(ClosedForm(start, days))
    decreases days
  {
    hide Weekday;
    if days > 0 {
      ClosedFormCounts(start, days - 1);
      NextIsNextWorkday(start, days - 1);
      hide ClosedForm;
      SameOverWeekend(start, ClosedForm(start, days - 1), ClosedForm(start, days) - 1);
    }
  }

  /** No earlier date has that many workdays behind it. */
  lemma ClosedFormIsFirst(start: int, days: int)
    requires days >= 0
    ensures forall d :: start <= d < ClosedForm(start, days) ==> Workdays(start, d) < days
  {
    ClosedFormCounts(start, days);
    forall d | start <= d < ClosedForm(start, days)
      ensures Workdays(start, d) < days
    {
      StrictlyMore(start, d, ClosedForm(start, days));
    }
  }

  /**
   Terminates for every start and count; the result is the first date with that
   many workdays behind it.
   */
  method AddBusinessDays(start: int, days: int) returns (current: int)
    ensures days <= 0 ==> current == start
    ensures days > 0 ==> IsWorkday(current)
    ensures Workdays(start, current) == if days > 0 then days else 0
    ensures forall d :: start <= d < current ==> Workdays(start, d) < days
    ensures current == ClosedForm(start, days)
  {
    current := start;
    var added := 0;
    ClosedFormCounts(start, 0);
    NextIsNextWorkday(start, 0);
    hide ClosedForm, Weekday, Workdays;
    while added < days
      invariant 0 <= added && (added <= days || added == 0)
      invariant ClosedForm(start, added) <= current < ClosedForm(start, added + 1)
      invariant added >= days ==> current == ClosedForm(start, added)
      decreases days - added, ClosedForm(start, added + 1) - current
    {
      current := current + 1;
      NextIsNextWorkday(start, added);
      if Weekday(current) < 5 {
        assert IsWorkday(current);
        added := added + 1;
        NextIsNextWorkday(start, added);
      } else {
        assert !IsWorkday(current);
      }
    }
    ClosedFormCounts(start, added);
    ClosedFormIsFirst(start, added);
    if days <= 0 {
      ClosedFormOfNegative(start, days);
      ClosedFormOfNegative(start, 0);
    }
  }

  /** The closed form is the only date that is a workday with exactly `days` workdays behind it. */
  lemma ClosedFormIsUnique(start: int, days: int, date: int)
    requires days > 0 && date >= start && IsWorkday(date) && Workdays(start, date) == days
    ensures date == ClosedForm(start, days)
  {
    ClosedFormCounts(start, days);
    var c := ClosedForm(start, days);
    if date < c {
      StrictlyMore(start, date, c);
    } else if c < date {
      StrictlyMore(start, c, date);
    }
  }

  lemma GapAgain(start: int, m: int, n: int)
    requires m >= 0 && n > 0 && ClosedForm(ClosedForm(start, m), n - 1) == ClosedForm(start, m + n - 1)
    ensures ClosedForm(ClosedForm(start, m), n) == ClosedForm(start, m + n)
  {
    hide ClosedForm, Weekday;
    Gap(start, m + n - 1);
    Gap(ClosedForm(start, m), n - 1);
  }

  /** Adding m then n business days is adding m + n at once. */
  lemma {:induction false} AddingComposes(start: int, m: int, n: int)
    requires m >= 0 && n >= 0
    ensures ClosedForm(ClosedForm(start, m), n) == ClosedForm(start, m + n)
    decreases n
  {
    hide ClosedForm;
    if n == 0 {
      ClosedFormOfNegative(ClosedForm(start, m), 0);
    } else {
      AddingComposes(start, m, n - 1);
      GapAgain(start, m, n);
    }
  }
}
