/** From the words a meeting used, once parsed, to a date: calendar arithmetic as Python's
    `datetime.date` does it, on the years it has. */
module Deadlines {
  import opened Prelude

  const MAX_YEAR := 9999

  datatype Date = Date(year: int, month: int, day: int)

  predicate Leap(year: int) {
    year % 4 == 0 && (year % 100 != 0 || year % 400 == 0)
  }

  function MonthLength(year: int, month: int): int {
    if month == 2 then (if Leap(year) then 29 else 28)
    else if month in {4, 6, 9, 11} then 30
    else 31
  }

  predicate IsDate(d: Date) {
    1 <= d.year <= MAX_YEAR && 1 <= d.month <= 12 && 1 <= d.day <= MonthLength(d.year, d.month)
  }

  // ------------------------------------------------------------ counting days

  function DaysBeforeYear(year: int): int {
    (year - 1) * 365 + (year - 1) / 4 - (year - 1) / 100 + (year - 1) / 400
  }

  function DaysBeforeMonth(year: int, month: nat): int {
    if month <= 1 then 0 else DaysBeforeMonth(year, month - 1) + MonthLength(year, month - 1)
  }

  /** 1 January of year 1 is day 1. */
  function Ordinal(d: Date): int
    requires IsDate(d)
  {
    DaysBeforeYear(d.year) + DaysBeforeMonth(d.year, d.month) + d.day
  }

  /** Monday is 0. */
  function Weekday(d: Date): int
    requires IsDate(d)
  {
    (Ordinal(d) + 6) % 7
  }

  /** Calendar order. */
  predicate Before(a: Date, b: Date) {
    || a.year < b.year
    || (a.year == b.year && a.month < b.month)
    || (a.year == b.year && a.month == b.month && a.day < b.day)
  }

  lemma YearLength(year: int)
    requires year >= 1
    ensures DaysBeforeYear(year + 1) == DaysBeforeYear(year) + 365 + (if Leap(year) then 1 else 0)
  {
    CarryAt(year, 4);
    CarryAt(year, 100);
    CarryAt(year, 400);
    LeapByHundreds(year);
  }

  lemma CarryAt(year: int, n: int)
    requires year >= 1 && n in {4, 100, 400}
    ensures year / n == (year - 1) / n + (if year % n == 0 then 1 else 0)
  {
    if n == 4 {
      assert year / 4 == (year - 1) / 4 + (if year % 4 == 0 then 1 else 0);
    } else if n == 100 {
      assert year / 100 == (year - 1) / 100 + (if year % 100 == 0 then 1 else 0);
    } else {
      assert year / 400 == (year - 1) / 400 + (if year % 400 == 0 then 1 else 0);
    }
  }

  lemma LeapByHundreds(year: int)
    ensures year % 400 == 0 ==> year % 100 == 0
    ensures year % 100 == 0 ==> year % 4 == 0
  {
  }

  lemma MonthsAddUp(year: int)
    ensures DaysBeforeMonth(year, 12) + MonthLength(year, 12) == 365 + (if Leap(year) then 1 else 0)
  {
    assert DaysBeforeMonth(year, 2) == 31;
    assert DaysBeforeMonth(year, 4) == 31 + MonthLength(year, 2) + 31;
    assert DaysBeforeMonth(year, 6) == DaysBeforeMonth(year, 4) + 30 + 31;
    assert DaysBeforeMonth(year, 8) == DaysBeforeMonth(year, 6) + 30 + 31;
    assert DaysBeforeMonth(year, 10) == DaysBeforeMonth(year, 8) + 31 + 30;
    assert DaysBeforeMonth(year, 12) == DaysBeforeMonth(year, 10) + 31 + 30;
  }

  lemma {:induction false} MonthsAscend(year: int, a: nat, b: nat)
    requires 1 <= a < b
    ensures DaysBeforeMonth(year, a) + MonthLength(year, a) <= DaysBeforeMonth(year, b)
    decreases b
  {
    if a + 1 < b {
      MonthsAscend(year, a, b - 1);
    }
  }

  lemma {:induction false} YearsAscend(a: int, b: int)
    requires 1 <= a < b
    ensures DaysBeforeYear(a) + 365 + (if Leap(a) then 1 else 0) <= DaysBeforeYear(b)
    decreases b
  {
    YearLength(b - 1);
    if a + 1 < b {
      YearsAscend(a, b - 1);
    }
  }

  /** The calendar and the day count agree on what comes first. */
  lemma BeforeIsLess(a: Date, b: Date)
    requires IsDate(a) && IsDate(b)
    ensures Before(a, b) <==> Ordinal(a) < Ordinal(b)
    ensures a == b <==> Ordinal(a) == Ordinal(b)
  {
    if Before(a, b) {
      EarlierIsLess(a, b);
    } else if Before(b, a) {
      EarlierIsLess(b, a);
    }
  }

  lemma EarlierIsLess(a: Date, b: Date)
    requires IsDate(a) && IsDate(b) && Before(a, b)
    ensures Ordinal(a) < Ordinal(b)
  {
    hide DaysBeforeYear, DaysBeforeMonth, MonthLength;
    if a.year < b.year {
      YearsAscend(a.year, b.year);
      MonthsAddUp(a.year);
      if a.month < 12 {
        MonthsAscend(a.year, a.month, 12);
      }
      MonthStartsLate(b.year, b.month);
      MonthIsPositive(a.year, 12);
    } else if a.month < b.month {
      MonthsAscend(a.year, a.month, b.month);
    }
  }

  lemma {:induction false} MonthStartsLate(year: int, month: nat)
    ensures DaysBeforeMonth(year, month) >= 0
  {
    if month > 1 {
      MonthStartsLate(year, month - 1);
    }
  }

  lemma MonthIsPositive(year: int, month: int)
    ensures 28 <= MonthLength(year, month) <= 31
  {
  }

  /** The twelve lengths, and the years there are. */
  lemma TheCalendar(year: int)
    ensures MonthLength(year, 1) == MonthLength(year, 3) == MonthLength(year, 5) == MonthLength(year, 7) == 31
    ensures MonthLength(year, 8) == MonthLength(year, 10) == MonthLength(year, 12) == 31
    ensures MonthLength(year, 4) == MonthLength(year, 6) == MonthLength(year, 9) == MonthLength(year, 11) == 30
    ensures MonthLength(2023, 2) == MonthLength(1900, 2) == 28 && MonthLength(2024, 2) == MonthLength(2000, 2) == 29
    ensures IsDate(Date(9999, 12, 31)) && !IsDate(Date(10000, 1, 1))
    ensures IsDate(Date(1, 1, 1)) && !IsDate(Date(0, 1, 1))
  {
  }

  /** The first day there is was a Monday, and the first of January 2000 a Saturday. */
  lemma KnownWeekdays(d: Date)
    requires IsDate(d) && d.month == d.day == 1
    ensures d.year == 1 ==> Ordinal(d) == 1 && Weekday(d) == 0
    ensures d.year == 2000 ==> Weekday(d) == 5
  {
    hide IsDate, Ordinal;
    KnownDays(d);
  }

  lemma KnownDays(d: Date)
    requires IsDate(d) && d.month == d.day == 1
    ensures d.year == 1 ==> Ordinal(d) == 1
    ensures d.year == 2000 ==> Ordinal(d) == 730120
  {
    hide IsDate, MonthLength;
  }

  // ------------------------------------------------------------ moving by days

  function NextDay(d: Date): Option<Date>
    requires IsDate(d)
  {
    if d.day < MonthLength(d.year, d.month) then Some(d.(day := d.day + 1))
    else if d.month < 12 then Some(Date(d.year, d.month + 1, 1))
    else if d.year < MAX_YEAR then Some(Date(d.year + 1, 1, 1))
    else None
  }

  lemma NextDayIsNext(d: Date)
    requires IsDate(d)
    ensures NextDay(d).Some? ==> IsDate(NextDay(d).value) && Ordinal(NextDay(d).value) == Ordinal(d) + 1
    ensures NextDay(d).None? <==> d == Date(MAX_YEAR, 12, 31)
  {
    hide DaysBeforeYear;
    if d.day == MonthLength(d.year, d.month) && d.month == 12 && d.year < MAX_YEAR {
      YearLength(d.year);
      MonthsAddUp(d.year);
    }
  }

  /** `None` is the overflow past the last year. */
  function AddDays(d: Date, n: nat): Option<Date>
    requires IsDate(d)
    decreases n
  {
    if n == 0 then Some(d)
    else
      var next := NextDay(d);
      if next.None? then None
      else
        NextDayIsNext(d);
        AddDays(next.value, n - 1)
  }

  const LAST := Date(MAX_YEAR, 12, 31)

  lemma {:induction false} AddDaysAdds(d: Date, n: nat)
    requires IsDate(d)
    ensures AddDays(d, n).Some? ==> IsDate(AddDays(d, n).value) && Ordinal(AddDays(d, n).value) == Ordinal(d) + n
    ensures AddDays(d, n).None? <==> Ordinal(d) + n > Ordinal(LAST)
    decreases n
  {
    hide Ordinal;
    NextDayIsNext(d);
    if n > 0 && NextDay(d).Some? {
      AddDaysAdds(NextDay(d).value, n - 1);
    }
    LastIsLast(d);
  }

  lemma LastIsLast(d: Date)
    requires IsDate(d)
    ensures Ordinal(d) <= Ordinal(LAST)
  {
    BeforeIsLess(LAST, d);
  }

  // ------------------------------------------------------------ deadlines

  /** What the words came down to. `next` records a "prochain" or a "next" beside the day. */
  datatype Words =
    | Empty | Today | Tomorrow | DayAfterTomorrow | DayNumber(day: nat)
    | NamedDay(index: int, next: bool) | NextWeek | EndOfMonth | Unknown

  datatype Deadline = On(date: Date) | NoDate | Overflow

  function Shifted(reference: Date, days: nat): Deadline
    requires IsDate(reference)
  {
    var moved := AddDays(reference, days);
    if moved.Some? then On(moved.value) else Overflow
  }

  function DaysAhead(index: int, next: bool, today: int): (n: int)
    requires 0 <= index < 7 && 0 <= today < 7
    ensures 1 <= n <= 7
  {
    var ahead := (index - today) % 7;
    var ahead := if ahead == 0 then 7 else ahead;
    if next then (if ahead > 0 then ahead else 7) else ahead
  }

  /** The month a day number falls in: this one while the day is still to come. */
  function ChosenMonth(day: nat, reference: Date): (int, int) {
    if day > reference.day then (reference.year, reference.month)
    else if reference.month == 12 then (reference.year + 1, 1)
    else (reference.year, reference.month + 1)
  }

  function NextDayOfMonth(day: nat, reference: Date): Deadline {
    if !(1 <= day <= 31) then NoDate
    else
      var (year, month) := ChosenMonth(day, reference);
      var date := Date(year, month, day);
      if IsDate(date) then On(date) else NoDate
  }

  /** The first of the next month, less a day. */
  function MonthEnd(reference: Date): Date {
    if reference.month == 12 then Date(reference.year, 12, 31)
    else Date(reference.year, reference.month, MonthLength(reference.year, reference.month))
  }

  function Normalise(w: Words, reference: Date): Deadline
    requires IsDate(reference)
    requires w.NamedDay? ==> 0 <= w.index < 7
  {
    match w
    case Empty => NoDate
    case Today => On(reference)
    case Tomorrow => Shifted(reference, 1)
    case DayAfterTomorrow => Shifted(reference, 2)
    case DayNumber(day) => NextDayOfMonth(day, reference)
    case NamedDay(index, next) => Shifted(reference, DaysAhead(index, next, Weekday(reference)))
    case NextWeek => Shifted(reference, 7 - Weekday(reference) + 4)
    case EndOfMonth => On(MonthEnd(reference))
    case Unknown => NoDate
  }

  /** No deadline lies before the meeting. */
  lemma NeverInThePast(w: Words, reference: Date)
    requires IsDate(reference) && (w.NamedDay? ==> 0 <= w.index < 7)
    ensures var r := Normalise(w, reference);
            r.On? ==> IsDate(r.date) && !Before(r.date, reference)
    ensures Normalise(w, reference).Overflow? ==>
              Ordinal(reference) + 11 > Ordinal(LAST) && (w.Tomorrow? || w.DayAfterTomorrow? || w.NamedDay? || w.NextWeek?)
  {
    hide AddDays, Ordinal, MonthLength, Before;
    match w
    case Tomorrow => ShiftedIsLater(reference, 1);
    case DayAfterTomorrow => ShiftedIsLater(reference, 2);
    case NamedDay(index, next) => ShiftedIsLater(reference, DaysAhead(index, next, Weekday(reference)));
    case NextWeek => ShiftedIsLater(reference, 7 - Weekday(reference) + 4);
    case DayNumber(day) => DayNumberIsLater(day, reference);
    case EndOfMonth => LastOfTheMonth(reference);
    case Today => BeforeIsLess(reference, reference);
    case _ =>
  }

  lemma DayNumberIsLater(day: nat, reference: Date)
    requires IsDate(reference)
    ensures NextDayOfMonth(day, reference).On? ==>
              IsDate(NextDayOfMonth(day, reference).date) && Before(reference, NextDayOfMonth(day, reference).date)
              && !Before(NextDayOfMonth(day, reference).date, reference)
  {
  }

  lemma ShiftedIsLater(reference: Date, days: nat)
    requires IsDate(reference)
    ensures var r := Shifted(reference, days);
            && (r.On? ==> IsDate(r.date) && Ordinal(r.date) == Ordinal(reference) + days && !Before(r.date, reference))
            && !r.NoDate?
            && (r.Overflow? <==> Ordinal(reference) + days > Ordinal(LAST))
  {
    AddDaysAdds(reference, days);
    var r := Shifted(reference, days);
    if r.On? {
      BeforeIsLess(r.date, reference);
    }
  }

  /** Words that count from the meeting's day, and words that name no day. */
  lemma CountedDays(reference: Date)
    requires IsDate(reference)
    ensures Normalise(Today, reference) == On(reference)
    ensures var r := Normalise(Tomorrow, reference);
            r.On? ==> IsDate(r.date) && Ordinal(r.date) == Ordinal(reference) + 1
    ensures var r := Normalise(DayAfterTomorrow, reference);
            r.On? ==> IsDate(r.date) && Ordinal(r.date) == Ordinal(reference) + 2
    ensures Normalise(Tomorrow, reference).Overflow? || Normalise(Tomorrow, reference).On?
    ensures Normalise(DayAfterTomorrow, reference).Overflow? || Normalise(DayAfterTomorrow, reference).On?
    ensures Normalise(Empty, reference) == Normalise(Unknown, reference) == NoDate
    ensures var r := Normalise(EndOfMonth, reference);
            r.On? && IsDate(r.date) && r.date.month == reference.month
            && (NextDay(r.date).Some? ==> NextDay(r.date).value.month != reference.month)
  {
    ShiftedIsLater(reference, 1);
    ShiftedIsLater(reference, 2);
    LastOfTheMonth(reference);
    hide Ordinal, AddDays;
  }

  /** A weekday is the first such day strictly after the meeting, whether or not somebody
      said "next". */
  lemma FirstSuchWeekday(index: int, next: bool, reference: Date, other: Date)
    requires IsDate(reference) && 0 <= index < 7 && IsDate(other)
    ensures Normalise(NamedDay(index, next), reference) == Normalise(NamedDay(index, !next), reference)
    ensures var r := Normalise(NamedDay(index, next), reference);
            r.On? ==>
              && IsDate(r.date) && Weekday(r.date) == index && Before(reference, r.date)
              && Ordinal(r.date) <= Ordinal(reference) + 7
              && (Before(reference, other) && Weekday(other) == index ==> !Before(other, r.date))
  {
    hide AddDays, Ordinal, Before;
    var ahead := DaysAhead(index, next, Weekday(reference));
    ShiftedIsLater(reference, ahead);
    var r := Shifted(reference, ahead);
    if r.On? {
      BeforeIsLess(reference, r.date);
      BeforeIsLess(reference, other);
      BeforeIsLess(other, r.date);
      SameWeekday(Ordinal(reference), ahead, index, Ordinal(other));
    }
  }

  lemma SameWeekday(today: int, ahead: int, index: int, other: int)
    requires 0 <= index < 7 && ahead == DaysAhead(index, false, (today + 6) % 7)
    ensures (today + ahead + 6) % 7 == index
    ensures today < other < today + ahead ==> (other + 6) % 7 != index
  {
  }

  /** A day number is the least later date with that number; there is none exactly when the
      month it falls in has no such day, or there is no such month. */
  lemma LeastDateWithThatNumber(day: nat, reference: Date, other: Date)
    requires IsDate(reference) && IsDate(other)
    ensures var r := Normalise(DayNumber(day), reference);
            var (year, month) := ChosenMonth(day, reference);
            && (r.On? ==>
                  && IsDate(r.date) && r.date.day == day && Before(reference, r.date)
                  && (other.day == day && Before(reference, other) ==> !Before(other, r.date)))
            && !r.Overflow?
            && (r.NoDate? <==> day == 0 || day > MonthLength(year, month) || year > MAX_YEAR)
  {
    MonthIsPositive(ChosenMonth(day, reference).0, ChosenMonth(day, reference).1);
  }

  /** There may be a later date with that number all the same: the month after is not tried. */
  lemma ThirtyAfterTheThirtyFirst()
    ensures Normalise(DayNumber(30), Date(2026, 1, 31)) == NoDate
    ensures IsDate(Date(2026, 3, 30)) && Before(Date(2026, 1, 31), Date(2026, 3, 30))
  {
  }

  /** "Next week" is the Friday of the week that starts on the Monday after the meeting's. */
  lemma FridayOfNextWeek(reference: Date)
    requires IsDate(reference)
    ensures var r := Normalise(NextWeek, reference);
            r.On? ==>
              && IsDate(r.date) && Weekday(r.date) == 4
              && (Ordinal(r.date) - 1) / 7 == (Ordinal(reference) - 1) / 7 + 1
  {
    hide Ordinal, AddDays, IsDate;
    ShiftedIsLater(reference, 7 - Weekday(reference) + 4);
    var r := Normalise(NextWeek, reference);
    if r.On? {
      NextFriday(Ordinal(reference), Weekday(reference), Ordinal(r.date));
    }
  }

  lemma NextFriday(today: int, weekday: int, friday: int)
    requires weekday == (today + 6) % 7 && friday == today + 7 - weekday + 4
    ensures (friday + 6) % 7 == 4 && (friday - 1) / 7 == (today - 1) / 7 + 1
  {
    assert today + 6 == 7 * ((today + 6) / 7) + weekday;
  }

  /** The end of the month is its last day: the day after is in another month. */
  lemma LastOfTheMonth(reference: Date)
    requires IsDate(reference)
    ensures var r := MonthEnd(reference);
            && IsDate(r) && r.year == reference.year && r.month == reference.month
            && !Before(r, reference)
            && (NextDay(r).Some? ==> NextDay(r).value.month != reference.month)
            && (reference.month == 2 ==> r.day == if Leap(reference.year) then 29 else 28)
  {
  }

  /** Computed the way the program does: one day before the first of the next month. */
  lemma MonthEndIsTheDayBefore(reference: Date)
    requires IsDate(reference) && reference.month < 12
    ensures IsDate(MonthEnd(reference))
    ensures NextDay(MonthEnd(reference)) == Some(Date(reference.year, reference.month + 1, 1))
  {
  }
}
