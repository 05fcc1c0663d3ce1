/**
 * Dates as the route handlers use them. An instant is a count of milliseconds since 1970-01-01T00:00Z;
 * a day is a whole number of days since that date. Time zones are not modelled: every day boundary is UTC.
 */
module Calendar {

  const MillisPerDay: int := 86_400_000

  /** The day an instant falls on (midnight of that day for `setHours(0, 0, 0, 0)`). */
  function DayOf(instant: int): (d: int)
    ensures d * MillisPerDay <= instant < (d + 1) * MillisPerDay
  {
    instant / MillisPerDay
  }

  /** `Date.prototype.getDay`: 0 for Sunday up to 6 for Saturday; day 0 (1970-01-01) was a
      Thursday, so the Sundays are the days 3 modulo 7 (1970-01-04 was the first). */
  function Weekday(day: int): (w: int)
    ensures 0 <= w < 7
    ensures w == 0 <==> day % 7 == 3
  {
    (day + 4) % 7
  }

  /** One day later is one weekday later, wrapping from Saturday to Sunday. */
  lemma WeekdayNext(day: int)
    ensures Weekday(day + 1) == (Weekday(day) + 1) % 7
  {
  }

  /** The first day the diet-plan lookup accepts: the most recent Sunday, today included. */
  function CurrentWeekStart(today: int): (d: int)
    ensures Weekday(d) == 0
    ensures today - 6 <= d <= today
    ensures today - d == Weekday(today)
  {
    today - Weekday(today)
  }

  /** The week start stored with a new diet plan: the day after `CurrentWeekStart`, which is a Monday —
      the coming Monday when today is a Sunday. */
  function PlanWeekStart(today: int): (d: int)
    ensures Weekday(d) == 1
    ensures today - 5 <= d <= today + 1
    ensures d == today + 1 <==> Weekday(today) == 0
    ensures d == CurrentWeekStart(today) + 1
  {
    today - Weekday(today) + 1
  }

  /** Two week starts are a whole number of weeks apart. */
  lemma {:induction false} WeekStartsWeeksApart(today: int, later: int)
    requires today <= later
    ensures CurrentWeekStart(today) <= CurrentWeekStart(later)
    ensures (CurrentWeekStart(later) - CurrentWeekStart(today)) % 7 == 0
  {
    var a, b := CurrentWeekStart(today), CurrentWeekStart(later);
    assert (a + 4) % 7 == 0 && (b + 4) % 7 == 0;
    assert (b - a) % 7 == 0;
  }

  /** A plan stored on day `today` is found by the lookup on any later day `later` exactly when both
      days lie in the same Sunday-to-Saturday week. */
  lemma {:induction false} PlanVisibleDuringItsWeek(today: int, later: int)
    requires today <= later
    ensures PlanWeekStart(today) >= CurrentWeekStart(later) <==> CurrentWeekStart(later) == CurrentWeekStart(today)
  {
    WeekStartsWeeksApart(today, later);
  }
}
