/** The week window of the payroll tracker: from a reference day, the Monday
    that starts its week and the Sunday that ends it (weeks start on Monday,
    whatever the platform's own convention).

    Calendar days are integers counted from 1 January 1970, which was a
    Thursday. A rendered date (toLocaleDateString with the "ru-RU" locale,
    written dd.mm.yyyy) is kept as the day it renders: the rendering is
    one-to-one, so two labels are equal exactly when their days are. */
module Week {

  const Sunday := 0
  const Monday := 1

  /** The day of the week as Date.getDay reports it: 0 is Sunday, 1 Monday, ..., 6 Saturday. */
  function GetDay(day: int): (w: int)
    ensures 0 <= w < 7
  {
    (day + 4) % 7
  }

  /** A rendered date label. */
  datatype DateText = Formatted(day: int)

  /** The two labels getCurrentWeekRange returns. */
  datatype WeekRange = WeekRange(start: DateText, end: DateText)

  /** How many days the reference day lies after its Monday: (getDay() + 6) % 7. */
  function DaysSinceMonday(day: int): (k: int)
    ensures 0 <= k <= 6
    ensures k == 0 <==> GetDay(day) == Monday
  {
    (GetDay(day) + 6) % 7
  }

  /** The Monday of the week that holds `day`. */
  function MondayOf(day: int): (m: int)
    ensures GetDay(m) == Monday
    ensures m <= day <= m + 6
  {
    day - DaysSinceMonday(day)
  }

  /** The week window of a reference day, as a function for use in specifications. */
  function WeekOf(now: int): WeekRange
  {
    WeekRange(Formatted(MondayOf(now)), Formatted(MondayOf(now) + 6))
  }

  /** Two Mondays less than a week apart are the same day. */
  lemma MondaysAWeekApart(m1: int, m2: int)
    requires GetDay(m1) == Monday && GetDay(m2) == Monday
    requires m1 <= m2 <= m1 + 6
    ensures m1 == m2
  {
  }

  /** The Monday of a day is the only Monday at most six days before it. */
  lemma MondayOfUnique(day: int, m: int)
    requires GetDay(m) == Monday && m <= day <= m + 6
    ensures m == MondayOf(day)
  {
    var m' := MondayOf(day);
    if m <= m' {
      MondaysAWeekApart(m, m');
    } else {
      MondaysAWeekApart(m', m);
    }
  }

  /** Two days have the same week window exactly when the second lies in the
      Monday-to-Sunday span of the first. */
  lemma SameWeek(d1: int, d2: int)
    ensures WeekOf(d1) == WeekOf(d2) <==> MondayOf(d1) <= d2 <= MondayOf(d1) + 6
  {
    if MondayOf(d1) <= d2 <= MondayOf(d1) + 6 {
      MondayOfUnique(d2, MondayOf(d1));
    }
  }

  /** getCurrentWeekRange: copy the reference day, move the copy back to the
      Monday, copy the Monday and move that copy forward six days. */
  method CurrentWeekRange(now: int) returns (week: WeekRange)
    ensures GetDay(week.start.day) == Monday
    ensures week.start.day <= now <= week.start.day + 6
    ensures week.end.day == week.start.day + 6
    ensures week == WeekOf(now)
  {
    // each pair mirrors `new Date(...)` followed by `setDate(...)`
    var monday := now;
    monday := now - (GetDay(now) + 6) % 7;
    var sunday := monday;
    sunday := monday + 6;
    week := WeekRange(Formatted(monday), Formatted(sunday));
  }
}
