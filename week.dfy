/**
 * The week arithmetic of parse_events_for_week and check_api (src/bot.py).
 * Dates are Python's proleptic ordinals (day 1 is Monday 1 January of year
 * 1), so `date.weekday()` is `(ordinal + 6) % 7` with Monday as 0; an
 * instant is a count of seconds, and midnight UTC of day `d` is
 * `d * 86400`.
 */
module Week {
  const SecondsPerDay := 86400
  const Sunday := 6
  /** check_api looks at the week of today and at the week of today + 5 days. */
  const LookAheadDays := 5

  function Weekday(d: int): (w: int)
    ensures 0 <= w < 7
  {
    (d + 6) % 7
  }

  /** week_start = probe - (weekday % 7 + 1) days. */
  function WeekStart(probe: int): (s: int)
    ensures Weekday(s) == Sunday
    ensures probe - 7 <= s <= probe - 1
  {
    probe - (Weekday(probe) % 7 + 1)
  }

  /** week_end = week_start + 7 days: the next Sunday. */
  function WeekEnd(probe: int): (e: int)
    ensures e == WeekStart(probe) + 7 && Weekday(e) == Sunday
  {
    WeekStart(probe) + 7
  }

  /** Midnight UTC at the start of day `d`, as an instant. */
  function DayStart(d: int): int { d * SecondsPerDay }

  /** The instants build_single_event_block keeps: both bounds included. */
  predicate InWeekWindow(t: int, probe: int)
  {
    DayStart(WeekStart(probe)) <= t <= DayStart(WeekEnd(probe))
  }

  /** The week start is the last Sunday strictly before the probe. */
  lemma WeekStartIsLastSundayBefore(probe: int, s: int)
    requires s < probe && Weekday(s) == Sunday
    ensures s <= WeekStart(probe)
  {
  }

  /** A Sunday probe starts the previous Sunday's week, a full week back. */
  lemma SundayProbe(probe: int)
    requires Weekday(probe) == Sunday
    ensures WeekStart(probe) == probe - 7
  {
  }

  /** Probes seven days apart land in consecutive weeks. */
  lemma WeekStartShift(probe: int)
    ensures WeekStart(probe + 7) == WeekStart(probe) + 7
  {
  }

  /**
   * The two probes of check_api, today and today + 5 days, fall in the same
   * week or in consecutive weeks.
   */
  lemma ProbesShareOrFollow(today: int)
    ensures WeekStart(today + LookAheadDays) == WeekStart(today)
         || WeekStart(today + LookAheadDays) == WeekStart(today) + 7
  {
  }

  /** An event at midnight of the closing Sunday is in two consecutive weeks' windows. */
  lemma BoundaryInstantInTwoWeeks(probe: int)
    ensures InWeekWindow(DayStart(WeekEnd(probe)), probe)
    ensures InWeekWindow(DayStart(WeekEnd(probe)), probe + 7)
  {
    WeekStartShift(probe);
  }
}
