/**
 * The publication window of the "garimpo" search: a period button gives
 * bounds relative to `utcnow()`, and explicit start and end dates override
 * them. Instants are microseconds since the epoch (UTC); a calendar day is
 * `t / MicrosPerDay` and the time of day `t % MicrosPerDay`.
 */
module Window {
  import opened Wrappers
  import opened Scoring
  import opened Arith

  datatype Bounds = Bounds(after: Option<int>, before: Option<int>)

  /** A date field of the form: empty or absent, a `%Y-%m-%d` date (as its day number), or text `strptime` rejects. */
  datatype DateField = Blank | Date(day: int) | Unparseable

  /**
   * `t.replace(hour=h, minute=m, second=s)`: the same day and microseconds,
   * the given clock time.
   */
  function AtClock(t: int, h: nat, m: nat, s: nat): (r: int)
    requires h < 24 && m < 60 && s < 60
    ensures r / MicrosPerDay == t / MicrosPerDay
    ensures r % MicrosPerDay == ((h * 60 + m) * 60 + s) * MicrosPerSecond + t % MicrosPerSecond
  {
    var clock := ((h * 60 + m) * 60 + s) * MicrosPerSecond;
    var micros := t % MicrosPerSecond;
    var day := t / MicrosPerDay;
    DayStartPlus(day, clock + micros);
    day * MicrosPerDay + clock + micros
  }

  lemma DayStartPlus(day: int, offset: int)
    requires 0 <= offset < MicrosPerDay
    ensures (day * MicrosPerDay + offset) / MicrosPerDay == day
    ensures (day * MicrosPerDay + offset) % MicrosPerDay == offset
  {
  }

  /**
   * The bounds a period button sets: `today` from midnight (keeping the
   * microseconds of now), `yesterday` from yesterday's 00:00:00 to its
   * 23:59:59, `week`, `month` and `year` from 7, 30 and 365 days back; any
   * other value sets nothing.
   */
  function PeriodBounds(button: string, now: int): (w: Bounds)
    ensures button == "today" ==>
      && w.before.None? && w.after.Some?
      && w.after.value / MicrosPerDay == now / MicrosPerDay
      && w.after.value % MicrosPerDay == now % MicrosPerSecond
    ensures button == "yesterday" ==>
      && w.after.Some? && w.before.Some?
      && w.after.value / MicrosPerDay == w.before.value / MicrosPerDay == now / MicrosPerDay - 1
      && w.after.value % MicrosPerDay == now % MicrosPerSecond
      && w.before.value - w.after.value == 86_399 * MicrosPerSecond
    ensures button in {"week", "month", "year"} ==>
      && w.before.None? && w.after.Some?
      && now - w.after.value == (if button == "week" then 7 else if button == "month" then 30 else 365) * MicrosPerDay
    ensures button !in {"today", "yesterday", "week", "month", "year"} ==> w == Bounds(None, None)
  {
    if button == "today" then
      Bounds(Some(AtClock(now, 0, 0, 0)), None)
    else if button == "yesterday" then
      var yesterday := now - MicrosPerDay;
      SameMicros(now);
      Bounds(Some(AtClock(yesterday, 0, 0, 0)), Some(AtClock(yesterday, 23, 59, 59)))
    else if button == "week" then Bounds(Some(now - 7 * MicrosPerDay), None)
    else if button == "month" then Bounds(Some(now - 30 * MicrosPerDay), None)
    else if button == "year" then Bounds(Some(now - 365 * MicrosPerDay), None)
    else Bounds(None, None)
  }

  lemma SameMicros(now: int)
    ensures (now - MicrosPerDay) / MicrosPerDay == now / MicrosPerDay - 1
    ensures (now - MicrosPerDay) % MicrosPerSecond == now % MicrosPerSecond
  {
    ShiftByMultiple(now, MicrosPerDay, -1);
    ShiftByMultiple(now, MicrosPerSecond, -86_400);
  }

  /**
   * The window `garimpo` searches in, or None when `strptime` raises.
   * A start date replaces the period's lower bound by that day's midnight,
   * an end date replaces the upper bound; blank dates keep the period's.
   */
  function ResolveWindow(button: string, start: DateField, end: DateField, now: int): (r: Option<Bounds>)
    ensures r.None? <==> start.Unparseable? || end.Unparseable?
    ensures r.Some? && start.Date? ==> r.value.after == Some(start.day * MicrosPerDay)
    ensures r.Some? && end.Date? ==> r.value.before == Some(end.day * MicrosPerDay)
    ensures r.Some? && start.Blank? ==> r.value.after == PeriodBounds(button, now).after
    ensures r.Some? && end.Blank? ==> r.value.before == PeriodBounds(button, now).before
  {
    var period := PeriodBounds(button, now);
    if start.Unparseable? || end.Unparseable? then None
    else
      var after := if start.Date? then Some(start.day * MicrosPerDay) else period.after;
      var before := if end.Date? then Some(end.day * MicrosPerDay) else period.before;
      Some(Bounds(after, before))
  }

  /** Explicit dates make the period button irrelevant. */
  lemma DatesOverrideButton(b1: string, b2: string, startDay: int, endDay: int, now1: int, now2: int)
    ensures ResolveWindow(b1, Date(startDay), Date(endDay), now1) == ResolveWindow(b2, Date(startDay), Date(endDay), now2)
  {
  }

  /** Every window the buttons produce ends no later than now and, for yesterday, before today began. */
  lemma PeriodBoundsNotInFuture(button: string, now: int)
    ensures var w := PeriodBounds(button, now);
      && (w.after.Some? ==> w.after.value <= now)
      && (w.before.Some? ==> w.before.value < now - now % MicrosPerDay)
  {
  }
}
