/**
 * Wall-clock instants in the program's fixed local zone.
 *
 * `main` (main.go:53) replaces the local zone by a fixed UTC+7 offset with no
 * daylight-saving rule, so every local calendar day is exactly 24 hours long.
 * An instant is therefore a local day number and a time of day, and
 * `AddDate(0, 0, n)` applied to a midnight is "day + n, still midnight".
 */
module Clock {

  const NanosPerHour := 3_600_000_000_000
  const NanosPerDay := 86_400_000_000_000

  /** Nanoseconds elapsed since local midnight. */
  type TimeOfDay = n: int | 0 <= n < NanosPerDay

  /** `day` counts local calendar days from 1970-01-01 (a Thursday). */
  datatype Instant = Instant(day: int, clock: TimeOfDay)

  /** Go's `time.Weekday` numbering. */
  const Sunday := 0
  const Monday := 1
  const Friday := 5
  const Saturday := 6

  /** The bank stops processing for the day at 22:00 local time. */
  const CutoffHour := 22

  function DayOfWeek(day: int): (w: int)
    ensures 0 <= w < 7
  {
    (day + 4) % 7
  }

  predicate IsBusinessDay(day: int) {
    Monday <= DayOfWeek(day) <= Friday
  }

  function Hour(t: Instant): (h: int)
    ensures 0 <= h < 24
    ensures h * NanosPerHour <= t.clock < (h + 1) * NanosPerHour
  {
    t.clock / NanosPerHour
  }

  /** `time.Date(y, m, d, 0, 0, 0, 0, loc)` for the instant's own date. */
  function Midnight(t: Instant): Instant {
    Instant(t.day, 0)
  }

  /** `t.AddDate(0, 0, n)`: with a fixed offset the time of day is kept. */
  function AddDays(t: Instant, n: int): Instant {
    Instant(t.day + n, t.clock)
  }

  /** `a.After(b)`: a is strictly later than b. */
  predicate After(a: Instant, b: Instant) {
    a.day > b.day || (a.day == b.day && a.clock > b.clock)
  }

  /** The statement window `[end - 27 days, end]` fetched from the bank. */
  datatype Window = Window(start: Instant, end: Instant)

  /**
   * Predicted settlement date of a pending entry observed at `now`
   * (`clearDate`): the bank processes on weekdays only and stops at 22:00.
   */
  function ClearDate(now: Instant): (r: Instant)
    ensures r.clock == 0
    ensures now.day <= r.day <= now.day + 3
    ensures IsBusinessDay(r.day)
  {
    var rounded := Midnight(now);
    var weekday := DayOfWeek(now.day);
    if weekday == Friday then
      if Hour(now) < CutoffHour then rounded else AddDays(rounded, 3)
    else if weekday == Saturday then
      AddDays(rounded, 2)
    else if weekday == Sunday then
      AddDays(rounded, 1)
    else
      if Hour(now) < CutoffHour then rounded else AddDays(rounded, 1)
  }

  /**
   * A day on which an entry observed at `now` can still be processed: a
   * weekday, today or later, and if today then before the cutoff.
   */
  predicate OpenFor(now: Instant, day: int) {
    now.day <= day && IsBusinessDay(day) && (day == now.day ==> Hour(now) < CutoffHour)
  }

  /**
   * The weekday/hour table of `clearDate` is the same as "midnight of the
   * first day on which the bank still processes".
   */
  lemma ClearDateIsFirstOpenDay(now: Instant)
    ensures OpenFor(now, ClearDate(now).day)
    ensures forall d :: now.day <= d < ClearDate(now).day ==> !OpenFor(now, d)
  {
  }

  /** Conversely, the first open day at midnight can only be `ClearDate(now)`. */
  lemma FirstOpenDayIsClearDate(now: Instant, r: Instant)
    requires r.clock == 0 && OpenFor(now, r.day)
    requires forall d :: now.day <= d < r.day ==> !OpenFor(now, d)
    ensures r == ClearDate(now)
  {
    ClearDateIsFirstOpenDay(now);
  }

  /** The settlement date is today exactly when today is still open. */
  lemma ClearDateIsToday(now: Instant)
    ensures ClearDate(now) == Midnight(now) <==> IsBusinessDay(now.day) && Hour(now) < CutoffHour
    ensures ClearDate(now) != Midnight(now) ==> After(ClearDate(now), now)
  {
  }

  /**
   * The schedule on dates of March 2021 (day 18688 is Tuesday 2021-03-02,
   * days 18691 to 18693 are Friday 2021-03-05 to Sunday 2021-03-07).
   */
  lemma ClearDateExamples()
    ensures ClearDate(Instant(18691, 23 * NanosPerHour)) == Instant(18691 + 3, 0)
    ensures ClearDate(Instant(18691, 10 * NanosPerHour)) == Instant(18691, 0)
    ensures ClearDate(Instant(18692, 10 * NanosPerHour)) == Instant(18692 + 2, 0)
    ensures ClearDate(Instant(18693, 23 * NanosPerHour)) == Instant(18693 + 1, 0)
    ensures ClearDate(Instant(18688, 23 * NanosPerHour)) == Instant(18688 + 1, 0)
    ensures ClearDate(Instant(18688, 10 * NanosPerHour)) == Instant(18688, 0)
  {
  }

  /** The statement window: from 27 days before `now` up to `now` (main.go:234-235). */
  function StatementWindow(now: Instant): (w: Window)
    ensures w.end == now && After(w.end, w.start)
    ensures w.start.day + 27 == w.end.day && w.start.clock == w.end.clock
  {
    Window(AddDays(now, -27), now)
  }
}
