/**
 * Wall-clock arithmetic. An instant is a whole number of seconds of local
 * time since the epoch (the time-zone offset is folded in), so a calendar
 * day, a time of day and a weekday are integer divisions.
 */
module Clock {
  type Instant = int

  const SecondsPerDay: int := 86400

  /** The calendar day of an instant (days since the epoch). */
  function Day(t: Instant): int {
    t / SecondsPerDay
  }

  /** The instant at 00:00:00 of the day of `t` (`setHours(0, 0, 0, 0)`). */
  function Midnight(t: Instant): (m: Instant)
    ensures m <= t < m + SecondsPerDay
    ensures Day(m) == Day(t) && m % SecondsPerDay == 0
  {
    Day(t) * SecondsPerDay
  }

  /** The instant at the given hour, minute and second of the day of `t`. */
  function At(t: Instant, hour: int, minute: int, second: int): Instant {
    Midnight(t) + hour * 3600 + minute * 60 + second
  }

  /** `Date.getDay()`: 0 is Sunday, 6 is Saturday; day 0 of the epoch was a Thursday. */
  function Weekday(t: Instant): (w: int)
    ensures 0 <= w < 7
  {
    (Day(t) + 4) % 7
  }
}
