/** Instants and durations, counted in nanoseconds. An instant may lie before the Unix epoch. */
module Time {

  type Instant = int
  type Duration = nat

  const SECOND: Duration := 1_000_000_000
  const DAY: Duration := 86_400 * SECOND

  // The times the documentation speaks of.
  const FIVE_MINUTES: Duration := 300 * SECOND
  const TEN_MINUTES: Duration := 600 * SECOND
  const ONE_HOUR: Duration := 3600 * SECOND

  function UnixToInstant(secs: int): Instant {
    secs * SECOND
  }

  // `now.duration_since(t).unwrap_or(ZERO)`: the time from `t` to `now`, zero when `t` lies ahead.
  function Since(now: Instant, t: Instant): (d: Duration) {
    if t <= now then now - t else 0
  }
}
