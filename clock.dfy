/** Timestamps as the source's `datetime` values use them: a wall-clock
    reading in the timestamp's own time zone, counted in microseconds.
    `replace(hour=.., minute=.., second=0, microsecond=0)` keeps the date and
    the zone and sets the time of day. */
module Clock {

  type Instant = int

  const MicrosPerSecond: int := 1_000_000
  const MicrosPerMinute: int := 60 * MicrosPerSecond
  const MicrosPerHour: int := 60 * MicrosPerMinute
  const MicrosPerDay: int := 24 * MicrosPerHour

  function Minutes(m: int): int { m * MicrosPerMinute }

  function Seconds(s: int): int { s * MicrosPerSecond }

  /** Microseconds elapsed since midnight of the timestamp's own day. */
  function TimeOfDay(t: Instant): (r: int)
    ensures 0 <= r < MicrosPerDay
  {
    t % MicrosPerDay
  }

  /** Midnight of the timestamp's own day. */
  function DayStart(t: Instant): (r: Instant)
    ensures r <= t < r + MicrosPerDay
    ensures r % MicrosPerDay == 0
  {
    t - TimeOfDay(t)
  }

  /** The `hour` attribute of a timestamp. */
  function Hour(t: Instant): (r: int)
    ensures 0 <= r < 24
  {
    TimeOfDay(t) / MicrosPerHour
  }

  /** `t.replace(hour=h, minute=m, second=0, microsecond=0)`. */
  function AtTimeOfDay(t: Instant, h: int, m: int): (r: Instant)
    requires 0 <= h < 24 && 0 <= m < 60
    ensures DayStart(r) == DayStart(t)
    ensures TimeOfDay(r) == h * MicrosPerHour + m * MicrosPerMinute
  {
    var r := DayStart(t) + h * MicrosPerHour + m * MicrosPerMinute;
    DayStartOffset(DayStart(t), h * MicrosPerHour + m * MicrosPerMinute);
    r
  }

  /** `t.replace(second=0, microsecond=0)`: the start of the timestamp's minute. */
  function FloorToMinute(t: Instant): (r: Instant)
    ensures r <= t < r + MicrosPerMinute
    ensures r % MicrosPerMinute == 0
  {
    t - t % MicrosPerMinute
  }

  /** A timestamp that is `off` microseconds after a midnight lies on that day. */
  lemma DayStartOffset(d: Instant, off: int)
    requires d % MicrosPerDay == 0 && 0 <= off < MicrosPerDay
    ensures DayStart(d + off) == d && TimeOfDay(d + off) == off
  {
    var q := d / MicrosPerDay;
    assert d == q * MicrosPerDay;
    assert d + off == q * MicrosPerDay + off;
  }
}
