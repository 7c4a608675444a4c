/** Go's time arithmetic as the engine uses it.  A time is a number of nanoseconds since
    Go's zero time; a duration is an int64 number of nanoseconds. */
module Clock {
  type Time = int

  const MIN_DURATION: int := -0x8000_0000_0000_0000
  const MAX_DURATION: int := 0x7FFF_FFFF_FFFF_FFFF
  type Duration = d: int | MIN_DURATION <= d <= MAX_DURATION

  const SECOND: int := 1_000_000_000
  const MINUTE: int := 60 * SECOND
  const HOUR: int := 60 * MINUTE
  // Nanoseconds from Go's zero time (1 January of year 1) to the Unix epoch.
  const UNIX_EPOCH: int := 62_135_596_800 * SECOND

  predicate IsZero(t: Time) { t == 0 }

  // t.Sub(u) saturates at the ends of the int64 range.
  function Sub(t: Time, u: Time): Duration {
    if t - u > MAX_DURATION then MAX_DURATION
    else if t - u < MIN_DURATION then MIN_DURATION
    else t - u
  }

  // Saturation is invisible to a comparison with a bound that is not the least duration.
  lemma SubCompares(t: Time, u: Time, bound: Duration)
    requires bound > MIN_DURATION
    ensures Sub(t, u) >= bound <==> t - u >= bound
  {
  }

  // Rounds down to a multiple of d since the zero time; leaves t alone when d is not positive.
  function Truncate(t: Time, d: Duration): Time {
    if d <= 0 then t else t - t % d
  }

  // t.UnixNano() is an int64 and wraps outside the years 1678 to 2262.
  function UnixNano(t: Time): (n: Duration)
    ensures (n - (t - UNIX_EPOCH)) % 0x1_0000_0000_0000_0000 == 0
  {
    (t - UNIX_EPOCH - MIN_DURATION) % 0x1_0000_0000_0000_0000 + MIN_DURATION
  }

  predicate InUnixNanoRange(t: Time) { MIN_DURATION <= t - UNIX_EPOCH <= MAX_DURATION }

  // The zero time counts as "not set".
  function MinTime(a: Time, b: Time): (m: Time)
    ensures a == 0 ==> m == b
    ensures b == 0 ==> m == a
    ensures a != 0 && b != 0 ==> m <= a && m <= b && (m == a || m == b)
  {
    if IsZero(a) then b
    else if IsZero(b) || a < b then a
    else b
  }
}
