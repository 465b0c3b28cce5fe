/** Times are microseconds since the epoch; expiry times and intervals are often whole seconds. */
module Clock {

  type Time = int

  const SECOND: Time := 1_000_000

  /** What `int(...)` leaves of a timestamp; times are never negative. */
  function Seconds(t: Time): (s: int)
    ensures s * SECOND <= t < (s + 1) * SECOND
  {
    t / SECOND
  }
}
