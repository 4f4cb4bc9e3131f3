/** Durations are in nanoseconds, as in Go's time package. */
module Clock {
  const SECOND: nat := 1_000_000_000
}
