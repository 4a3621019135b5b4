/** Times and durations are in nanoseconds, as in `time.Duration`. */
module Durations {
  const SECOND: int := 1_000_000_000
}
