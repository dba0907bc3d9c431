/** Time, in nanoseconds. */
module Clocks {
  const SECOND := 1_000_000_000
}
