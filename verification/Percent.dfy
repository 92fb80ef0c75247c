/** Shares are counted in hundredths of a percent. */
module Percent {
  const HUNDRED_PERCENT := 10000
  const ONE_PERCENT := 100
}
