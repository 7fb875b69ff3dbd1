/** Time and the free daily quota, the same in both copies of the
    application: days are day numbers, instants are seconds, and a free user
    may make five checks per calendar day. */
module Quota {

  /** A calendar day, as a day number. */
  type Day = int

  /** A point in time, in seconds. */
  type Instant = int

  /** Checks a free user may make per day. */
  const FreeChecksPerDay: nat := 5

  function Min(x: nat, y: nat): nat
  {
    if x <= y then x else y
  }

  /** What is left of the day's free quota once `used` checks are counted. */
  function Left(used: nat): nat
  {
    if used >= FreeChecksPerDay then 0 else FreeChecksPerDay - used
  }
}
