/** Wall-clock readings. The system clock is not modelled: callers pass its reading in. */
module Clock {

  /** A `LocalDateTime` to the second (the fraction of a second is never formatted). */
  datatype DateTime = DateTime(year: int, month: int, day: int, hour: int, minute: int, second: int)
  {
    /** Fields within the ranges a clock reading of the years 1 to 9999 CE can take. */
    predicate Valid() {
      && 1 <= year <= 9999
      && 1 <= month <= 12
      && 1 <= day <= 31
      && 0 <= hour < 24
      && 0 <= minute < 60
      && 0 <= second < 60
    }
  }
}
