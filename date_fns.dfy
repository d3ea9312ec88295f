/** The three date-fns predicates the selectors and the views call, over millisecond
    timestamps. The local calendar day of an instant (time zone, daylight
    saving) is the parameter `dayOf`; `isToday` compares with the day of the
    reading `now`. */
module DateFns {

  /** `isBefore(a, b)`: `a` strictly earlier than `b`. */
  predicate IsBefore(a: int, b: int)
  {
    a < b
  }

  /** `isAfter(a, b)`: `a` strictly later than `b`. */
  predicate IsAfter(a: int, b: int)
  {
    a > b
  }

  /** `isToday(d)`: `d` falls on the same local calendar day as `now`. */
  predicate IsToday(d: int, now: int, dayOf: int -> int)
  {
    dayOf(d) == dayOf(now)
  }
}
