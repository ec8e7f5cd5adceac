/** Shared vocabulary of the hotel model: nullable values, validation outcomes,
    calendar days and timestamps. */
module Common {

  /** A nullable column or an optional argument. */
  datatype Option<+T> = None | Some(value: T)

  /** The outcome of a `clean()`-style validation: it passes, or it raises a
      validation error of kind `E`. */
  datatype Outcome<+E> = Pass | Fail(error: E)

  /** Identifiers of rows the core only compares (users, hotels). */
  type UserId = nat
  type HotelId = nat

  /** A calendar date, as a day number. */
  type Day = int

  /** A point in time, in microseconds (the resolution of a datetime). */
  type Instant = int

  const TicksPerDay: int := 86_400_000_000

  /** The calendar date of an instant (`now.date()`); the division rounds towards
      minus infinity, as a date does before the epoch. */
  function DayOf(t: Instant): (d: Day)
    ensures d * TicksPerDay <= t < (d + 1) * TicksPerDay
  {
    t / TicksPerDay
  }

  function Min(a: real, b: real): (m: real)
    ensures m <= a && m <= b
    ensures m == a || m == b
  {
    if a <= b then a else b
  }
}
