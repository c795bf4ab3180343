/** Shared vocabulary: an optional value (Python's `None`) and the time units
    used when instants are whole UTC seconds. */
module Common {

  /** `None` in the source is `None` here; a present value is `Some`. */
  datatype Option<+T> = None | Some(value: T)

  /** Seconds in one hour and in one day, as `timedelta` counts them. */
  const SecondsPerHour: int := 3600
  const SecondsPerDay: int := 86400

  /** `timedelta(days=n)`, in seconds. */
  function Days(n: int): (r: int)
    ensures n >= 0 ==> r >= 0
    ensures n > 0 ==> r >= SecondsPerDay
  {
    n * SecondsPerDay
  }

  /** The `.days` attribute of a `timedelta` of `seconds` seconds: Python
      normalises a timedelta so that `.days` is the floor of the day count
      (negative for a negative delta) and `.seconds` lies in 0..86399. */
  function WholeDays(seconds: int): (d: int)
    ensures Days(d) <= seconds < Days(d + 1)
  {
    seconds / SecondsPerDay
  }

  /** Multiplying by a positive factor preserves strict order, so it can be
      cancelled. */
  lemma MulCancel(x: int, y: int, d: int)
    requires d > 0 && x * d < y * d
    ensures x < y
  {
    assert (y - x) * d == y * d - x * d;
  }
}
