/** Shared vocabulary: optional values, results, and instants in whole microseconds. */
module Base {

  datatype Option<+T> = None | Some(value: T)

  datatype Result<+T, +E> = Ok(value: T) | Err(error: E)

  // Every instant the program stores is truncated to a microsecond, so an instant is an
  // integer count of microseconds since Go's zero time; the zero time itself is ZERO_TIME.
  type Time = int

  const ZERO_TIME: Time := 0

  // Fifteen minutes.
  const LEASE_DURATION: int := 900_000_000
}
