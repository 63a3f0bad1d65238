/** Result shapes shared by every component. */
module Wrappers {
  datatype Option<+T> = None | Some(value: T)

  datatype Result<+T, +E> = Ok(value: T) | Err(error: E)
}

/**
 Instants are nanoseconds since the Unix epoch, as Go's `time.Time` carries them.
 Durations are nanoseconds as well.
 */
module Clock {
  type Instant = int

  const SECOND: int := 1_000_000_000
  const MILLISECOND: int := 1_000_000
  const MINUTE: int := 60 * SECOND

  /** Go's zero `time.Time`: January 1 of year 1, in Unix nanoseconds. */
  const ZERO_INSTANT: Instant := -62_135_596_800 * SECOND

  /** `t.Unix()`: whole seconds, rounded towards minus infinity. */
  function UnixSeconds(t: Instant): int {
    t / SECOND
  }

  /** `time.Unix(s, 0)`. */
  function AtUnixSecond(s: int): Instant {
    s * SECOND
  }
}

module FiniteSets {
  lemma {:induction false} SubsetSize<T>(a: set<T>, b: set<T>)
    requires a <= b
    ensures |a| <= |b|
  {
    if a != {} {
      var x :| x in a;
      SubsetSize(a - {x}, b - {x});
    }
  }
}
