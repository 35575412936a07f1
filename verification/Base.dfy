/** Result and option types, Go's truncated division and the clock units shared by every module. */
module Base {
  datatype Option<+T> = None | Some(value: T)

  datatype Result<+T, +E> = Success(value: T) | Failure(error: E)

  // Times and durations are whole nanoseconds; 0 is Go's zero time.
  const SECOND := 1_000_000_000
  const MINUTE := 60 * SECOND
  const ZERO_TIME := 0

  const MAX_INT64 := 0x7FFF_FFFF_FFFF_FFFF

  function Max(a: int, b: int): int {
    if a < b then b else a
  }

  function Min(a: int, b: int): int {
    if b < a then b else a
  }

  /** Go's integer division by two: truncates toward zero, unlike Dafny's. */
  function Half(a: int): (h: int)
    ensures 0 <= a ==> 2 * h <= a <= 2 * h + 1
    ensures a < 0 ==> 2 * h - 1 <= a <= 2 * h
  {
    if a < 0 then -(-a / 2) else a / 2
  }

  lemma ScaleUp(a: int, b: int, d: int)
    requires a <= b && 0 <= d
    ensures a * d <= b * d
  {
  }

  function GetOr<K, V>(m: map<K, V>, k: K, default: V): V {
    if k in m then m[k] else default
  }
}
