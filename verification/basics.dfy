/** Values shared by the modules. */
module Basics {

  /** Internal and public identifiers; freshness is checked where an insert could collide. */
  type Id = nat

  /** Number.MAX_SAFE_INTEGER, the largest amount any table, event or token may carry. */
  const MAX_SAFE_INTEGER: int := 9007199254740991

  /** A validated request amount. */
  type Amount = n: int | 1 <= n <= MAX_SAFE_INTEGER witness 1

  type Positive = n: int | 1 <= n witness 1

  datatype Currency = ETB | USD

  datatype Option<+T> = None | Some(value: T)

  datatype Result<+T, +E> = Ok(value: T) | Err(error: E)

  /** The n characters from the first on. */
  function Characters(first: char, n: nat): string
    requires first as int + n <= 128
  {
    seq(n, i requires 0 <= i < n => first + i as char)
  }
}
