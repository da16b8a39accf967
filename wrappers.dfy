/** Success-or-error values: every entrypoint and every token instruction either
    produces a new state or fails with an error and changes nothing. */
module Wrappers {

  datatype Option<+T> = None | Some(value: T)

  datatype Result<+T, +E> = Success(value: T) | Failure(error: E)

  datatype Outcome<+E> = Pass | Fail(error: E)

  /** Rust's `u64`: instruction amounts, token balances and `UserState.amount`. */
  const U64_MAX: int := 0xFFFF_FFFF_FFFF_FFFF

  type U64 = x: int | 0 <= x <= U64_MAX
}
