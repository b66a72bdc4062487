/** Shared value types. */
module Prelude {
  datatype Option<+T> = None | Some(value: T)

  /** The larger of two integers. */
  function Max(x: int, y: int): int { if x < y then y else x }

  /** The smaller of two integers. */
  function Min(x: int, y: int): int { if x < y then x else y }
}
