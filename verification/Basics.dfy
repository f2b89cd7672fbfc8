/** Types shared by all modules. */
module Basics {

  datatype Option<+T> = None | Some(value: T)

  /** Go's int and int64. */
  type int64 = n: int | -0x8000_0000_0000_0000 <= n < 0x8000_0000_0000_0000

  /** Go's conversion of a float64 to an integer: towards zero. */
  function Truncate(x: real): int { if x >= 0.0 then x.Floor else -((-x).Floor) }
}
