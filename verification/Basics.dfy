// Types shared by all parts of the model.

module Basics {
  datatype Option<+T> = None | Some(value: T)

  newtype Byte = x: int | 0 <= x < 256

  /** Nanoseconds. */
  type Time = nat

  const SECOND: Time := 1_000_000_000

  function Last<T>(s: seq<T>): T
    requires s != []
  {
    s[|s| - 1]
  }
}
