/** Small result types shared by every module. */
module Wrappers {

  datatype Option<+T> = None | Some(value: T)

  /** A tool's outcome: the Python original raises `ValueError` where this returns `Raise`. */
  datatype Outcome<+T> = Ok(result: T) | Raise(reason: string)

  /** The values of an INTEGER column, 32 bits signed; a statement that writes any other value fails. */
  predicate FitsInteger(n: int) {
    -0x8000_0000 <= n < 0x8000_0000
  }
}
