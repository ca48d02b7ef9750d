/** Small result types shared by the token ledger and the auction program. */
module Wrappers {

  /** A value that may be absent: used for "the first constraint that failed, if any". */
  datatype Option<+T> = None | Some(value: T)

  /** The outcome of an instruction that produces a value or fails with an error. */
  datatype Result<+T, +E> = Ok(value: T) | Err(error: E)

  /** The outcome of an instruction that produces no value. */
  datatype Outcome<+E> = Pass | Fail(error: E)
}
