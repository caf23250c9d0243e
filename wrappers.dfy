/** Option and Result as the Rust code uses them, plus Exit, which records
    whether a call returned or panicked (an `unwrap` on nothing, a division
    by zero, an index out of range). */
module Wrappers {

  datatype Option<+T> = None | Some(value: T)

  datatype Result<+T, +E> = Success(value: T) | Failure(error: E)

  /** The outcome of running a Rust function that may panic. */
  datatype Exit<+T> = Return(value: T) | Panic
}
