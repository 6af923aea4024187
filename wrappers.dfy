/** Optional values and pass/fail outcomes, as Rust's `Option` and `Result<(), E>`. */
module Wrappers {

  datatype Option<+T> = None | Some(value: T)

  /** The outcome of an operation that returns nothing on success. */
  datatype Outcome<+E> = Pass | Fail(error: E)
}
