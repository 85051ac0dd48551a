/** Failure-carrying values shared by the other modules: JavaScript's
    `undefined`/`null` becomes `None`, a thrown exception becomes `Fail` or `Err`. */
module Wrappers {

  datatype Option<+T> = None | Some(value: T)

  /** The result of an operation that returns nothing but may throw. */
  datatype Outcome<+E> = Pass | Fail(error: E)

  /** The result of an operation that returns a value or throws. */
  datatype Result<+T, +E> = Ok(value: T) | Err(error: E)
}
