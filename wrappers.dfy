/** Option, Result and Outcome: the error paths that the Python code expresses
    with None, raised exceptions and failed assertions. */
module Wrappers {

  datatype Option<+T> = None | Some(value: T)

  /** A computation that either yields a value or raises an error. */
  datatype Result<+R, +E> = Success(value: R) | Failure(error: E)

  /** A check that either passes or fails with a reason (a failed `assert`). */
  datatype Outcome<+E> = Pass | Fail(error: E)
}
