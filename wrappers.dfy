/** Failure-carrying values: the model's stand-in for the source's `Option`,
    its `Result`, and for the `expect`/`panic!` calls that abort an operation. */
module Wrappers {

  datatype Option<+T> = None | Some(value: T)

  datatype Result<+R, +E> = Success(value: R) | Failure(error: E)

  /** An operation that produces no value but may fail. */
  datatype Outcome<+E> = Pass | Fail(error: E)
}
