/** Wrappers used across the model: `Option` stands for a
    nullable reference (`string?` in the source), `Result` for a value or the
    exception an operation throws. */
module Wrappers {

  /** A nullable value: `None` is the source's `null`. */
  datatype Option<+T> = None | Some(value: T)

  /** Either a value or the error an operation raised. */
  datatype Result<+R, +E> = Success(value: R) | Failure(error: E)
}
