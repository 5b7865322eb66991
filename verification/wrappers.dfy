/** Failure-compatible containers shared by the request pipeline. */
module Wrappers {

  /** A possibly absent value: `None` stands for Java's `null`. */
  datatype Option<+T> = None | Some(value: T)

  /** Either a value or the exception that replaced it. */
  datatype Result<+R, +E> = Success(value: R) | Failure(error: E)
}
