/** The Option and Result datatypes shared by the model's modules. */
module Wrappers {

  /** An optional value; `None` stands for JavaScript's `undefined` or an absent key. */
  datatype Option<+T> = None | Some(value: T)

  /** The outcome of a step that either returns a value or throws an error. */
  datatype Result<+R, +E> = Success(value: R) | Failure(error: E)
}
