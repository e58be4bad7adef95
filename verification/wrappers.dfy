/** Failure-carrying datatypes shared by the schema, the loader and the index builder. */
module Wrappers {

  /** An optional value: a front-matter key that may be absent, an optional schema field. */
  datatype Option<+T> = None | Some(value: T)

  /** The outcome of a validation or a load: a value, or the error that stopped it. */
  datatype Result<+T, +E> = Success(value: T) | Failure(error: E)
}
