// Option and Result, the error-path carriers used throughout the model.
module Wrappers {
  datatype Option<T> = None | Some(value: T)

  datatype Result<T> = Failure(error: string) | Success(value: T)
}
