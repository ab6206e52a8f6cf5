/** Failure-carrying wrappers: `Option` stands for a C# reference or nullable
    value that may be null, `Result` for a call that returns or throws. */
module Wrappers {

  datatype Option<+T> = None | Some(value: T)

  datatype Result<+R, +E> = Success(value: R) | Failure(error: E)
}
