/** Option and Result, the two shapes every other module uses for
    "value may be absent" and "the call may throw". */
module Wrappers {

  datatype Option<+T> = None | Some(value: T)

  datatype Result<+T, +E> = Success(value: T) | Failure(error: E)
}
