/** Option and Result, used for the "not found" answers of the audio store and
    for the exceptions the external services raise. */
module Wrappers {

  datatype Option<+T> = None | Some(value: T)

  datatype Result<+R, +E> = Success(value: R) | Failure(error: E)
}
