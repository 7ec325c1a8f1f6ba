/** Failure-carrying wrappers shared by every module of the model: a Java `null`
    return becomes `None`, a thrown exception becomes `Failure`. */
module Outcomes {

  datatype Option<+T> = None | Some(value: T)

  datatype Result<+T, +E> = Success(value: T) | Failure(error: E)
}
