/** Option, Result and Outcome: the model's stand-ins for JavaScript's null,
    for a returned value or a thrown error, and for a promise that resolves
    without a value or rejects. */
module Wrappers {

  datatype Option<+T> = None | Some(value: T)

  datatype Result<+R, +E> = Success(value: R) | Failure(error: E)

  datatype Outcome<+E> = Pass | Fail(error: E)
}
