/** Plain wrapper datatypes: an optional value, a value-or-error result,
    and a pass-or-fail outcome for calls that return nothing. Errors carry the
    message of the exception raised by the callee. */
module Wrappers {

  datatype Option<+T> = None | Some(value: T)

  datatype Result<+R, +E> = Success(value: R) | Failure(error: E)

  datatype Outcome<+E> = Pass | Fail(error: E)
}
