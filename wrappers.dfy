/** Shared wrapper datatypes for the server methods and helpers. */
module Wrappers {

  /** A value that may be missing (`undefined` in the source). */
  datatype Option<+T> = None | Some(value: T)

  /**
   * What a Meteor method throws: a failed `check(...)` of an argument, a
   * refusal from `Roles.checkPermission` (whose code is not part of this
   * model), or `new Meteor.Error(code, ...)`.
   */
  datatype MethodError = CheckFailed | PermissionDenied | MeteorError(code: int)

  /** The outcome of a Meteor method: its return value, or the error it throws. */
  datatype Result<+T> = Ok(value: T) | Err(error: MethodError)
}
