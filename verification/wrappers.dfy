/** Optional values and results, and the error kinds the reva storage and share
    interfaces report (the `errtypes` of the host framework). */
module Wrappers {

  datatype Option<T> = None | Some(value: T)

  /** The error kinds the plugins return. `Wrapped` carries an error from a lower
      layer (remote call, database) that is passed up with a message. */
  datatype Error =
    | UserRequired(msg: string)
    | NotFound(msg: string)
    | BadRequest(msg: string)
    | NotSupported(msg: string)
    | PermissionDenied(msg: string)
    | Internal(msg: string)
    | Wrapped(msg: string, cause: Error)
    | Remote(msg: string)
    /** A Go runtime panic (an index out of range). */
    | Panic(msg: string)

  datatype Result<T> = Ok(value: T) | Err(error: Error)
  {
    predicate IsFailure() { Err? }
    function PropagateFailure<U>(): Result<U> requires Err? { Err(error) }
    function Extract(): T requires Ok? { value }
  }
}
