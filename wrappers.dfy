/** Optional values and the outcome of a call into code outside the model
    (a library, the filesystem, the agent runtime) that may raise. */
module Wrappers {

  datatype Option<+T> = None | Some(value: T) {
    function GetOr(default: T): T {
      match this
      case Some(v) => v
      case None => default
    }
  }

  /** The Python exception classes the tools catch by name; everything else is OtherError. */
  datatype Exc =
    | NotFoundError(msg: string)   // FileNotFoundError
    | ValueError(msg: string)
    | OtherError(msg: string)      // any other Exception
  {
    /** What `str(e)` gives for the exception. */
    function Message(): string {
      match this
      case NotFoundError(m) => m
      case ValueError(m) => m
      case OtherError(m) => m
    }
  }

  /** A foreign call either returns a value or raises. */
  datatype Attempt<+T> = Done(value: T) | Raised(error: Exc)
}
