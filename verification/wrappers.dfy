/** Option and exception-carrying outcomes shared by every module of the model. */
module Wrappers {

  /** A value that may be absent (a C# `null`). */
  datatype Option<+T> = None | Some(value: T) {
    /** `x ?? default` */
    function GetOr(default: T): T {
      match this
      case Some(v) => v
      case None => default
    }
  }

  /** The .NET exceptions the modelled code throws or lets through. */
  datatype Exception =
    | ArgumentException(message: string)
    | ArgumentNullException(paramName: string, message: string)
    | InvalidOperationException(message: string)
    | JsonException(message: string)
    /** any other exception raised by a collaborator outside the model (network, broker, ...) */
    | OtherException(message: string)

  /** The result of a call that may throw: it returns a value or an exception escapes. */
  datatype Outcome<+T> = Returned(value: T) | Threw(exception: Exception)
}
