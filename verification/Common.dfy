/** Types shared by the component models. */
module Common {
  datatype Option<+T> = None | Some(value: T)

  /** The status codes of the library (include/ServerCore/Core/Error.h). */
  datatype ErrorCode =
    | Ok
    | InvalidArgument
    | InvalidFormat
    | TooLarge
    | NotFound
    | AlreadyExists
    | Closed
    | WouldBlock
    | PlatformError
    | Timeout
    | Cancelled

  datatype Result<+T> = Success(value: T) | Failure(error: ErrorCode)

  function Min(a: int, b: int): int { if a <= b then a else b }
}
