/** Return codes of the native core (core/include/bms/status.h) and the usual optional value. */
module Status {
  datatype Status =
    | Ok
    | InvalidArgument
    | IoError
    | BufferTooSmall
    | ChecksumError
    | DuplicateIdempotencyKey
    | ParseError
    | RecoveryRequired
    | ProtectedMode

  datatype Option<+T> = None | Some(value: T)

  /** A computed value or the status the C function returns instead. */
  datatype Outcome<+T> = Success(value: T) | Failure(status: Status)
  {
    predicate IsFailure() { Failure? }

    function PropagateFailure<U>(): Outcome<U>
      requires Failure?
    {
      Failure(status)
    }

    function Extract(): T
      requires Success?
    {
      value
    }
  }
}
