/** Vocabulary shared by every part of the account layer: timestamps, nullable
    values, and the exceptions the services throw. */
module Common {

  /** A JavaScript `Date`, as milliseconds since the epoch. */
  type Time = int

  const MillisPerDay: int := 86_400_000

  /** A nullable column or an optional property: `None` is SQL NULL. */
  datatype Option<+T> = None | Some(value: T)

  /** Why the database refused a write. */
  datatype QueryFault =
    | UniqueViolation(column: string)   // a UNIQUE index already holds the value
    | ValueTooLong                      // a varchar(n) column got more than n characters

  /** The exceptions thrown by the services, one constructor per class of exception. */
  datatype Error =
    | NotFound                          // NotFoundException('User not found')
    | Conflict(message: string)         // ConflictException(message)
    | Unauthorized(message: string)     // UnauthorizedException(message)
    | IdRequired                        // Error('User ID is required')
    | QueryFailed(fault: QueryFault)    // a QueryFailedError raised by the database

  datatype Result<+T> = Ok(value: T) | Err(error: Error)
}
