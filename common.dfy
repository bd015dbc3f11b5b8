/** Small value types shared by the backend and client models. */
module Common {

  /** A value that may be absent: Java's `null`, JavaScript's `null`/`undefined`. */
  datatype Option<+T> = None | Some(value: T)

  /** The result of a step that either produces a value or raises an exception. */
  datatype Result<+T, +E> = Success(value: T) | Failure(error: E)

  /** The result of a step that produces nothing but may raise an exception. */
  datatype Outcome<+E> = Pass | Fail(error: E)

  /** What an I/O call on the file system did: returned normally, or threw an
      exception whose message may be null. */
  datatype Io = Ok | Throws(message: Option<string>)

  /** One byte of audio as it arrives in a binary frame. */
  type Byte = bv8

  /** Java's string conversion of an exception message: a null message prints as "null". */
  function MessageText(message: Option<string>): string
  {
    match message
    case None => "null"
    case Some(m) => m
  }
}
