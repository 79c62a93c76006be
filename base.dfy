/** Values shared by every part of the model: optional values, results and Go's error values. */
module Base {

  /** An optional value; `None` stands for Go's nil. */
  datatype Option<+T> = None | Some(value: T)

  /** A Go error value. Only its text, what `err.Error()` returns, is observable. */
  datatype Error = Error(message: string)

  /** A Go `(value, error)` pair in which exactly one side is meaningful. */
  datatype Result<+T> = Success(value: T) | Failure(error: Error)

  /** The text a caller keeps of an optional error: `err.Error()` when it is non-nil, "" otherwise. */
  function ErrorText(err: Option<Error>): string
  {
    match err
    case None => ""
    case Some(e) => e.message
  }
}
