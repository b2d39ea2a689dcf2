/** Option, Result and the error values of the order service.

    Go returns `(value, error)` pairs; here a call either succeeds with a value
    or fails with an `Error`.  An `Error` keeps the distinction Go draws
    between an error built from text (`errors.New`, `fmt.Errorf` without `%w`)
    and one that wraps a cause (`fmt.Errorf` with `%w`).
 */
module Results {

  datatype Option<+T> = None | Some(value: T) {
    predicate IsFailure() { None? }

    function PropagateFailure<U>(): Option<U>
      requires None?
    {
      None
    }

    function Extract(): T
      requires Some?
    {
      value
    }
  }

  datatype Result<+T> = Success(value: T) | Failure(error: Error)

  /** A Go `error`: `Text` is a leaf error carrying only its message; `Wrap` is
      what `fmt.Errorf("<prefix>%w", cause)` builds. */
  datatype Error = Text(msg: string) | Wrap(prefix: string, cause: Error) {

    /** The string `err.Error()` returns. */
    function Message(): string
    {
      match this
      case Text(m) => m
      case Wrap(p, c) => p + c.Message()
    }

    /** What `errors.Unwrap` returns. */
    function Unwrap(): Option<Error>
    {
      if Wrap? then Some(cause) else None
    }
  }
}
