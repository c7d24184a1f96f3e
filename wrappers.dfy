/** Option and Result values, and the error values the shell front end reports. */
module Wrappers {

  datatype Option<+T> = None | Some(value: T)

  datatype Result<+T, +E> = Success(value: T) | Failure(error: E)

  /** An error as the `anyhow` crate carries it: the outermost message and the
      messages of the errors it wraps, outermost first. */
  datatype Error = Error(message: string, causes: seq<string>)

  /** An error with no cause behind it. */
  function Fail(message: string): (e: Error)
    ensures e.message == message && e.causes == []
  {
    Error(message, [])
  }

  /** Wraps `inner` under a new outermost message, as `.context(message)` does;
      nothing of the inner error is lost. */
  function Context(message: string, inner: Error): (e: Error)
    ensures e.message == message
    ensures |e.causes| == 1 + |inner.causes|
    ensures e.causes[0] == inner.message && e.causes[1..] == inner.causes
  {
    Error(message, [inner.message] + inner.causes)
  }
}
