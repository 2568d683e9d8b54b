/** `UnwrapError` of src/pyresults/exception.py: the signal that both the
    failed extractions and `question` raise, and that the `result` decorator
    catches. */
module Exceptions {
  import opened Python
  import opened Base

  /** An `UnwrapError`: the Result it was raised about, and the message it
      hands to `Exception`, which is what `str(exc)` gives back. It is a class
      of its own, so catching it catches nothing else. */
  datatype UnwrapError<+T, +E> = UnwrapError(result: Result<T, E>, message: string)

  /** A call about a `Result[T, E]` that returns an `A` or raises. */
  type Call<+A, +T, +E> = Outcome<A, UnwrapError<T, E>>

  /** `UnwrapError(result, message)`: both arguments are kept exactly as
      given, and nothing else is recorded. */
  function New<T, E>(result: Result<T, E>, message: string): (u: UnwrapError<T, E>)
    ensures u.result == result && u.message == message
  {
    UnwrapError(result, message)
  }
}
