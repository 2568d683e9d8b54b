/** `Err` of src/pyresults/failure.py, method by method. `self` is the
    receiver, an `Err`, hence `requires self.Err?` throughout. */
module Failure {
  import opened Python
  import opened Base
  import opened Exceptions

  /** What `unwrap` puts before the payload's `str` in its message. */
  const UnwrapPrefix := "Called unwrap on an Err value: "

  function IsOk<T, E>(self: Result<T, E>): (b: bool)
    requires self.Err?
    ensures !b
  {
    false
  }

  /** Always false, whatever `pred` is: the predicate is never consulted. */
  function IsOkAnd<T, E>(self: Result<T, E>, pred: T -> bool): (b: bool)
    requires self.Err?
    ensures !b
  {
    false
  }

  function IsErr<T, E>(self: Result<T, E>): (b: bool)
    requires self.Err?
    ensures b
  {
    true
  }

  /** `pred` of the error (not "always true", as its docstring says). */
  function IsErrAnd<T, E>(self: Result<T, E>, pred: E -> bool): (b: bool)
    requires self.Err?
    ensures b == pred(self.error)
  {
    pred(self.error)
  }

  /** Raises an `UnwrapError` about this very `Err`, with `message` as given. */
  function Expect<T, E>(self: Result<T, E>, message: string): (u: UnwrapError<T, E>)
    requires self.Err?
    ensures u.result == self && u.message == message
  {
    New(self, message)
  }

  /** The error; `message` is ignored. */
  function ExpectErr<T, E>(self: Result<T, E>, message: string): (v: E)
    requires self.Err?
    ensures v == self.error
  {
    self.error
  }

  /** Raises an `UnwrapError` about this very `Err`. When the error is an
      exception its message is the error's `str`; otherwise the fixed prefix
      followed by the error's `str`. */
  function Unwrap<T, E>(self: Result<T, E>, show: Show<E>): (u: UnwrapError<T, E>)
    requires self.Err?
    ensures u.result == self
    ensures show.isException(self.error) ==> u.message == show.str(self.error)
    ensures !show.isException(self.error) ==> u.message == UnwrapPrefix + show.str(self.error)
  {
    if show.isException(self.error) then New(self, show.str(self.error))
    else New(self, UnwrapPrefix + show.str(self.error))
  }

  /** `default`, whatever the error is. */
  function UnwrapOr<T, E>(self: Result<T, E>, default: T): (v: T)
    requires self.Err?
    ensures v == default
  {
    default
  }

  function UnwrapOrElse<T, E>(self: Result<T, E>, func: E -> T): (v: T)
    requires self.Err?
    ensures v == func(self.error)
  {
    func(self.error)
  }

  function UnwrapErr<T, E>(self: Result<T, E>): (v: E)
    requires self.Err?
    ensures v == self.error
  {
    self.error
  }

  /** A fresh `Err` with the same error; `func` is never applied. */
  function Map<T, E, R>(self: Result<T, E>, func: T -> R): (r: Result<R, E>)
    requires self.Err?
    ensures r.Err? && r.error == self.error
  {
    Err(self.error)
  }

  function MapErr<T, E, R>(self: Result<T, E>, func: E -> R): (r: Result<T, R>)
    requires self.Err?
    ensures r.Err? && r.error == func(self.error)
  {
    Err(func(self.error))
  }

  /** `default`; `func` is never applied. */
  function MapOr<T, E, R>(self: Result<T, E>, func: T -> R, default: R): (v: R)
    requires self.Err?
    ensures v == default
  {
    default
  }

  /** `default` of the error; `func` is never applied. */
  function MapOrElse<T, E, R>(self: Result<T, E>, func: T -> R, default: E -> R): (v: R)
    requires self.Err?
    ensures v == default(self.error)
  {
    default(self.error)
  }

  /** A fresh `Err` with the same error; `func` is never applied. */
  function AndThen<T, E, R>(self: Result<T, E>, func: T -> Result<R, E>): (r: Result<R, E>)
    requires self.Err?
    ensures r.Err? && r.error == self.error
  {
    Err(self.error)
  }

  /** Whatever Result `func` gives for the error, `Ok` or `Err`. */
  function OrElse<T, E>(self: Result<T, E>, func: E -> Result<T, E>): (r: Result<T, E>)
    requires self.Err?
    ensures r == func(self.error)
  {
    func(self.error)
  }

  /** Nothing. */
  function Iter<T, E>(self: Result<T, E>): (s: seq<T>)
    requires self.Err?
    ensures s == []
  {
    []
  }

  /** The error, once. */
  function IterErr<T, E>(self: Result<T, E>): (s: seq<E>)
    requires self.Err?
    ensures |s| == 1 && s[0] == self.error
  {
    [self.error]
  }

  /** `self`, the receiver itself, and not `None`. */
  function Transpose<T, E>(self: Result<T, E>): (r: Option<Result<T, E>>)
    requires self.Err?
    ensures r == Some(self)
  {
    Some(self)
  }

  /** `self`, the receiver itself. */
  function Flatten<T, E>(self: Result<T, E>): (r: Result<T, E>)
    requires self.Err?
    ensures r == self
  {
    self
  }
}
