/** `Ok` of src/pyresults/success.py, method by method. `self` is the
    receiver, an `Ok`, hence `requires self.Ok?` throughout. */
module Success {
  import opened Python
  import opened Base
  import opened Exceptions

  /** What `unwrap_err` puts before the payload's `str` in its message. */
  const UnwrapErrPrefix := "Called unwrap_err on an Ok value: "

  function IsOk<T, E>(self: Result<T, E>): (b: bool)
    requires self.Ok?
    ensures b
  {
    true
  }

  function IsOkAnd<T, E>(self: Result<T, E>, pred: T -> bool): (b: bool)
    requires self.Ok?
    ensures b == pred(self.value)
  {
    pred(self.value)
  }

  function IsErr<T, E>(self: Result<T, E>): (b: bool)
    requires self.Ok?
    ensures !b
  {
    false
  }

  /** Always false, whatever `pred` is: the predicate is never consulted. */
  function IsErrAnd<T, E>(self: Result<T, E>, pred: E -> bool): (b: bool)
    requires self.Ok?
    ensures !b
  {
    false
  }

  /** The payload; `message` is ignored. */
  function Expect<T, E>(self: Result<T, E>, message: string): (v: T)
    requires self.Ok?
    ensures v == self.value
  {
    self.value
  }

  /** Raises an `UnwrapError` about this very `Ok`, with `message` as given. */
  function ExpectErr<T, E>(self: Result<T, E>, message: string): (u: UnwrapError<T, E>)
    requires self.Ok?
    ensures u.result == self && u.message == message
  {
    New(self, message)
  }

  function Unwrap<T, E>(self: Result<T, E>): (v: T)
    requires self.Ok?
    ensures v == self.value
  {
    self.value
  }

  /** The payload; `default` is ignored, even when it equals the payload. */
  function UnwrapOr<T, E>(self: Result<T, E>, default: T): (v: T)
    requires self.Ok?
    ensures v == self.value
  {
    self.value
  }

  /** Raises an `UnwrapError` about this very `Ok`. When the payload is an
      exception its message is the payload's `str`; otherwise the fixed prefix
      followed by the payload's `str`. */
  function UnwrapErr<T, E>(self: Result<T, E>, show: Show<T>): (u: UnwrapError<T, E>)
    requires self.Ok?
    ensures u.result == self
    ensures show.isException(self.value) ==> u.message == show.str(self.value)
    ensures !show.isException(self.value) ==> u.message == UnwrapErrPrefix + show.str(self.value)
  {
    if show.isException(self.value) then New(self, show.str(self.value))
    else New(self, UnwrapErrPrefix + show.str(self.value))
  }

  /** The payload; `func` is never applied. */
  function UnwrapOrElse<T, E>(self: Result<T, E>, func: E -> T): (v: T)
    requires self.Ok?
    ensures v == self.value
  {
    self.value
  }

  function Map<T, E, R>(self: Result<T, E>, func: T -> R): (r: Result<R, E>)
    requires self.Ok?
    ensures r.Ok? && r.value == func(self.value)
  {
    Ok(func(self.value))
  }

  /** A fresh `Ok` with the same payload; `func` is never applied. */
  function MapErr<T, E, R>(self: Result<T, E>, func: E -> R): (r: Result<T, R>)
    requires self.Ok?
    ensures r.Ok? && r.value == self.value
  {
    Ok(self.value)
  }

  /** `func` of the payload; `default` is ignored. */
  function MapOr<T, E, R>(self: Result<T, E>, func: T -> R, default: R): (v: R)
    requires self.Ok?
    ensures v == func(self.value)
  {
    func(self.value)
  }

  /** `func` of the payload; `default` is never applied. */
  function MapOrElse<T, E, R>(self: Result<T, E>, func: T -> R, default: E -> R): (v: R)
    requires self.Ok?
    ensures v == func(self.value)
  {
    func(self.value)
  }

  /** Whatever Result `func` gives for the payload, `Ok` or `Err`. */
  function AndThen<T, E, R>(self: Result<T, E>, func: T -> Result<R, E>): (r: Result<R, E>)
    requires self.Ok?
    ensures r == func(self.value)
  {
    func(self.value)
  }

  /** A fresh `Ok` equal to `self`; `func` is never applied. */
  function OrElse<T, E>(self: Result<T, E>, func: E -> Result<T, E>): (r: Result<T, E>)
    requires self.Ok?
    ensures r == self
  {
    Ok(self.value)
  }

  /** The payload, once. */
  function Iter<T, E>(self: Result<T, E>): (s: seq<T>)
    requires self.Ok?
    ensures |s| == 1 && s[0] == self.value
  {
    [self.value]
  }

  /** Nothing. */
  function IterErr<T, E>(self: Result<T, E>): (s: seq<E>)
    requires self.Ok?
    ensures s == []
  {
    []
  }
}
