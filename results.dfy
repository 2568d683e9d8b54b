/** The method contract of the abstract `Result` (src/pyresults/base.py), as a
    caller sees it: each call dispatches to the receiver's class, `Ok`
    (module Success) or `Err` (module Failure). A method the class does not
    define raises `AttributeError`. */
module Results {
  import opened Python
  import opened Base
  import opened Exceptions
  import Success
  import Failure

  function IsOk<T, E>(self: Result<T, E>): (b: bool)
    ensures b <==> self.Ok?
  {
    match self
    case Ok(_) => Success.IsOk(self)
    case Err(_) => Failure.IsOk(self)
  }

  function IsErr<T, E>(self: Result<T, E>): (b: bool)
    ensures b <==> self.Err?
  {
    match self
    case Ok(_) => Success.IsErr(self)
    case Err(_) => Failure.IsErr(self)
  }

  /** Success whose value satisfies `pred`. */
  function IsOkAnd<T, E>(self: Result<T, E>, pred: T -> bool): (b: bool)
    ensures b <==> self.Ok? && pred(self.value)
  {
    match self
    case Ok(_) => Success.IsOkAnd(self, pred)
    case Err(_) => Failure.IsOkAnd(self, pred)
  }

  /** Failure whose error satisfies `pred`. */
  function IsErrAnd<T, E>(self: Result<T, E>, pred: E -> bool): (b: bool)
    ensures b <==> self.Err? && pred(self.error)
  {
    match self
    case Ok(_) => Success.IsErrAnd(self, pred)
    case Err(_) => Failure.IsErrAnd(self, pred)
  }

  /** The success value, or an `UnwrapError` about `self` carrying `message`. */
  function Expect<T, E>(self: Result<T, E>, message: string): (o: Call<T, T, E>)
    ensures o.Returned? <==> self.Ok?
    ensures o.Returned? ==> o.value == self.value
    ensures o.Unwrapped? ==> o.signal == UnwrapError(self, message)
    ensures !o.Raised?
  {
    match self
    case Ok(_) => Returned(Success.Expect(self, message))
    case Err(_) => Unwrapped(Failure.Expect(self, message))
  }

  /** The error, or an `UnwrapError` about `self` carrying `message`. */
  function ExpectErr<T, E>(self: Result<T, E>, message: string): (o: Call<E, T, E>)
    ensures o.Returned? <==> self.Err?
    ensures o.Returned? ==> o.value == self.error
    ensures o.Unwrapped? ==> o.signal == UnwrapError(self, message)
    ensures !o.Raised?
  {
    match self
    case Ok(_) => Unwrapped(Success.ExpectErr(self, message))
    case Err(_) => Returned(Failure.ExpectErr(self, message))
  }

  /** The success value, or an `UnwrapError` about `self` whose message
      renders the error with `show`. */
  function Unwrap<T, E>(self: Result<T, E>, show: Show<E>): (o: Call<T, T, E>)
    ensures o.Returned? <==> self.Ok?
    ensures o.Returned? ==> o.value == self.value
    ensures o.Unwrapped? ==> o.signal.result == self && o.signal == Failure.Unwrap(self, show)
    ensures !o.Raised?
  {
    match self
    case Ok(_) => Returned(Success.Unwrap(self))
    case Err(_) => Unwrapped(Failure.Unwrap(self, show))
  }

  /** The error, or an `UnwrapError` about `self` whose message renders the
      value with `show`. */
  function UnwrapErr<T, E>(self: Result<T, E>, show: Show<T>): (o: Call<E, T, E>)
    ensures o.Returned? <==> self.Err?
    ensures o.Returned? ==> o.value == self.error
    ensures o.Unwrapped? ==> o.signal.result == self && o.signal == Success.UnwrapErr(self, show)
    ensures !o.Raised?
  {
    match self
    case Ok(_) => Unwrapped(Success.UnwrapErr(self, show))
    case Err(_) => Returned(Failure.UnwrapErr(self))
  }

  function UnwrapOr<T, E>(self: Result<T, E>, default: T): (v: T)
    ensures self.Ok? ==> v == self.value
    ensures self.Err? ==> v == default
  {
    match self
    case Ok(_) => Success.UnwrapOr(self, default)
    case Err(_) => Failure.UnwrapOr(self, default)
  }

  function UnwrapOrElse<T, E>(self: Result<T, E>, func: E -> T): (v: T)
    ensures self.Ok? ==> v == self.value
    ensures self.Err? ==> v == func(self.error)
  {
    match self
    case Ok(_) => Success.UnwrapOrElse(self, func)
    case Err(_) => Failure.UnwrapOrElse(self, func)
  }

  /** The same variant; only a success value is transformed, an error passes
      through untouched. */
  function Map<T, E, R>(self: Result<T, E>, func: T -> R): (r: Result<R, E>)
    ensures r.Ok? <==> self.Ok?
    ensures r.Ok? ==> r.value == func(self.value)
    ensures r.Err? ==> r.error == self.error
  {
    match self
    case Ok(_) => Success.Map(self, func)
    case Err(_) => Failure.Map(self, func)
  }

  /** The same variant; only an error is transformed, a success value passes
      through untouched. */
  function MapErr<T, E, R>(self: Result<T, E>, func: E -> R): (r: Result<T, R>)
    ensures r.Ok? <==> self.Ok?
    ensures r.Ok? ==> r.value == self.value
    ensures r.Err? ==> r.error == func(self.error)
  {
    match self
    case Ok(_) => Success.MapErr(self, func)
    case Err(_) => Failure.MapErr(self, func)
  }

  function MapOr<T, E, R>(self: Result<T, E>, func: T -> R, default: R): (v: R)
    ensures self.Ok? ==> v == func(self.value)
    ensures self.Err? ==> v == default
  {
    match self
    case Ok(_) => Success.MapOr(self, func, default)
    case Err(_) => Failure.MapOr(self, func, default)
  }

  function MapOrElse<T, E, R>(self: Result<T, E>, func: T -> R, default: E -> R): (v: R)
    ensures self.Ok? ==> v == func(self.value)
    ensures self.Err? ==> v == default(self.error)
  {
    match self
    case Ok(_) => Success.MapOrElse(self, func, default)
    case Err(_) => Failure.MapOrElse(self, func, default)
  }

  /** Chains a fallible step after a success; an error short-circuits it. */
  function AndThen<T, E, R>(self: Result<T, E>, func: T -> Result<R, E>): (r: Result<R, E>)
    ensures self.Ok? ==> r == func(self.value)
    ensures self.Err? ==> r.Err? && r.error == self.error
  {
    match self
    case Ok(_) => Success.AndThen(self, func)
    case Err(_) => Failure.AndThen(self, func)
  }

  /** Recovers from an error with a fallible step; a success short-circuits it. */
  function OrElse<T, E>(self: Result<T, E>, func: E -> Result<T, E>): (r: Result<T, E>)
    ensures self.Ok? ==> r == self
    ensures self.Err? ==> r == func(self.error)
  {
    match self
    case Ok(_) => Success.OrElse(self, func)
    case Err(_) => Failure.OrElse(self, func)
  }

  /** The success value once, or nothing. */
  function Iter<T, E>(self: Result<T, E>): (s: seq<T>)
    ensures |s| <= 1
    ensures |s| == 1 <==> self.Ok?
    ensures |s| == 1 ==> s[0] == self.value
  {
    match self
    case Ok(_) => Success.Iter(self)
    case Err(_) => Failure.Iter(self)
  }

  /** The error once, or nothing. */
  function IterErr<T, E>(self: Result<T, E>): (s: seq<E>)
    ensures |s| <= 1
    ensures |s| == 1 <==> self.Err?
    ensures |s| == 1 ==> s[0] == self.error
  {
    match self
    case Ok(_) => Success.IterErr(self)
    case Err(_) => Failure.IterErr(self)
  }

  /** `transpose` as written: only `Err` defines it (it returns the receiver);
      on an `Ok` the attribute lookup fails. */
  function Transpose<T, E>(self: Result<T, E>): (o: Call<Option<Result<T, E>>, T, E>)
    ensures self.Err? ==> o == Returned(Some(self))
    ensures self.Ok? ==> o == Raised("AttributeError")
  {
    match self
    case Ok(_) => Raised("AttributeError")
    case Err(_) => Returned(Failure.Transpose(self))
  }

  /** `flatten` as written: only `Err` defines it (it returns the receiver);
      on an `Ok` the attribute lookup fails. */
  function Flatten<T, E>(self: Result<T, E>): (o: Call<Result<T, E>, T, E>)
    ensures self.Err? ==> o == Returned(self)
    ensures self.Ok? ==> o == Raised("AttributeError")
  {
    match self
    case Ok(_) => Raised("AttributeError")
    case Err(_) => Returned(Failure.Flatten(self))
  }

  /** As written, `Ok(Some(v)).transpose()` and `Ok(Ok(v)).flatten()` raise
      `AttributeError` instead of returning `Some(Ok(v))` and `Ok(v)`. */
  lemma TransposeAndFlattenFailOnOk<T, E>(v: T)
    ensures Transpose<Option<T>, E>(Ok(Some(v))).Raised?
    ensures Flatten<Result<T, E>, E>(Ok(Ok(v))).Raised?
  {
  }

  /** `transpose` as intended: `Ok(None)` becomes `None`, `Ok(Some(v))`
      becomes `Some(Ok(v))`, and `Err(e)` becomes `Some(Err(e))`. */
  function TransposeIntended<T, E>(self: Result<Option<T>, E>): (r: Option<Result<T, E>>)
    ensures r.None? <==> self == Ok(None)
    ensures r.Some? ==> r.value.Ok? == self.Ok? && r.value.Err? == self.Err?
    ensures r.Some? && r.value.Ok? ==> self.value == Some(r.value.value)
    ensures r.Some? && r.value.Err? ==> r.value.error == self.error
  {
    match self
    case Ok(None) => None
    case Ok(Some(v)) => Some(Ok(v))
    case Err(e) => Some(Err(e))
  }

  /** The inverse of `TransposeIntended`. */
  function Untranspose<T, E>(o: Option<Result<T, E>>): (r: Result<Option<T>, E>)
    ensures TransposeIntended(r) == o
  {
    match o
    case None => Ok(None)
    case Some(Ok(v)) => Ok(Some(v))
    case Some(Err(e)) => Err(e)
  }

  /** `TransposeIntended` loses nothing: it is undone by `Untranspose`. */
  lemma TransposeRoundTrip<T, E>(r: Result<Option<T>, E>)
    ensures Untranspose(TransposeIntended(r)) == r
  {
  }

  /** `flatten` as intended: `Ok(inner)` becomes `inner` and `Err(e)` stays
      `Err(e)`; that is, `and_then` with the identity. */
  function FlattenIntended<T, E>(self: Result<Result<T, E>, E>): (r: Result<T, E>)
    ensures r == AndThen(self, (inner: Result<T, E>) => inner)
  {
    match self
    case Ok(inner) => inner
    case Err(e) => Err(e)
  }

  /** Wrapping a Result's success value in `Ok` and flattening gives the
      Result back. */
  lemma FlattenUndoesWrap<T, E>(r: Result<T, E>)
    ensures FlattenIntended(Map<T, E, Result<T, E>>(r, (v: T) => Ok(v))) == r
  {
  }
}
