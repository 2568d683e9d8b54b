/** src/pyresults/result.py: a second, self-contained Result with only
    `is_ok`, `is_err`, `unwrap`, `unwrap_or`, `unwrap_err` and `map`, its own
    `UnwrapError` class, and its own `result` decorator and `question`. */
module Minimal {
  import opened Python

  /** The minimal `Result[T, E]`: `Ok(value)` or `Err(error)`. */
  datatype Result<+T, +E> = Ok(value: T) | Err(error: E)
  {
    function IsOk(): (b: bool)
      ensures b <==> this.Ok?
    {
      match this
      case Ok(_) => true
      case Err(_) => false
    }

    /** Defined once on the base class, as `not self.is_ok()`. */
    function IsErr(): (b: bool)
      ensures b <==> this.Err?
    {
      !IsOk()
    }

    /** The success value, or an `UnwrapError` about this `Err` whose message
        is the error's `str` for an exception, and otherwise
        `Called unwrap on an Err value: ` followed by it. */
    function Unwrap(show: Show<E>): (o: Outcome<T, UnwrapError<T, E>>)
      ensures o.Returned? <==> this.Ok?
      ensures o.Returned? ==> o.value == this.value
      ensures o.Unwrapped? ==> o.signal.result == this
      ensures o.Unwrapped? && show.isException(this.error) ==> o.signal.message == show.str(this.error)
      ensures o.Unwrapped? && !show.isException(this.error) ==>
        o.signal.message == "Called unwrap on an Err value: " + show.str(this.error)
      ensures !o.Raised?
    {
      match this
      case Ok(v) => Returned(v)
      case Err(e) =>
        if show.isException(e) then Unwrapped(UnwrapError(this, show.str(e)))
        else Unwrapped(UnwrapError(this, "Called unwrap on an Err value: " + show.str(e)))
    }

    function UnwrapOr(default: T): (v: T)
      ensures this.Ok? ==> v == this.value
      ensures this.Err? ==> v == default
    {
      match this
      case Ok(v) => v
      case Err(_) => default
    }

    /** The error, or an `UnwrapError` about this `Ok` whose message is the
        value's `str` for an exception, and otherwise
        `Called unwrap_err on an Ok value: ` followed by it. */
    function UnwrapErr(show: Show<T>): (o: Outcome<E, UnwrapError<T, E>>)
      ensures o.Returned? <==> this.Err?
      ensures o.Returned? ==> o.value == this.error
      ensures o.Unwrapped? ==> o.signal.result == this
      ensures o.Unwrapped? && show.isException(this.value) ==> o.signal.message == show.str(this.value)
      ensures o.Unwrapped? && !show.isException(this.value) ==>
        o.signal.message == "Called unwrap_err on an Ok value: " + show.str(this.value)
      ensures !o.Raised?
    {
      match this
      case Ok(v) =>
        if show.isException(v) then Unwrapped(UnwrapError(this, show.str(v)))
        else Unwrapped(UnwrapError(this, "Called unwrap_err on an Ok value: " + show.str(v)))
      case Err(e) => Returned(e)
    }

    /** The same variant; only a success value is transformed. */
    function Map<R>(func: T -> R): (r: Result<R, E>)
      ensures r.Ok? <==> this.Ok?
      ensures r.Ok? ==> r.value == func(this.value)
      ensures r.Err? ==> r.error == this.error
    {
      match this
      case Ok(v) => Ok(func(v))
      case Err(e) => Err(e)
    }
  }

  /** This module's own `UnwrapError`: a class distinct from the one in
      exception.py, holding the given Result and message unchanged. */
  datatype UnwrapError<+T, +E> = UnwrapError(result: Result<T, E>, message: string)

  /** A call about a minimal `Result[T, E]` that returns an `A` or raises. */
  type Call<+A, +T, +E> = Outcome<A, UnwrapError<T, E>>

  /** `question`: decided by `isinstance(result, Ok)`, the `Ok` payload, or
      an `UnwrapError` carrying the argument with message `result is Err`. */
  function Question<T, E>(result: Result<T, E>): (o: Call<T, T, E>)
    ensures o.Returned? <==> result.Ok?
    ensures o.Returned? ==> o.value == result.value
    ensures o.Unwrapped? ==> o.signal == UnwrapError(result, "result is Err")
    ensures !o.Raised?
  {
    if result.Ok? then Returned(result.value) else Unwrapped(UnwrapError(result, "result is Err"))
  }

  /** The `try`/`except UnwrapError` of this module's `wrapper`. */
  function Boundary<T, E>(call: Call<Result<T, E>, T, E>): (o: Call<Result<T, E>, T, E>)
    ensures !o.Unwrapped?
    ensures call.Returned? || call.Raised? ==> o == call
    ensures call.Unwrapped? ==> o == Returned(call.signal.result)
  {
    match call
    case Returned(r) => Returned(r)
    case Unwrapped(u) => Returned(u.result)
    case Raised(k) => Raised(k)
  }

  /** `@result` of this module. */
  function Decorate<A(!new), T, E>(func: A -> Call<Result<T, E>, T, E>): (wrapper: A -> Call<Result<T, E>, T, E>)
    ensures forall a :: !wrapper(a).Unwrapped?
    ensures forall a :: !func(a).Unwrapped? ==> wrapper(a) == func(a)
    ensures forall a :: func(a).Unwrapped? ==> wrapper(a) == Returned(func(a).signal.result)
  {
    (a: A) => Boundary(func(a))
  }

  /** A decorated body that begins `v = question(inner)`: on `Err(e)` the
      function returns `Err(e)`, and on `Ok(v)` the body goes on with `v`. */
  lemma QuestionPropagates<T, E>(inner: Result<T, E>, rest: T -> Call<Result<T, E>, T, E>)
    ensures inner.Err? ==> Boundary(Then(Question(inner), rest)) == Returned(inner)
    ensures inner.Ok? ==> Boundary(Then(Question(inner), rest)) == Boundary(rest(inner.value))
  {
  }
}
