/** `question` and the `result` decorator of src/pyresults/deco.py: together
    they emulate Rust's `?` by raising an `UnwrapError` at the point of
    failure and catching it at the nearest decorated function. */
module Deco {
  import opened Python
  import opened Base
  import opened Exceptions
  import opened Results
  import Success

  /** The message `question` raises with. */
  const QuestionMessage := "result is Err"

  /** `question(result)`: the success value, or an `UnwrapError` carrying
      this very `Err`, untransformed. Nothing else is ever raised. */
  function Question<T, E>(result: Result<T, E>): (o: Call<T, T, E>)
    ensures o.Returned? <==> result.Ok?
    ensures o.Returned? ==> o.value == result.value
    ensures o.Unwrapped? ==> o.signal == UnwrapError(result, QuestionMessage)
    ensures !o.Raised?
  {
    if IsOk(result) then Returned(Success.Unwrap(result))
    else Unwrapped(New(result, QuestionMessage))
  }

  /** The `try`/`except UnwrapError` of `wrapper`, applied to how the wrapped
      call ended: a normal return passes unchanged, a caught `UnwrapError`
      becomes a return of the Result it carries, and any other exception
      propagates unchanged. */
  function Boundary<T, E>(call: Call<Result<T, E>, T, E>): (o: Call<Result<T, E>, T, E>)
    ensures !o.Unwrapped?
    ensures call.Returned? || call.Raised? ==> o == call
    ensures call.Unwrapped? ==> o == Returned(call.signal.result)
  {
    match call
    case Returned(r) => Returned(r)
    case Unwrapped(u) => Returned(u.result)
    case Raised(k) => Raised(k)
  }

  /** `@result`: the decorated function runs `func` inside `Boundary`. No
      `UnwrapError` ever escapes it, and a function that returns normally
      is not changed. */
  function Decorate<A(!new), T, E>(func: A -> Call<Result<T, E>, T, E>): (wrapper: A -> Call<Result<T, E>, T, E>)
    ensures forall a :: !wrapper(a).Unwrapped?
    ensures forall a :: !func(a).Unwrapped? ==> wrapper(a) == func(a)
    ensures forall a :: func(a).Unwrapped? ==> wrapper(a) == Returned(func(a).signal.result)
  {
    (a: A) => Boundary(func(a))
  }

  /** Decorating twice is decorating once: the inner boundary lets no
      `UnwrapError` out for the outer one to catch. */
  lemma DecorateIdempotent<A(!new), T, E>(func: A -> Call<Result<T, E>, T, E>, a: A)
    ensures Decorate(Decorate(func))(a) == Decorate(func)(a)
  {
  }

  /** A decorated body that begins `v = question(inner)`: on `Err(e)` the
      function returns `Err(e)` unchanged, and on `Ok(v)` the body goes on with
      `v`. */
  lemma QuestionPropagates<T, E>(inner: Result<T, E>, rest: T -> Call<Result<T, E>, T, E>)
    ensures inner.Err? ==> Boundary(Then(Question(inner), rest)) == Returned(inner)
    ensures inner.Ok? ==> Boundary(Then(Question(inner), rest)) == Boundary(rest(inner.value))
  {
  }

  /** `question` is Rust's `?`: a decorated body `return k(question(inner))`
      returns exactly `inner.and_then(k)`. */
  lemma QuestionIsAndThen<T, E>(inner: Result<T, E>, k: T -> Result<T, E>)
    ensures Boundary(Then(Question(inner), (v: T) => Returned(k(v)))) == Returned(AndThen(inner, k))
  {
  }

  /** An `UnwrapError` raised inside a decorated call is caught by that call's
      own boundary: its caller sees a plain returned Result, never the
      signal. */
  lemma NearestBoundaryCatches<T, E, B>(call: Call<Result<T, E>, T, E>, rest: Result<T, E> -> Call<B, T, E>)
    requires call.Unwrapped?
    ensures Then(Boundary(call), rest) == rest(call.signal.result)
  {
  }

  /** `unwrap`, `expect` and `unwrap_err` raise an `UnwrapError` carrying their
      receiver, so inside a decorated body `Err(e).unwrap()` and
      `Err(e).expect(m)` make the function return `Err(e)`, and
      `Ok(v).unwrap_err()` makes it return `Ok(v)`. */
  lemma ExtractionInsideBoundary<T, E>(e: E, v: T, m: string, showT: Show<T>, showE: Show<E>,
                                       rest: T -> Call<Result<T, E>, T, E>, restErr: E -> Call<Result<T, E>, T, E>)
    ensures Boundary(Then(Unwrap(Err(e), showE), rest)) == Returned(Err(e))
    ensures Boundary(Then(Expect(Err(e), m), rest)) == Returned(Err(e))
    ensures Boundary(Then(UnwrapErr(Ok(v), showT), restErr)) == Returned(Ok(v))
  {
  }

  /** A decorated body that runs `x = question(step(x))` for each step in
      turn, starting from `x`, and then has `x`. It stops at the first step
      that fails, with the `UnwrapError` of `question`. */
  function Chain<T, E>(x: T, steps: seq<T -> Result<T, E>>): (o: Call<T, T, E>)
    ensures o.Unwrapped? ==> o.signal.result.Err? && o.signal.message == QuestionMessage
    ensures !o.Raised?
    decreases |steps|
  {
    if steps == [] then Returned(x)
    else Then(Question(steps[0](x)), (y: T) => Chain(y, steps[1..]))
  }

  /** The same steps chained with `and_then`: `r.and_then(steps[0]).and_then(steps[1])...`.
      An `Err` goes through the whole chain untouched. */
  function AndThenAll<T, E>(r: Result<T, E>, steps: seq<T -> Result<T, E>>): (a: Result<T, E>)
    ensures r.Err? ==> a == r
    decreases |steps|
  {
    if steps == [] then r else AndThenAll(AndThen(r, steps[0]), steps[1..])
  }

  /** Propagation through `question` and the decorator computes exactly what
      chaining with `and_then` computes: a decorated body that runs the steps
      with `question` and then returns `finish(x)` returns
      `Ok(x).and_then(steps[0])...and_then(finish)`. */
  lemma {:induction false} ChainIsAndThen<T, E>(x: T, steps: seq<T -> Result<T, E>>, finish: T -> Result<T, E>)
    ensures Boundary(Then(Chain(x, steps), (y: T) => Returned(finish(y)))) == Returned(AndThen(AndThenAll(Ok(x), steps), finish))
    decreases |steps|
  {
    if steps != [] {
      match steps[0](x)
      case Ok(y) =>
        ChainIsAndThen(y, steps[1..], finish);
      case Err(e) =>
    }
  }
}
