/** The minimal Result of src/pyresults/result.py behaves exactly as the rich
    one (base.py, success.py, failure.py, exception.py, deco.py) on every
    operation the two have in common. */
module Agreement {
  import opened Python
  import Base
  import Exceptions
  import Results
  import Deco
  import Minimal

  /** The rich Result with the same variant and payload. */
  function Rich<T, E>(m: Minimal.Result<T, E>): (r: Base.Result<T, E>)
    ensures r.Ok? <==> m.Ok?
    ensures r.Ok? ==> r.value == m.value
    ensures r.Err? ==> r.error == m.error
  {
    match m
    case Ok(v) => Base.Ok(v)
    case Err(e) => Base.Err(e)
  }

  /** The minimal Result with the same variant and payload. */
  function FromRich<T, E>(r: Base.Result<T, E>): (m: Minimal.Result<T, E>)
    ensures Rich(m) == r
  {
    match r
    case Ok(v) => Minimal.Ok(v)
    case Err(e) => Minimal.Err(e)
  }

  /** The two Results correspond one to one. */
  lemma RichIsBijective<T, E>(m: Minimal.Result<T, E>, n: Minimal.Result<T, E>)
    ensures FromRich(Rich(m)) == m
    ensures Rich(m) == Rich(n) ==> m == n
  {
  }

  /** The same call end, with a minimal `UnwrapError` read as a rich one and
      a returned value converted by `f`. */
  function RichCall<A, B, T, E>(o: Minimal.Call<A, T, E>, f: A -> B): (c: Exceptions.Call<B, T, E>)
    ensures o.Returned? <==> c.Returned?
    ensures o.Returned? ==> c.value == f(o.value)
    ensures o.Unwrapped? ==> c.Unwrapped? && c.signal.result == Rich(o.signal.result) && c.signal.message == o.signal.message
    ensures o.Raised? ==> c == Raised(o.kind)
  {
    match o
    case Returned(a) => Returned(f(a))
    case Unwrapped(u) => Unwrapped(Exceptions.UnwrapError(Rich(u.result), u.message))
    case Raised(k) => Raised(k)
  }

  /** On an `Ok`, every minimal method gives what `Ok` of success.py gives,
      messages included. */
  lemma OkAgrees<T, E, R>(m: Minimal.Result<T, E>, d: T, f: T -> R, showT: Show<T>, showE: Show<E>)
    requires m.Ok?
    ensures m.IsOk() == Results.IsOk(Rich(m)) && m.IsErr() == Results.IsErr(Rich(m))
    ensures RichCall(m.Unwrap(showE), (v: T) => v) == Results.Unwrap(Rich(m), showE)
    ensures m.UnwrapOr(d) == Results.UnwrapOr(Rich(m), d)
    ensures RichCall(m.UnwrapErr(showT), (e: E) => e) == Results.UnwrapErr(Rich(m), showT)
    ensures Rich(m.Map(f)) == Results.Map(Rich(m), f)
  {
  }

  /** On an `Err`, every minimal method gives what `Err` of failure.py gives,
      messages included. */
  lemma ErrAgrees<T, E, R>(m: Minimal.Result<T, E>, d: T, f: T -> R, showT: Show<T>, showE: Show<E>)
    requires m.Err?
    ensures m.IsOk() == Results.IsOk(Rich(m)) && m.IsErr() == Results.IsErr(Rich(m))
    ensures RichCall(m.Unwrap(showE), (v: T) => v) == Results.Unwrap(Rich(m), showE)
    ensures m.UnwrapOr(d) == Results.UnwrapOr(Rich(m), d)
    ensures RichCall(m.UnwrapErr(showT), (e: E) => e) == Results.UnwrapErr(Rich(m), showT)
    ensures Rich(m.Map(f)) == Results.Map(Rich(m), f)
  {
  }

  /** Dispatching on `isinstance(result, Ok)` gives what dispatching on
      `is_ok()` gives, and the two decorators treat every call end alike. */
  lemma PropagationAgrees<T, E>(m: Minimal.Result<T, E>, call: Minimal.Call<Minimal.Result<T, E>, T, E>)
    ensures RichCall(Minimal.Question(m), (v: T) => v) == Deco.Question(Rich(m))
    ensures RichCall(Minimal.Boundary(call), Rich) == Deco.Boundary(RichCall(call, Rich))
  {
  }
}
