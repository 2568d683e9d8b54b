/** Laws relating the Result operations to one another: `map` is a functor,
    `and_then` a monad bind, and each combinator agrees with the simpler
    operations it can be written with. */
module Laws {
  import opened Python
  import opened Base
  import opened Results

  /** `r.map(lambda x: x) == r`. */
  lemma MapIdentity<T, E>(r: Result<T, E>)
    ensures Map(r, (x: T) => x) == r
  {
  }

  /** `r.map(f).map(g) == r.map(lambda x: g(f(x)))`. */
  lemma MapComposition<T, E, R, S>(r: Result<T, E>, f: T -> R, g: R -> S)
    ensures Map(Map(r, f), g) == Map(r, (x: T) => g(f(x)))
  {
  }

  /** `r.map_err(lambda e: e) == r`. */
  lemma MapErrIdentity<T, E>(r: Result<T, E>)
    ensures MapErr(r, (e: E) => e) == r
  {
  }

  /** `r.map_err(f).map_err(g) == r.map_err(lambda e: g(f(e)))`. */
  lemma MapErrComposition<T, E, R, S>(r: Result<T, E>, f: E -> R, g: R -> S)
    ensures MapErr(MapErr(r, f), g) == MapErr(r, (e: E) => g(f(e)))
  {
  }

  /** Mapping one payload never disturbs the other, so the order of `map` and
      `map_err` does not matter. */
  lemma MapAndMapErrCommute<T, E, R, S>(r: Result<T, E>, f: T -> R, g: E -> S)
    ensures MapErr(Map(r, f), g) == Map(MapErr(r, g), f)
  {
  }

  /** Left identity: `Ok(v).and_then(f) == f(v)`. */
  lemma AndThenLeftIdentity<T, E, R>(v: T, f: T -> Result<R, E>)
    ensures AndThen(Ok(v), f) == f(v)
  {
  }

  /** Right identity: `r.and_then(Ok) == r`. */
  lemma AndThenRightIdentity<T, E>(r: Result<T, E>)
    ensures AndThen(r, (x: T) => Ok(x)) == r
  {
  }

  /** Associativity: `r.and_then(f).and_then(g) == r.and_then(lambda x: f(x).and_then(g))`. */
  lemma AndThenAssociative<T, E, R, S>(r: Result<T, E>, f: T -> Result<R, E>, g: R -> Result<S, E>)
    ensures AndThen(AndThen(r, f), g) == AndThen(r, (x: T) => AndThen(f(x), g))
  {
  }

  /** `Err(e).and_then(f) == Err(e)` for every `f`. */
  lemma AndThenShortCircuits<T, E, R>(e: E, f: T -> Result<R, E>)
    ensures AndThen(Err(e), f) == Err(e)
  {
  }

  /** The duals for `or_else`: `Err(e).or_else(f) == f(e)`,
      `r.or_else(Err) == r`, and `Ok(v).or_else(f) == Ok(v)`. */
  lemma OrElseIdentities<T, E>(r: Result<T, E>, e: E, v: T, f: E -> Result<T, E>)
    ensures OrElse(Err(e), f) == f(e)
    ensures OrElse(r, (x: E) => Err(x)) == r
    ensures OrElse(Ok(v), f) == Ok(v)
  {
  }

  /** `or_else` is associative. */
  lemma OrElseAssociative<T, E>(r: Result<T, E>, f: E -> Result<T, E>, g: E -> Result<T, E>)
    ensures OrElse(OrElse(r, f), g) == OrElse(r, (x: E) => OrElse(f(x), g))
  {
  }

  /** `map` is `and_then` with a step that cannot fail. */
  lemma MapIsAndThen<T, E, R>(r: Result<T, E>, f: T -> R)
    ensures Map(r, f) == AndThen(r, (x: T) => Ok(f(x)))
  {
  }

  /** `map_err` is `or_else` with a step that always fails. */
  lemma MapErrIsOrElse<T, E>(r: Result<T, E>, f: E -> E)
    ensures MapErr(r, f) == OrElse(r, (x: E) => Err(f(x)))
  {
  }

  /** `map_or(f, d)` is `map(f)` followed by `unwrap_or(d)`, and `map_or_else`
      likewise with `unwrap_or_else`. */
  lemma MapOrIsMapThenUnwrapOr<T, E, R>(r: Result<T, E>, f: T -> R, d: R, g: E -> R)
    ensures MapOr(r, f, d) == UnwrapOr(Map(r, f), d)
    ensures MapOrElse(r, f, g) == UnwrapOrElse(Map(r, f), g)
  {
  }

  /** `is_ok_and(p)` is `map_or(p, False)`; `is_err_and(q)` is
      `map_or_else(lambda _: False, q)`. */
  lemma IsOkAndIsMapOr<T, E>(r: Result<T, E>, p: T -> bool, q: E -> bool)
    ensures IsOkAnd(r, p) == MapOr(r, p, false)
    ensures IsErrAnd(r, q) == MapOrElse(r, (_: T) => false, q)
  {
  }

  /** `is_err` is `not is_ok`, and `unwrap_or_else` with a constant function
      is `unwrap_or`. */
  lemma ObserversAgree<T, E>(r: Result<T, E>, d: T)
    ensures IsErr(r) == !IsOk(r)
    ensures UnwrapOrElse(r, (e: E) => d) == UnwrapOr(r, d)
  {
  }

  /** `iter` yields exactly what `unwrap` would return, and `iter_err`
      exactly what `unwrap_err` would return; each yields one element iff
      the matching extraction does not raise. */
  lemma IterMatchesUnwrap<T, E>(r: Result<T, E>, showT: Show<T>, showE: Show<E>)
    ensures |Iter(r)| == 1 <==> Unwrap(r, showE).Returned?
    ensures Unwrap(r, showE).Returned? ==> Iter(r) == [Unwrap(r, showE).value]
    ensures |IterErr(r)| == 1 <==> UnwrapErr(r, showT).Returned?
    ensures UnwrapErr(r, showT).Returned? ==> IterErr(r) == [UnwrapErr(r, showT).value]
    ensures |Iter(r)| + |IterErr(r)| == 1
  {
  }

  /** Exactly one of `unwrap` and `unwrap_err` raises, and the signal it raises
      carries the receiver itself. `expect` returns what `unwrap` returns. */
  lemma ExtractionsAgree<T, E>(r: Result<T, E>, showT: Show<T>, showE: Show<E>, message: string)
    ensures Unwrap(r, showE).Unwrapped? != UnwrapErr(r, showT).Unwrapped?
    ensures Unwrap(r, showE).Unwrapped? ==> Unwrap(r, showE).signal.result == r
    ensures UnwrapErr(r, showT).Unwrapped? ==> UnwrapErr(r, showT).signal.result == r
    ensures Expect(r, message).Returned? == Unwrap(r, showE).Returned?
    ensures Expect(r, message).Returned? ==> Expect(r, message).value == Unwrap(r, showE).value
    ensures ExpectErr(r, message).Returned? ==> ExpectErr(r, message).value == UnwrapErr(r, showT).value
  {
  }
}
