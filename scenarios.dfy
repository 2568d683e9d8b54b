/** The scenarios of the repository's tests and example programs, stated as
    lemmas about the model. Python's `float` is read as `real`, and `str` of
    an `int` as its decimal digits. */
module Scenarios {
  import opened Python
  import opened Base
  import opened Exceptions
  import opened Results
  import Success
  import Failure
  import Deco
  import Minimal

  /** `str` and `repr` of a Python `str` that contains neither a quote nor a
      backslash, as every text in these scenarios does: the text itself, and
      the text in single quotes. */
  const TextShow: Show<string> := Show((s: string) => s, (s: string) => "'" + s + "'", (s: string) => false)

  /** The decimal digits of `n`, as `str(n)` writes them. */
  function Decimal(n: int): string
    decreases if n < 0 then 1 - n else n
  {
    if n < 0 then "-" + Decimal(-n)
    else if n < 10 then ["0123456789"[n]]
    else Decimal(n / 10) + ["0123456789"[n % 10]]
  }

  /** `str` and `repr` of a Python `int`. */
  const IntShow: Show<int> := Show(Decimal, Decimal, (n: int) => false)

  const ZeroDivision := "ゼロ除算エラー"

  /** `divide(a, b)` of the example programs and tests. */
  function Divide(a: real, b: real): (r: Result<real, string>)
    ensures r.Err? <==> b == 0.0
    ensures r.Ok? ==> r.value * b == a
    ensures r.Err? ==> r.error == ZeroDivision
  {
    if b == 0.0 then Err(ZeroDivision) else Ok(a / b)
  }

  /** `divide(10, 2).unwrap() == 5.0`; `divide(10, 0).unwrap_err()` is the
      message; `divide(10, 0).unwrap()` raises `UnwrapError` carrying the
      `Err`. */
  lemma DivideScenarios()
    ensures Unwrap(Divide(10.0, 2.0), TextShow) == Returned(5.0)
    ensures UnwrapErr(Divide(10.0, 0.0), Show((x: real) => "", (x: real) => "", (x: real) => false)) == Returned(ZeroDivision)
    ensures Unwrap(Divide(10.0, 0.0), TextShow).Unwrapped?
    ensures Unwrap(Divide(10.0, 0.0), TextShow).signal.result == Err(ZeroDivision)
  {
  }

  /** The decorated `divide` gives `Ok(2.0)` for 4 and 2, and the message for
      4 and 0. */
  lemma DecoratedDivideScenarios()
    ensures Deco.Decorate((p: (real, real)) => Returned(Divide(p.0, p.1)))((4.0, 2.0)) == Returned(Ok(2.0))
    ensures Deco.Decorate((p: (real, real)) => Returned(Divide(p.0, p.1)))((4.0, 0.0)) == Returned(Err(ZeroDivision))
  {
  }

  /** `Err("error").unwrap()` raises with message
      `Called unwrap on an Err value: error`, and `Ok(42).unwrap_err()` with
      `Called unwrap_err on an Ok value: 42`; each carries its receiver. */
  lemma UnwrapMessages()
    ensures Unwrap<int, string>(Err("error"), TextShow)
      == Unwrapped(UnwrapError(Err("error"), "Called unwrap on an Err value: error"))
    ensures UnwrapErr<int, string>(Ok(42), IntShow)
      == Unwrapped(UnwrapError(Ok(42), "Called unwrap_err on an Ok value: 42"))
  {
    assert TextShow.str("error") == "error";
    assert Failure.UnwrapPrefix + "error" == "Called unwrap on an Err value: error";
    assert IntShow.str(42) == "42" by { assert Decimal(4) == "4"; }
    assert Success.UnwrapErrPrefix + "42" == "Called unwrap_err on an Ok value: 42";
  }

  /** `Ok(42)` and `Err("error")` under every observer, extraction,
      combinator and iterator the tests apply to them. */
  lemma BasicScenarios()
    ensures var ok: Result<int, string> := Ok(42);
      IsOk(ok) && !IsErr(ok) && UnwrapOr(ok, 0) == 42 && UnwrapOrElse(ok, (_: string) => 0) == 42
      && Map(ok, (x: int) => x * 2) == Ok(84) && MapErr(ok, (_: string) => "new error") == Ok(42)
      && MapOr(ok, (x: int) => x * 2, 0) == 84 && AndThen<int, string, int>(ok, (_: int) => Err("new error")) == Err("new error")
      && OrElse(ok, (_: string) => Ok(0)) == Ok(42) && Iter(ok) == [42] && IterErr(ok) == []
    ensures var err: Result<int, string> := Err("error");
      !IsOk(err) && IsErr(err) && UnwrapOr(err, 42) == 42 && UnwrapOrElse(err, (_: string) => 42) == 42
      && Map(err, (x: int) => x * 2) == Err("error") && MapErr(err, (_: string) => "new error") == Err("new error")
      && MapOrElse(err, (x: int) => x * 2, (_: string) => 0) == 0 && OrElse(err, (_: string) => Ok(0)) == Ok(0)
      && Iter(err) == [] && IterErr(err) == ["error"]
    ensures var ok: Result<int, string> := Ok(42);
      Unwrap(ok, TextShow) == Returned(42) && UnwrapErr(ok, IntShow).Unwrapped?
      && MapOrElse(ok, (x: int) => x * 2, (_: string) => 0) == 84
      && AndThen<int, string, int>(ok, (x: int) => Ok(x * 2)) == Ok(84)
    ensures var err: Result<int, string> := Err("error");
      UnwrapErr(err, IntShow) == Returned("error") && Unwrap(err, TextShow).Unwrapped?
      && MapOr(err, (x: int) => x * 2, 0) == 0
      && AndThen<int, string, int>(err, (x: int) => Ok(x * 2)) == Err("error")
      && OrElse(err, (_: string) => Err("new error")) == Err("new error")
  {
  }

  /** `outer_function` of the decorator example: it calls
      `question(inner_function())` on `Err("error@inner_function")` and
      returns that `Err` unchanged. */
  lemma DecoratorScenario()
    ensures var inner: Result<int, string> := Err("error@inner_function");
      Deco.Boundary(Then(Deco.Question(inner), (v: int) => Returned(Ok(v)))) == Returned(inner)
  {
  }

  /** The chained decorated functions of the minimal module's tests:
      `question(example_success())` then `Ok(val + 1)` gives `Ok(2)`, and
      `question(example_error())` then `Ok(1)` gives `Err("error")`. */
  lemma MinimalChainScenarios()
    ensures var success: Minimal.Call<Minimal.Result<int, string>, int, string> := Minimal.Boundary(Returned(Minimal.Ok(1)));
      Minimal.Boundary(Then(success, (r: Minimal.Result<int, string>) =>
        Then(Minimal.Question(r), (v: int) => Returned(Minimal.Ok(v + 1))))) == Returned(Minimal.Ok(2))
    ensures var error: Minimal.Call<Minimal.Result<int, string>, int, string> := Minimal.Boundary(Returned(Minimal.Err("error")));
      Minimal.Boundary(Then(error, (r: Minimal.Result<int, string>) =>
        Then(Minimal.Question(r), (_: int) => Returned(Minimal.Ok(1))))) == Returned(Minimal.Err("error"))
  {
  }
}
