# pyresults in Dafny

pyresults is a Python library that brings Rust's `Result` type to Python. A
`Result[T, E]` is either `Ok(value)` or `Err(error)`. Its methods inspect it
(`is_ok`, `is_err_and`), extract from it (`unwrap`, `expect`, `unwrap_or`),
transform it (`map`, `map_err`, `and_then`, `or_else`) and iterate over it
(`iter`, `iter_err`). It also offers a Rust-style `?` operator. `question(r)`
returns the payload of an `Ok` and raises `UnwrapError` on an `Err`. The
`@result` decorator catches that `UnwrapError` and returns the `Err` it
carries.

This project models that library:

- `Base` is the abstract class of base.py, modelled as one datatype `Result<T, E> = Ok(value) | Err(error)`. It holds equality (`__eq__`, `__ne__`) and rendering (`__repr__`, `__str__`).
- `Success` and `Failure` model the `Ok` class of success.py and the `Err` class of failure.py, one function per method.
- `Results` dispatches each method on the variant, as Python's method lookup does. It also holds `transpose` and `flatten`.
- `Exceptions` models `UnwrapError` (exception.py).
- `Deco` models `question` and the `@result` decorator of deco.py.
- `Minimal` models result.py, a self-contained second version of the library. `Agreement` proves that it agrees with the main modules.
- `Laws` proves the algebra of the combinators: functor laws, monad laws, and how the observers relate to each other.
- `Scenarios` replays the library's examples and test cases as lemmas.

Python behaviour is represented with a few values (module `Python`):

- A call ends as an `Outcome`. It returned a value, it raised the library's `UnwrapError` (`Unwrapped`), or it raised some other exception (`Raised`, with the class name).
- Statement sequencing is `Then`.
- `try`/`except UnwrapError` is `Boundary`.
- The payloads' `str`, `repr` and `isinstance(x, Exception)` are parameters (`Show`). The library never looks inside a payload.
- The payloads' `==` is a parameter (`eqT`, `eqE`).
- Callables passed to the combinators are Dafny functions. They are taken to return and not raise.

## Model

| member | source | states |
|---|---|---|
| Exceptions.New | src/pyresults/exception.py:6-16 | the exception carries exactly the Result and the message it was raised with |
| Base.Eq | src/pyresults/base.py:53-60 | equal only to a Result of the same variant; for the same variant, equality is the payloads' own `==`; never equal to a non-Result |
| Base.EqIsStructural | src/pyresults/base.py:53-60 | when payload `==` is identity, `__eq__` holds exactly when the two Results are the same value |
| Base.EqIsEquivalence | src/pyresults/base.py:53-60 | `__eq__` is reflexive, symmetric and transitive whenever the payload equalities are |
| Base.DataclassEq | src/pyresults/success.py:13-21 | the `__eq__` that the dataclass decorator generates answers `NotImplemented` exactly when the other object is not a Result of the same variant, and otherwise the payload comparison that `Result.__eq__` makes |
| Base.EqOperator | src/pyresults/success.py:13-21 | Python's `==` on an `Ok` or `Err` (the dataclass `__eq__`, then the reflected call, then identity) is true only for a Result of the same variant, and then exactly when the payloads' `==` holds; `Ok(1) == Err(1)` is false |
| Base.EqOperatorIsEq | src/pyresults/base.py:53-60 | the operator `==` gives what `Result.__eq__` specifies, although the dataclass method shadows it: the reflected call also answers `NotImplemented` on a variant mismatch |
| Base.NeAsWritten | src/pyresults/base.py:62-63 | as written, `!=` is false whenever the dataclass `__eq__` answers `NotImplemented`, that is, for a variant mismatch or a non-Result; for two Results of the same variant it is the negation of `Result.__eq__` |
| Base.NeAsWrittenIsNotNegation | src/pyresults/base.py:62-63 | as written, an `Ok` and an `Err` are neither `==` nor `!=` |
| Base.Ne | src/pyresults/base.py:62-63 | the intended `!=` is true for a non-Result and for a Result of the other variant |
| Base.NeNegatesEqOperator | src/pyresults/base.py:62-63 | the intended `!=` is exactly the negation of the operator `==` |
| Base.Render | src/pyresults/base.py:65-73 | the rendering is the variant name, `(`, the payload's rendering and `)`; the payload's rendering can be read back from it |
| Base.RenderInjective | src/pyresults/base.py:65-73 | two Results that render alike are the same variant, and they are equal when the payload renderings are injective |
| Base.Repr | src/pyresults/base.py:65-68 | `repr` is `Ok(` + repr of the value + `)`, or `Err(` + repr of the error + `)` |
| Base.Str | src/pyresults/base.py:70-73 | `str` is `Ok(` + str of the value + `)`, or `Err(` + str of the error + `)` |
| Base.DataclassRepr | src/pyresults/success.py:13-21 | the `__repr__` that the dataclass decorator generates puts the field name (`value=` or `error=`) before the payload |
| Base.DataclassReprIsNeverRepr | src/pyresults/base.py:65-68 | as written, the `repr` of every Result differs from the intended one |
| Success.IsOk | src/pyresults/success.py:26-36 | an `Ok` is ok |
| Success.IsOkAnd | src/pyresults/success.py:38-53 | on an `Ok`, the predicate applied to the value |
| Success.IsErr | src/pyresults/success.py:55-65 | an `Ok` is not err |
| Success.IsErrAnd | src/pyresults/success.py:67-82 | on an `Ok`, false whatever the predicate |
| Success.Expect | src/pyresults/success.py:84-97 | on an `Ok`, returns the value and ignores the message |
| Success.ExpectErr | src/pyresults/success.py:99-114 | on an `Ok`, raises an `UnwrapError` carrying this `Ok` and exactly the given message |
| Success.Unwrap | src/pyresults/success.py:116-126 | on an `Ok`, returns the value |
| Success.UnwrapOr | src/pyresults/success.py:128-141 | on an `Ok`, returns the value and ignores the default |
| Success.UnwrapErr | src/pyresults/success.py:143-158 | on an `Ok`, raises an `UnwrapError` carrying this `Ok`; the message is the value's `str` when the value is an exception, and otherwise the fixed prefix followed by that `str` |
| Success.UnwrapOrElse | src/pyresults/success.py:160-173 | on an `Ok`, returns the value without applying the function |
| Success.Map | src/pyresults/success.py:175-188 | on an `Ok`, an `Ok` of the function applied to the value |
| Success.MapErr | src/pyresults/success.py:190-203 | on an `Ok`, an `Ok` with the same value |
| Success.MapOr | src/pyresults/success.py:205-219 | on an `Ok`, the function applied to the value |
| Success.MapOrElse | src/pyresults/success.py:221-235 | on an `Ok`, the first function applied to the value |
| Success.AndThen | src/pyresults/success.py:237-252 | on an `Ok`, whatever the function returns for the value |
| Success.OrElse | src/pyresults/success.py:254-269 | on an `Ok`, a Result equal to the receiver |
| Success.Iter | src/pyresults/success.py:271-281 | on an `Ok`, yields the value once |
| Success.IterErr | src/pyresults/success.py:283-293 | on an `Ok`, yields nothing |
| Failure.IsOk | src/pyresults/failure.py:23-33 | an `Err` is not ok |
| Failure.IsOkAnd | src/pyresults/failure.py:35-50 | on an `Err`, false whatever the predicate |
| Failure.IsErr | src/pyresults/failure.py:52-62 | an `Err` is err |
| Failure.IsErrAnd | src/pyresults/failure.py:64-79 | on an `Err`, the predicate applied to the error |
| Failure.Expect | src/pyresults/failure.py:81-96 | on an `Err`, raises an `UnwrapError` carrying this `Err` and exactly the given message |
| Failure.ExpectErr | src/pyresults/failure.py:98-111 | on an `Err`, returns the error and ignores the message |
| Failure.Unwrap | src/pyresults/failure.py:113-128 | on an `Err`, raises an `UnwrapError` carrying this `Err`; the message is the error's `str` when the error is an exception, and otherwise the fixed prefix followed by that `str` |
| Failure.UnwrapOr | src/pyresults/failure.py:130-143 | on an `Err`, returns the default |
| Failure.UnwrapOrElse | src/pyresults/failure.py:145-158 | on an `Err`, the function applied to the error |
| Failure.UnwrapErr | src/pyresults/failure.py:160-170 | on an `Err`, returns the error |
| Failure.Map | src/pyresults/failure.py:172-185 | on an `Err`, an `Err` with the same error |
| Failure.MapErr | src/pyresults/failure.py:187-200 | on an `Err`, an `Err` of the function applied to the error |
| Failure.MapOr | src/pyresults/failure.py:202-216 | on an `Err`, the default |
| Failure.MapOrElse | src/pyresults/failure.py:218-232 | on an `Err`, the default function applied to the error |
| Failure.AndThen | src/pyresults/failure.py:234-249 | on an `Err`, an `Err` with the same error |
| Failure.OrElse | src/pyresults/failure.py:251-266 | on an `Err`, whatever the function returns for the error |
| Failure.Iter | src/pyresults/failure.py:268-278 | on an `Err`, yields nothing |
| Failure.IterErr | src/pyresults/failure.py:280-290 | on an `Err`, yields the error once |
| Failure.Transpose | src/pyresults/failure.py:292-300 | on an `Err`, returns the receiver itself, never `None` |
| Failure.Flatten | src/pyresults/failure.py:302-310 | on an `Err`, returns the receiver itself |
| Results.IsOk | src/pyresults/base.py:76-82 | `is_ok` holds exactly for an `Ok` |
| Results.IsErr | src/pyresults/base.py:92-99 | `is_err` holds exactly for an `Err` |
| Results.IsOkAnd | src/pyresults/base.py:84-90 | true exactly for an `Ok` whose value satisfies the predicate |
| Results.IsErrAnd | src/pyresults/base.py:101-107 | true exactly for an `Err` whose error satisfies the predicate |
| Results.Expect | src/pyresults/base.py:109-115 | returns exactly on an `Ok`, and then returns its value; otherwise raises `UnwrapError(self, message)`; never raises anything else |
| Results.ExpectErr | src/pyresults/base.py:117-123 | returns exactly on an `Err`, and then returns its error; otherwise raises `UnwrapError(self, message)` |
| Results.Unwrap | src/pyresults/base.py:125-134 | returns exactly on an `Ok`, and then returns its value; otherwise raises an `UnwrapError` carrying the receiver, with the message `Err.unwrap` writes |
| Results.UnwrapErr | src/pyresults/base.py:155-164 | returns exactly on an `Err`, and then returns its error; otherwise raises an `UnwrapError` carrying the receiver, with the message `Ok.unwrap_err` writes |
| Results.UnwrapOr | src/pyresults/base.py:136-145 | the value of an `Ok`, or the default for an `Err` |
| Results.UnwrapOrElse | src/pyresults/base.py:147-153 | the value of an `Ok`, or the function applied to the error of an `Err` |
| Results.Map | src/pyresults/base.py:166-175 | keeps the variant; maps the value of an `Ok` and keeps the error of an `Err` |
| Results.MapErr | src/pyresults/base.py:177-183 | keeps the variant; keeps the value of an `Ok` and maps the error of an `Err` |
| Results.MapOr | src/pyresults/base.py:185-192 | the function applied to the value of an `Ok`, or the default for an `Err` |
| Results.MapOrElse | src/pyresults/base.py:194-201 | the first function applied to the value of an `Ok`, or the second applied to the error of an `Err` |
| Results.AndThen | src/pyresults/base.py:203-209 | an `Ok` continues with the function; an `Err` short-circuits with its error |
| Results.OrElse | src/pyresults/base.py:211-217 | an `Ok` is kept; an `Err` is recovered by the function |
| Results.Iter | src/pyresults/base.py:219-225 | yields at most one element, exactly one for an `Ok`, and that element is its value |
| Results.IterErr | src/pyresults/base.py:227-232 | yields at most one element, exactly one for an `Err`, and that element is its error |
| Results.Transpose | src/pyresults/failure.py:292-300 | as written, an `Err` returns itself and an `Ok` raises `AttributeError`, because only `Err` defines the method |
| Results.Flatten | src/pyresults/failure.py:302-310 | as written, an `Err` returns itself and an `Ok` raises `AttributeError` |
| Results.TransposeAndFlattenFailOnOk | tests/test_base.py:104-121 | `Ok(Some(42)).transpose()` and `Ok(Ok(42)).flatten()` raise instead of returning what the tests expect |
| Results.TransposeIntended | tests/test_base.py:104-111 | `None` exactly for `Ok(None)`; otherwise the same variant with the `Some` taken off the value or the error kept |
| Results.Untranspose | tests/test_base.py:104-111 | the inverse of the intended transpose |
| Results.TransposeRoundTrip | tests/test_base.py:104-111 | undoing the intended transpose gives back the original Result |
| Results.FlattenIntended | tests/test_base.py:114-121 | the intended flatten is `and_then` with the identity |
| Results.FlattenUndoesWrap | tests/test_base.py:114-121 | flattening a Result whose value was wrapped in `Ok` gives back the Result |
| Laws.MapIdentity | src/pyresults/base.py:166-175 | mapping the identity changes nothing |
| Laws.MapComposition | src/pyresults/base.py:166-175 | mapping `f` and then `g` is mapping their composition |
| Laws.MapErrIdentity | src/pyresults/base.py:177-183 | `map_err` with the identity changes nothing |
| Laws.MapErrComposition | src/pyresults/base.py:177-183 | `map_err` with `f` and then `g` is `map_err` with their composition |
| Laws.MapAndMapErrCommute | src/pyresults/base.py:166-183 | `map` and `map_err` can be applied in either order |
| Laws.AndThenLeftIdentity | src/pyresults/base.py:203-209 | `Ok(v).and_then(f)` is `f(v)` |
| Laws.AndThenRightIdentity | src/pyresults/base.py:203-209 | `r.and_then(Ok)` is `r` |
| Laws.AndThenAssociative | src/pyresults/base.py:203-209 | `and_then` is associative |
| Laws.AndThenShortCircuits | src/pyresults/base.py:203-209 | `Err(e).and_then(f)` is `Err(e)` whatever `f` is |
| Laws.OrElseIdentities | src/pyresults/base.py:211-217 | `or_else` with `Err` changes nothing; `Ok(v).or_else(f)` is `Ok(v)`; `Err(e).or_else(f)` is `f(e)` |
| Laws.OrElseAssociative | src/pyresults/base.py:211-217 | `or_else` is associative |
| Laws.MapIsAndThen | src/pyresults/base.py:166-209 | `map(f)` is `and_then` of `Ok` after `f` |
| Laws.MapErrIsOrElse | src/pyresults/base.py:177-217 | `map_err(f)` is `or_else` of `Err` after `f` |
| Laws.MapOrIsMapThenUnwrapOr | src/pyresults/base.py:136-201 | `map_or` is `map` followed by `unwrap_or`, and `map_or_else` agrees with it |
| Laws.IsOkAndIsMapOr | src/pyresults/base.py:84-201 | `is_ok_and(p)` is `map_or(p, False)` and `is_err_and(q)` is `map_or_else(lambda _: False, q)` |
| Laws.ObserversAgree | src/pyresults/base.py:92-153 | `is_err` is `not is_ok`; `unwrap_or_else` with a constant function is `unwrap_or` |
| Laws.IterMatchesUnwrap | src/pyresults/base.py:125-233 | `iter` yields exactly what `unwrap` returns and `iter_err` exactly what `unwrap_err` returns; together they yield one element |
| Laws.ExtractionsAgree | src/pyresults/base.py:109-164 | exactly one of `unwrap` and `unwrap_err` raises, and its signal carries the receiver; `expect` returns what `unwrap` returns |
| Deco.Question | src/pyresults/deco.py:59-93 | returns exactly on an `Ok`, and then returns its value; on an `Err`, raises `UnwrapError(result, "result is Err")` |
| Deco.Boundary | src/pyresults/deco.py:50-56 | the wrapper never lets an `UnwrapError` out; it returns the Result that an `UnwrapError` carries and passes everything else through |
| Deco.Decorate | src/pyresults/deco.py:14-56 | for every argument, the decorated function agrees with the function except that an `UnwrapError` becomes the Result it carries |
| Deco.DecorateIdempotent | src/pyresults/deco.py:14-56 | decorating twice is decorating once |
| Deco.QuestionPropagates | src/pyresults/deco.py:59-93 | in a decorated body, `question(Err(e))` makes the function return `Err(e)`; `question(Ok(v))` lets the body go on with `v` |
| Deco.QuestionIsAndThen | src/pyresults/deco.py:59-93 | a decorated `return k(question(r))` returns `r.and_then(k)` |
| Deco.NearestBoundaryCatches | src/pyresults/deco.py:50-56 | an `UnwrapError` is caught by the nearest decorated call; the caller sees a returned Result |
| Deco.ExtractionInsideBoundary | src/pyresults/deco.py:50-56 | inside a decorated body, `Err(e).unwrap()` and `Err(e).expect(m)` return `Err(e)`, and `Ok(v).unwrap_err()` returns `Ok(v)` |
| Deco.Chain | src/pyresults/deco.py:59-93 | a body of successive `question` steps can only raise the `UnwrapError` of `question`, carrying an `Err` |
| Deco.AndThenAll | src/pyresults/base.py:203-209 | chaining `and_then` over steps leaves an `Err` unchanged |
| Deco.ChainIsAndThen | src/pyresults/deco.py:14-93 | a decorated body of successive `question` steps returns what chaining `and_then` over the same steps returns |
| Minimal.Result.IsOk | src/pyresults/result.py:97-163 | `is_ok` holds exactly for an `Ok` (the `is_ok` of both `Ok` and `Err`) |
| Minimal.Result.IsErr | src/pyresults/result.py:34-40 | `is_err` holds exactly for an `Err` |
| Minimal.Result.Unwrap | src/pyresults/result.py:105-174 | (the `unwrap` of both `Ok` and `Err`) returns exactly on an `Ok`, and then returns its value; otherwise raises an `UnwrapError` carrying the receiver, with the message of failure.py |
| Minimal.Result.UnwrapOr | src/pyresults/result.py:113-185 | (the `unwrap_or` of both `Ok` and `Err`) the value of an `Ok`, or the default for an `Err` |
| Minimal.Result.UnwrapErr | src/pyresults/result.py:124-193 | (the `unwrap_err` of both `Ok` and `Err`) returns exactly on an `Err`, and then returns its error; otherwise raises an `UnwrapError` carrying the receiver, with the message of success.py |
| Minimal.Result.Map | src/pyresults/result.py:135-204 | (the `map` of both `Ok` and `Err`) keeps the variant; maps the value of an `Ok` and keeps the error of an `Err` |
| Minimal.Question | src/pyresults/result.py:246-262 | returns exactly on an `Ok`, and then returns its value; on an `Err`, raises `UnwrapError(result, "result is Err")` |
| Minimal.Boundary | src/pyresults/result.py:237-243 | never lets an `UnwrapError` out; returns the Result it carries |
| Minimal.Decorate | src/pyresults/result.py:219-243 | the decorated function agrees with the function except that an `UnwrapError` becomes the Result it carries |
| Minimal.QuestionPropagates | src/pyresults/result.py:246-262 | in a decorated body, `question(Err(e))` makes the function return `Err(e)`; `question(Ok(v))` goes on with `v` |
| Agreement.Rich | src/pyresults/result.py:88-204 | a Result of result.py corresponds to the Result of the same variant and payload |
| Agreement.FromRich | src/pyresults/result.py:88-204 | the inverse correspondence |
| Agreement.RichIsBijective | src/pyresults/result.py:88-204 | the correspondence is one-to-one |
| Agreement.RichCall | src/pyresults/result.py:207-216 | an `UnwrapError` of result.py corresponds to the one of exception.py with the same Result and message |
| Agreement.OkAgrees | src/pyresults/result.py:88-145 | on an `Ok`, every method of result.py gives what success.py gives, messages included |
| Agreement.ErrAgrees | src/pyresults/result.py:148-204 | on an `Err`, every method of result.py gives what failure.py gives, messages included |
| Agreement.PropagationAgrees | src/pyresults/result.py:219-262 | `question` and the decorator of result.py behave as those of deco.py |
| Scenarios.Divide | examples/example01_basic.py:22-39 | `divide(a, b)` is an `Err` with the zero-division message exactly when `b` is zero, and otherwise an `Ok` of the quotient |
| Scenarios.DivideScenarios | examples/example01_basic.py:42-54 | `divide(10, 2).unwrap()` is 5, `divide(10, 0).unwrap_err()` is the message, and `divide(10, 0).unwrap()` raises carrying the `Err` |
| Scenarios.DecoratedDivideScenarios | tests/test_deco.py:10-19 | the decorated `divide` returns `Ok(2.0)` for 4 and 2, and `Err` with the zero-division message for 4 and 0 |
| Scenarios.UnwrapMessages | tests/test_exception.py:13-25 | `Err("error").unwrap()` and `Ok(42).unwrap_err()` raise with the exact messages the library writes |
| Scenarios.BasicScenarios | tests/test_base.py:14-102 | `Ok(42)` and `Err("error")` under every observer, extractor, combinator and iterator give what each assertion of the tests expects, raises included |
| Scenarios.DecoratorScenario | examples/example03_decorator.py:17-27 | `outer_function` returns the inner `Err("error@inner_function")` unchanged |
| Scenarios.MinimalChainScenarios | tests/test_pyresults/test_result.py:107-149 | the chained decorated functions return `Ok(2)` and `Err("error")` |

## Left out

- Hashing (`__hash__` of base.py and success.py) is not modelled. Dafny values have no hash.
- Python's `str`, `repr`, `==` and `isinstance(x, Exception)` on payloads are parameters. The library never computes them itself.
- Iterators are sequences. Generator laziness is not modelled.
- The decorator's mechanics are not modelled: `functools.wraps`, argument forwarding (`*args`, `**kwargs`) and `ParamSpec`. A decorated function takes one argument of any type `A`.
- The Result carried by an `UnwrapError` has the type of the Result the enclosing decorated function returns. Python does not check that type.
- Callables passed to the combinators are taken to return. Exceptions they raise pass through unchanged in Python, and the model has no case for them.
- The `from BaseException` exception chaining in `unwrap` and `unwrap_err` is not modelled. It changes only the traceback.
- Mixing Results of result.py with Results of the main modules in one expression is not modelled. They are separate classes in Python too.
- Base.DataclassEq: the identity shortcut of the generated `__eq__` is not modelled. It compares the payloads as one-element tuples, and tuple comparison takes identical elements as equal. So for `x = Ok(float("nan"))`, Python's `x == x` is `True`, while `Result.__eq__(x, x)` compares `nan == nan`, which is `False`. The model gives `False`.
- Base.EqOperatorIsEq: holds in the model only. It inherits the gap above, so the operator `==` can differ from `Result.__eq__` for a payload that is not equal to itself, such as `nan`. A right operand that is not a Result is taken to keep `object.__eq__`, which answers `NotImplemented` about a Result.
- Base.NeAsWritten: models Python 3.9 to 3.13, where `not NotImplemented` is `False`. Python 3.14 raises `TypeError` there instead.
- Docstrings that contradict the code are not followed; the code is. failure.py's `is_err_and` docstring says "Always True" but the method returns the predicate's result. The example output in the `expect_err` and `question` docstrings also differs from what the code computes.
- The docstrings of the abstract `unwrap` and `unwrap_err` (base.py:131-132 and 161-162, result.py:49-50 and 71-72) say they raise `ValueError`. The code raises `UnwrapError`, a subclass of `Exception` and not of `ValueError`, and so does the model.
- The `Ok.or_else` docstring (success.py:266-267) shows `Err(2)` for `Ok(1).or_else(lambda x: Err(x + 1))`. The code returns `Ok(1)`, and so does the model.
- The `Err.and_then` docstring (failure.py:246-247) shows `Err(2)` for `Err(1).and_then(lambda x: Err(x + 1))`. The code returns `Err(1)`, and so does the model.
- The `Err.expect` docstring (failure.py:94) shows a `Called expect on an Err value:` prefix. The code raises with the message exactly as given, and so does the model.
- Success.UnwrapErr, Failure.Unwrap, Minimal.Result.Unwrap, Minimal.Result.UnwrapErr: the message is built with an f-string, which calls `format(x, "")`. The model uses `str(x)` (`Show.str`). The two agree unless a payload class overrides `__format__`.
- Scenarios.Divide: Python's `float` is read as `real`. The quotient is exact, so `value * b == a` holds in the model, while floating-point division rounds.

## Findings

| source | as written | input that shows it | evidently intended | confidence | as-written member | corrected member |
|---|---|---|---|---|---|---|
| src/pyresults/base.py:62-63 | the dataclass `__eq__` of `Ok` and `Err` shadows `Result.__eq__`, so `__ne__` negates `NotImplemented` | `Ok(1) != Err(1)` is `False`, while `Ok(1) == Err(1)` is `False` too | `!=` is the negation of `==` | not executed | Base.NeAsWrittenIsNotNegation | Base.Ne |
| src/pyresults/base.py:65-68 | the dataclass `__repr__` of `Ok` and `Err` shadows `Result.__repr__` | `repr(Ok(2))` is `Ok(value=2)` | `Ok(2)`, as the docstrings show | not executed | Base.DataclassReprIsNeverRepr | Base.Repr |
| src/pyresults/failure.py:292-310 | only `Err` defines `transpose` and `flatten` | `Ok(42).transpose()` and `Ok(Ok(42)).flatten()` raise `AttributeError` | `Ok(Some(v))` transposes to `Some(Ok(v))`, `Ok(None)` to `None`, and `Ok(r)` flattens to `r` | not executed | Results.TransposeAndFlattenFailOnOk | Results.TransposeIntended |
