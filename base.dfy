/** The abstract `Result` of src/pyresults/base.py: the closed two-variant
    value, its equality and its rendering. The variants' other methods are in
    modules Success and Failure; module Results dispatches to them. */
module Base {
  import opened Python

  /** `Result[T, E]`: either `Ok(value)` (success.py) or `Err(error)`
      (failure.py). The abstract class itself cannot be instantiated, and no
      method ever reassigns the payload. */
  datatype Result<+T, +E> = Ok(value: T) | Err(error: E)

  /** The right operand of `==` and `!=`: a Result, or an object of some other
      class. Such an object is taken to keep `object.__eq__`, which answers
      `NotImplemented` when asked about a Result. */
  datatype Object<T, E> = ResultObject(result: Result<T, E>) | OtherObject(kind: string)

  ghost predicate Reflexive<X(!new)>(eq: (X, X) -> bool) {
    forall x :: eq(x, x)
  }

  ghost predicate Symmetric<X(!new)>(eq: (X, X) -> bool) {
    forall x, y :: eq(x, y) ==> eq(y, x)
  }

  ghost predicate Transitive<X(!new)>(eq: (X, X) -> bool) {
    forall x, y, z :: eq(x, y) && eq(y, z) ==> eq(x, z)
  }

  ghost predicate Injective<X(!new)>(f: X -> string) {
    forall x, y :: f(x) == f(y) ==> x == y
  }

  /** `Result.__eq__`: false for anything that is not a Result; otherwise the
      payloads' own `==` (`eqT`, `eqE`) when both sides are the same variant,
      and false when they are not. */
  function Eq<T, E>(self: Result<T, E>, other: Object<T, E>, eqT: (T, T) -> bool, eqE: (E, E) -> bool): (b: bool)
    ensures b ==> other.ResultObject? && (self.Ok? <==> other.result.Ok?)
    ensures other.ResultObject? && self.Ok? && other.result.Ok? ==> (b <==> eqT(self.value, other.result.value))
    ensures other.ResultObject? && self.Err? && other.result.Err? ==> (b <==> eqE(self.error, other.result.error))
  {
    if !other.ResultObject? then false
    else if self.Ok? && other.result.Ok? then eqT(self.value, other.result.value)
    else if self.Err? && other.result.Err? then eqE(self.error, other.result.error)
    else false
  }

  /** With payload equality taken to be identity of values, `Eq` is exactly
      equality of Results. */
  lemma EqIsStructural<T, E>(a: Result<T, E>, b: Result<T, E>)
    ensures Eq(a, ResultObject(b), (x: T, y: T) => x == y, (x: E, y: E) => x == y) <==> a == b
  {
  }

  /** `Eq` inherits reflexivity, symmetry and transitivity from the payloads'
      equalities. */
  lemma EqIsEquivalence<T(!new), E(!new)>(eqT: (T, T) -> bool, eqE: (E, E) -> bool)
    ensures Reflexive(eqT) && Reflexive(eqE) ==> forall a: Result<T, E> :: Eq(a, ResultObject(a), eqT, eqE)
    ensures Symmetric(eqT) && Symmetric(eqE) ==>
      forall a: Result<T, E>, b: Result<T, E> :: Eq(a, ResultObject(b), eqT, eqE) ==> Eq(b, ResultObject(a), eqT, eqE)
    ensures Transitive(eqT) && Transitive(eqE) ==>
      forall a: Result<T, E>, b: Result<T, E>, c: Result<T, E> ::
        Eq(a, ResultObject(b), eqT, eqE) && Eq(b, ResultObject(c), eqT, eqE) ==> Eq(a, ResultObject(c), eqT, eqE)
  {
  }

  /** What a rich comparison method returns: a truth value or `NotImplemented`. */
  datatype Comparison = NotImplemented | Answer(truth: bool)

  /** The `__eq__` that `@dataclasses.dataclass` writes into `Ok` and `Err`.
      It shadows `Result.__eq__`: it compares the payloads only when `other`
      is of the very same class, and otherwise answers `NotImplemented`. */
  function DataclassEq<T, E>(self: Result<T, E>, other: Object<T, E>, eqT: (T, T) -> bool, eqE: (E, E) -> bool): (c: Comparison)
    ensures c.NotImplemented? <==> !(other.ResultObject? && (self.Ok? <==> other.result.Ok?))
    ensures other.ResultObject? && (self.Ok? <==> other.result.Ok?) ==> c == Answer(Eq(self, other, eqT, eqE))
  {
    match other
    case ResultObject(r) =>
      if self.Ok? && r.Ok? then Answer(eqT(self.value, r.value))
      else if self.Err? && r.Err? then Answer(eqE(self.error, r.error))
      else NotImplemented
    case OtherObject(_) => NotImplemented
  }

  /** Python's operator `self == other` on a Result: `self.__eq__(other)`;
      if that is `NotImplemented`, the reflected `other.__eq__(self)`; if that
      is `NotImplemented` too, identity, which fails between objects of
      different classes. */
  function EqOperator<T, E>(self: Result<T, E>, other: Object<T, E>, eqT: (T, T) -> bool, eqE: (E, E) -> bool): (b: bool)
    ensures b ==> other.ResultObject? && (self.Ok? <==> other.result.Ok?)
    ensures other.ResultObject? && self.Ok? && other.result.Ok? ==> (b <==> eqT(self.value, other.result.value))
    ensures other.ResultObject? && self.Err? && other.result.Err? ==> (b <==> eqE(self.error, other.result.error))
  {
    match DataclassEq(self, other, eqT, eqE)
    case Answer(b) => b
    case NotImplemented =>
      var reflected :=
        if other.ResultObject? then DataclassEq(other.result, ResultObject(self), eqT, eqE) else NotImplemented;
      match reflected
      case Answer(t) => t
      case NotImplemented => false
  }

  /** Although `Result.__eq__` is shadowed, the operator `==` still gives
      what it specifies. */
  lemma EqOperatorIsEq<T, E>(self: Result<T, E>, other: Object<T, E>, eqT: (T, T) -> bool, eqE: (E, E) -> bool)
    ensures EqOperator(self, other, eqT, eqE) == Eq(self, other, eqT, eqE)
  {
    if other.ResultObject? && (self.Ok? != other.result.Ok?) {
      assert DataclassEq(other.result, ResultObject(self), eqT, eqE).NotImplemented?;
    }
  }

  /** `Result.__ne__` as written: `not self.__eq__(other)`, where
      `self.__eq__` is the dataclass one. `NotImplemented` is truthy, so its
      negation is `False`. */
  function NeAsWritten<T, E>(self: Result<T, E>, other: Object<T, E>, eqT: (T, T) -> bool, eqE: (E, E) -> bool): (b: bool)
    ensures !(other.ResultObject? && (self.Ok? <==> other.result.Ok?)) ==> !b
    ensures other.ResultObject? && (self.Ok? <==> other.result.Ok?) ==> b == !Eq(self, other, eqT, eqE)
  {
    var c := DataclassEq(self, other, eqT, eqE);
    !(c.NotImplemented? || c.truth)
  }

  /** As written, `!=` is not the negation of `==`: an `Ok` and an `Err`
      (for instance `Ok(1)` and `Err(1)`) are neither equal nor unequal. */
  lemma NeAsWrittenIsNotNegation<T, E>(self: Result<T, E>, other: Result<T, E>, eqT: (T, T) -> bool, eqE: (E, E) -> bool)
    requires self.Ok? != other.Ok?
    ensures !EqOperator(self, ResultObject(other), eqT, eqE)
    ensures !NeAsWritten(self, ResultObject(other), eqT, eqE)
  {
    EqOperatorIsEq(self, ResultObject(other), eqT, eqE);
  }

  /** `Result.__ne__` as intended: the negation of `Result.__eq__`, so an `Ok`
      and an `Err`, or a Result and a non-Result, are always unequal. */
  function Ne<T, E>(self: Result<T, E>, other: Object<T, E>, eqT: (T, T) -> bool, eqE: (E, E) -> bool): (b: bool)
    ensures other.OtherObject? ==> b
    ensures other.ResultObject? && (self.Ok? != other.result.Ok?) ==> b
  {
    !Eq(self, other, eqT, eqE)
  }

  /** The intended `!=` is exactly the negation of the operator `==`. */
  lemma NeNegatesEqOperator<T, E>(self: Result<T, E>, other: Object<T, E>, eqT: (T, T) -> bool, eqE: (E, E) -> bool)
    ensures Ne(self, other, eqT, eqE) == !EqOperator(self, other, eqT, eqE)
  {
    EqOperatorIsEq(self, other, eqT, eqE);
  }

  /** The variant's name, then the payload rendered by `showT` or `showE`,
      in parentheses. The payload's rendering can be read back from between
      the parentheses. */
  function Render<T, E>(self: Result<T, E>, showT: T -> string, showE: E -> string): (s: string)
    ensures |s| >= 4 && s[|s| - 1] == ')'
    ensures self.Ok? ==> |s| >= 4 && s[..3] == "Ok(" && s[3..|s| - 1] == showT(self.value)
    ensures self.Err? ==> |s| >= 5 && s[..4] == "Err(" && s[4..|s| - 1] == showE(self.error)
  {
    if self.Ok? then "Ok(" + showT(self.value) + ")" else "Err(" + showE(self.error) + ")"
  }

  /** Two Results that render alike are the same variant, and when the payload
      renderings are injective, they are the same Result. */
  lemma RenderInjective<T(!new), E(!new)>(a: Result<T, E>, b: Result<T, E>, showT: T -> string, showE: E -> string)
    requires Render(a, showT, showE) == Render(b, showT, showE)
    ensures a.Ok? == b.Ok?
    ensures Injective(showT) && Injective(showE) ==> a == b
  {
    var s := Render(a, showT, showE);
    assert s[0] == (if a.Ok? then 'O' else 'E') by { assert s[0] == (if a.Ok? then s[..3] else s[..4])[0]; }
    assert s[0] == (if b.Ok? then 'O' else 'E') by { assert s[0] == (if b.Ok? then s[..3] else s[..4])[0]; }
  }

  /** `Result.__repr__` as intended: `Ok(<repr of value>)` or
      `Err(<repr of error>)`. */
  function Repr<T, E>(self: Result<T, E>, showT: Show<T>, showE: Show<E>): (s: string)
    ensures self.Ok? ==> |s| >= 4 && s[..3] == "Ok(" && s[3..|s| - 1] == showT.repr(self.value) && s[|s| - 1] == ')'
    ensures self.Err? ==> |s| >= 5 && s[..4] == "Err(" && s[4..|s| - 1] == showE.repr(self.error) && s[|s| - 1] == ')'
  {
    Render(self, showT.repr, showE.repr)
  }

  /** `Result.__str__`: `Ok(<str of value>)` or `Err(<str of error>)`. The
      dataclass decorator leaves it in place, since it writes no `__str__`. */
  function Str<T, E>(self: Result<T, E>, showT: Show<T>, showE: Show<E>): (s: string)
    ensures self.Ok? ==> |s| >= 4 && s[..3] == "Ok(" && s[3..|s| - 1] == showT.str(self.value) && s[|s| - 1] == ')'
    ensures self.Err? ==> |s| >= 5 && s[..4] == "Err(" && s[4..|s| - 1] == showE.str(self.error) && s[|s| - 1] == ')'
  {
    Render(self, showT.str, showE.str)
  }

  /** The `__repr__` that `@dataclasses.dataclass` writes into `Ok` and `Err`,
      shadowing `Result.__repr__`: the field name comes before the payload. */
  function DataclassRepr<T, E>(self: Result<T, E>, showT: Show<T>, showE: Show<E>): (s: string)
    ensures self.Ok? ==> |s| >= 10 && s[..9] == "Ok(value=" && s[9..|s| - 1] == showT.repr(self.value) && s[|s| - 1] == ')'
    ensures self.Err? ==> |s| >= 11 && s[..10] == "Err(error=" && s[10..|s| - 1] == showE.repr(self.error) && s[|s| - 1] == ')'
  {
    if self.Ok? then "Ok(value=" + showT.repr(self.value) + ")"
    else "Err(error=" + showE.repr(self.error) + ")"
  }

  /** As written, `repr` of no Result is the intended one (for instance
      `repr(Ok(2))` is `Ok(value=2)`, not `Ok(2)`). */
  lemma DataclassReprIsNeverRepr<T, E>(self: Result<T, E>, showT: Show<T>, showE: Show<E>)
    ensures DataclassRepr(self, showT, showE) != Repr(self, showT, showE)
  {
    assert |DataclassRepr(self, showT, showE)| == |Repr(self, showT, showE)| + 6;
  }
}
