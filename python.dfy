/** What the model needs of the host language: an optional value, how a
    payload prints, and how a call ends (it returns, or it raises). */
module Python {

  /** Python's `X | None`. */
  datatype Option<+X> = None | Some(value: X)

  /** How a payload of type X prints, and whether it is an `Exception`
      instance: Python's `str(x)`, `repr(x)` and `isinstance(x, Exception)`.
      The library never looks inside a payload, so these stay parameters. */
  datatype Show<-X> = Show(str: X -> string, repr: X -> string, isException: X -> bool)

  /** The end of a Python call: it returned `value`, it raised the library's
      unwrap signal `signal`, or it raised an exception of some other class,
      named by `kind`. */
  datatype Outcome<+A, +S> = Returned(value: A) | Unwrapped(signal: S) | Raised(kind: string)

  /** The statement sequence `x = first; rest(x)`: `rest` runs on the value
      `first` returned, and anything `first` raised passes on untouched. */
  function Then<A, B, S>(first: Outcome<A, S>, rest: A -> Outcome<B, S>): Outcome<B, S>
  {
    match first
    case Returned(a) => rest(a)
    case Unwrapped(s) => Unwrapped(s)
    case Raised(k) => Raised(k)
  }
}
