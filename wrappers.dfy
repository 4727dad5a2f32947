/**
 * Shared result types. A Python exception raised by the modelled code becomes
 * an `Err` carrying the exception class (and, for the framework's own
 * MisconfigurationException, the condition that triggered it).
 */
module Wrappers {

  datatype Option<T> = None | Some(value: T)

  /** The exception classes the modelled code raises. */
  datatype Error =
    | Misconfiguration(reason: string)
    | ValueError
    | TypeError
    | IndexError
    | KeyError
    | RuntimeError
    | AssertionError
    | ZeroDivisionError
    | StopIteration
    | NotImplementedError

  datatype Result<T> = Ok(value: T) | Err(error: Error)
  {
    predicate IsFailure() { Err? }

    function PropagateFailure<U>(): Result<U>
      requires Err?
    {
      Err(error)
    }

    function Extract(): T
      requires Ok?
    {
      value
    }
  }

  /**
   * A Python object the modelled code only stores, compares by identity or
   * passes on (a tensor, an optimizer, a batch, a dataloader, a logger).
   */
  datatype Obj = Obj(id: int)

  /**
   * A Python number as the configuration code sees it: an `int`, a finite
   * `float` (held exactly as a real; rounding is not modelled), or the float
   * infinity and NaN values.
   */
  datatype Num = Int(i: int) | Float(r: real) | Inf | NaN
  {
    /** Python `x == 0`: true for `0` and `0.0`. */
    predicate IsZero()
    {
      (Int? && i == 0) || (Float? && r == 0.0)
    }
  }

  /** A `None`-or-value that a caller supplied, e.g. `max_epochs: Optional[int]`. */
  function OrElse<T>(o: Option<T>, default: T): T
  {
    if o.Some? then o.value else default
  }
}
