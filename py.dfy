/** The parts of Python's runtime behaviour that the modelled code depends on:
    `None`, exceptions as values, and subscripting a list. */
module Py {

  /** A value that may be Python's `None`. */
  datatype Option<+T> = None | Some(value: T)

  /** The exceptions the modelled code can raise. */
  datatype Exception =
    | KeyError(key: string)   // `d[key]` on a dict without `key`
    | TypeError               // subscripting or iterating a value of the wrong type
    | IndexError              // `xs[i]` outside the list

  /** Either the value a Python expression evaluates to, or the exception it raises.
      Usable with `:-`, which propagates the exception as Python does. */
  datatype Result<+T> = Success(value: T) | Failure(error: Exception) {
    predicate IsFailure() {
      Failure?
    }

    function PropagateFailure<U>(): Result<U>
      requires Failure?
    {
      Failure(error)
    }

    function Extract(): T
      requires Success?
    {
      value
    }
  }

  /** A value that may be `None`, or the exception raised while computing it:
      the shape of every fetch method's outcome. */
  function Optionally<T>(r: Result<T>): Result<Option<T>>
  {
    match r
    case Success(v) => Success(Some(v))
    case Failure(e) => Failure(e)
  }

  /** `xs[i]` on a Python list: a negative index counts from the end. */
  function Subscript<T>(xs: seq<T>, i: int): Result<T>
  {
    if 0 <= i < |xs| then Success(xs[i])
    else if -|xs| <= i < 0 then Success(xs[|xs| + i])
    else Failure(IndexError)
  }
}
