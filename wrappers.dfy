/** Option and Result datatypes used for the Python code's `None` values and raised exceptions. */
module Wrappers {

  datatype Option<+T> = None | Some(value: T) {
    function GetOr(default: T): T {
      match this
      case Some(v) => v
      case None => default
    }
  }

  /** The Python exceptions the modelled code can raise. */
  datatype Error =
    | IndexError      // a list index out of range, e.g. `parts[1]` on a one-element list
    | ValueError      // `float(...)` of text that is not a number
    | KeyError        // a dictionary lookup of a missing key
    | AttributeError  // a call to a method the class does not define
    | ZeroDivisionError  // a division by the length of an empty list
    | FetchError(reason: string)  // a fetcher (scraper, search) that raised

  datatype Result<+T> = Ok(value: T) | Err(error: Error) {
    predicate IsFailure() {
      Err?
    }

    function PropagateFailure<U>(): Result<U>
      requires Err?
    {
      Err(error)
    }

    function Extract(): T
      requires Ok?
    {
      value
    }
  }
}
