/** Failure-carrying datatypes shared by the evaluator model, and the Python
    exceptions the evaluator can raise, as values. */
module Wrappers {

  datatype Option<+T> = None | Some(value: T) {

    /** The value, or the given default when absent. */
    function GetOr(default: T): T {
      match this
      case Some(v) => v
      case None => default
    }
  }

  /** The exceptions the modelled code raises. Collaborator failures
      (database, compute runtime) are not modelled. */
  datatype Error =
    | KeyError(key: string)
    | IndexError
    | TypeError(message: string)
    | AssertionError
    | AttributeError(name: string)
    | ZeroDivisionError

  datatype Result<+R> = Ok(value: R) | Err(error: Error)

  /** A `defaultdict(list)` entry read through `d[key]`: an absent key reads as
      the empty list. */
  function Pending<X>(entry: Option<seq<X>>): (xs: seq<X>)
    ensures entry.None? ==> xs == []
    ensures entry.Some? ==> xs == entry.value
  {
    entry.GetOr([])
  }
}
