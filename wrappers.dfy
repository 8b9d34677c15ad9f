/** Option and Result: the model's stand-ins for `undefined`/`null` and for thrown exceptions. */
module Wrappers {

  datatype Option<+T> = None | Some(value: T) {
    /** The value, or `default` when absent (a destructuring default `x = d`). */
    function GetOr(default: T): (r: T) {
      match this
      case Some(v) => v
      case None => default
    }
  }

  /** Success carries the returned value; Failure carries what the source throws. */
  datatype Result<+T, +E> = Success(value: T) | Failure(error: E)

  /** The name of a field that fails validation, as a one-element list when `failed`, else `[]`. */
  function FailIf<N(==)>(failed: bool, name: N): (r: seq<N>)
    ensures failed <==> name in r
    ensures |r| <= 1
  {
    if failed then [name] else []
  }
}
