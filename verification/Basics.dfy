/** Result types shared by every module. */
module Basics {

  /** A Go value that may be nil. */
  datatype Option<+T> = None | Some(value: T)

  /** A Go `(value, error)` pair: exactly one half is meaningful. */
  datatype Result<+T, +E> = Ok(value: T) | Err(error: E)

  /** The non-nil entries of a slice, in order. */
  function Present<T(!new)>(s: seq<Option<T>>): (r: seq<T>)
    ensures forall x :: x in r <==> Some(x) in s
  {
    if s == [] then
      []
    else
      var front := Present(s[..|s| - 1]);
      assert s == s[..|s| - 1] + [s[|s| - 1]];
      match s[|s| - 1]
      case None => front
      case Some(x) => front + [x]
  }
}
