/** The one failure-compatible type the model needs: a value that may be absent
    (a NULL column, a missing key, a parse that fails). */
module Wrappers {

  datatype Option<+T> = None | Some(value: T) {

    predicate IsFailure() { None? }

    function PropagateFailure<U>(): Option<U>
      requires None?
    {
      None
    }

    function Extract(): T
      requires Some?
    {
      value
    }

    function GetOr(default: T): T {
      match this
      case Some(v) => v
      case None => default
    }
  }
}
