/**
 * Option: the model's stand-in for Python's `None` in a slot that may be
 * empty, and for a computation that raises.  It is failure-compatible, so
 * `:-` propagates a None.
 */
module Wrappers {

  datatype Option<+T> = None | Some(value: T) {
    predicate IsFailure() {
      None?
    }

    function PropagateFailure<U>(): Option<U>
      requires None?
    {
      None
    }

    function Extract(): T
      requires Some?
    {
      value
    }
  }
}
