/** The two failure-compatible results the model uses. */
module Wrappers {

  /** A value, or its absence: an error return, or a row that is not there. */
  datatype Option<+T> = None | Some(value: T) {
    predicate IsFailure() {
      None?
    }

    function PropagateFailure<U>(): Option<U>
      requires None?
    {
      None
    }

    function Extract(): T
      requires Some?
    {
      value
    }
  }
}
