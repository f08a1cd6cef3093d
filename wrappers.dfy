/** Failure-carrying wrappers shared by the parsers and the annotators. */
module Wrappers {

  /** The conventional optional value. */
  datatype Option<+T> = None | Some(value: T) {
    predicate IsFailure() { None? }

    function PropagateFailure<U>(): Option<U>
      requires None?
    {
      None
    }

    function Extract(): T
      requires Some?
    {
      value
    }
  }
}
