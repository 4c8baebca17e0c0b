/** The optional-value datatype shared by the other modules. */
module Wrappers {

  datatype Option<+T> = None | Some(value: T) {

    predicate IsFailure() { None? }

    function PropagateFailure<U>(): Option<U>
      requires None?
    {
      None
    }

    function Extract(): T
      requires Some?
    {
      value
    }
  }
}
