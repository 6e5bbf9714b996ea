/** Result types shared by the other modules. */
module Wrappers {

  /** The conventional Some/None datatype, used in place of a nil pointer or a missing map entry. */
  datatype Option<+T> = None | Some(value: T) {

    predicate IsFailure() {
      None?
    }

    function PropagateFailure<U>(): Option<U>
      requires None?
    {
      None
    }

    function Extract(): T
      requires Some?
    {
      value
    }
  }
}
