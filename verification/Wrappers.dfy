/** Values that may be absent, and operations that may fail. */
module Wrappers {
  datatype Option<+T> = None | Some(value: T)

  /** The outcome of an operation that may raise JournalUnavailable. */
  datatype Io<+T> = Done(value: T) | Unavailable {
    predicate IsFailure() {
      Unavailable?
    }

    function PropagateFailure<U>(): Io<U>
      requires Unavailable?
    {
      Unavailable
    }

    function Extract(): T
      requires Done?
    {
      value
    }
  }
}
