/** Failure-compatible wrappers shared by the whole model: `Option` stands for a
    JavaScript value that may be `null`/`undefined` (or a parse that may fail),
    `Result` for a promise that either resolves or rejects. */
module Wrappers {

  datatype Option<+T> = None | Some(value: T) {
    predicate IsFailure() {
      None?
    }

    function PropagateFailure<U>(): Option<U>
      requires None?
    {
      None
    }

    function Extract(): T
      requires Some?
    {
      value
    }
  }

  datatype Result<+R, +E> = Success(value: R) | Failure(error: E)
}
