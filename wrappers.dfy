/** Failure-compatible option and result types shared by every component model. */
module Wrappers {

  /** A value that may be absent: JavaScript's `null` / `undefined` for one field. */
  datatype Option<+T> = None | Some(value: T) {

    predicate IsFailure() {
      None?
    }

    function PropagateFailure<U>(): Option<U>
      requires None?
    {
      None
    }

    function Extract(): T
      requires Some?
    {
      value
    }

    /** `x || d` for an optional value whose present values are all truthy. */
    function GetOr(default: T): T {
      match this
      case Some(v) => v
      case None => default
    }
  }

  /** The outcome of a backend call: rows on success, or the error's message. */
  datatype Result<+T> = Ok(value: T) | Err(message: string)
}
