/** Results, options and outcomes shared by every component. */
module Wrappers {

  datatype Option<+T> = None | Some(value: T) {
    function GetOr(other: T): T { if Some? then value else other }
  }

  /** A returned value, or the error an exception would have carried. */
  datatype Result<+T, +E> = Success(value: T) | Failure(error: E) {
    predicate IsFailure() { Failure? }

    function PropagateFailure<U>(): Result<U, E>
      requires Failure?
    {
      Failure(error)
    }

    function Extract(): T
      requires Success?
    {
      value
    }
  }

  /** The digest of a document.  A free constructor, so two digests are equal
      exactly when the documents are. */
  datatype Sha<+T> = Sha(of: T)
}
