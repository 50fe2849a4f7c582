/** Failure-carrying datatypes shared by the model, and the Python lookup
    exceptions that the quiz pipeline can raise. */
module Wrappers {

  datatype Option<+T> = None | Some(value: T)

  /** The two exceptions that a subscript lookup raises in the pipeline:
      a missing dictionary key, or `[0]` on an empty list. */
  datatype PyError = KeyError(key: string) | IndexError

  /** A value, or the exception raised while computing it. Usable with `:-`. */
  datatype Result<+T, +E> = Success(value: T) | Failure(error: E) {

    predicate IsFailure() {
      Failure?
    }

    function PropagateFailure<U>(): Result<U, E>
      requires Failure?
    {
      Failure(error)
    }

    function Extract(): T
      requires Success?
    {
      value
    }

    /** The raised error, if any. */
    function ErrorOption(): (o: Option<E>)
      ensures o.Some? <==> Failure?
    {
      match this
      case Success(_) => None
      case Failure(e) => Some(e)
    }
  }
}
