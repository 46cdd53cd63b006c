/** Optional values and success/failure results, used for the optional
    fields of the entity model (`field?: T`) and for the error paths
    (`throw new Error(...)`) of the ledger and the batches hook. */
module Wrappers {

  /** A value that may be absent (`undefined` in the modelled program). */
  datatype Option<+T> = None | Some(value: T) {

    /** The value when present, otherwise `default`. */
    function GetOr(default: T): T {
      match this
      case Some(v) => v
      case None => default
    }
  }

  /** The outcome of an operation that either returns a value or throws. */
  datatype Result<+R, +E> = Success(value: R) | Failure(error: E)
}
