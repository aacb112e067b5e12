/** Option, the Dafny rendering of a TypeScript `T | null` / `T | undefined`. */
module Wrappers {

  datatype Option<+T> = None | Some(value: T) {

    /** The value, or `default` when absent: the `x ?? default` of the source. */
    function GetOr(default: T): T {
      match this
      case Some(v) => v
      case None => default
    }
  }

  /** How an awaited store action ends: the promise resolves with a value, or
      rejects with the error message `setStoredData` throws. */
  datatype Completion<+T> = Resolved(value: T) | Rejected(message: string)
}
