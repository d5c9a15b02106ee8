/** Small failure-compatible datatypes shared by every module of the model. */
module Wrappers {

  /** A value that may be absent: `undefined`/`null` in the client, an empty `Optional` in the backend. */
  datatype Option<+T> = None | Some(value: T) {
    function GetOr(default: T): T {
      match this
      case Some(v) => v
      case None => default
    }
  }

  /** The outcome of one awaited network call: it resolved with a value, or it threw (rejected). */
  datatype Fetch<+T> = Got(value: T) | Threw
}
