/**
 * Small value types shared by every module: an optional value, and the
 * outcome of one network call as the portfolio code observes it.
 */
module Wrappers {

  datatype Option<+T> = None | Some(value: T) {
    function GetOr(default: T): T {
      match this
      case Some(v) => v
      case None => default
    }
  }

  /**
   * What one `fetch`/`axios` call (plus the `.json()` that reads its body)
   * amounts to for the caller: a success response with its decoded body,
   * a response whose status is not ok, or an exception (network failure,
   * a body that is not JSON, a missing property dereferenced).
   */
  datatype Fetched<+T> = Ok(body: T) | NotOk | Threw
}
