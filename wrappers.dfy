/** Option and the outcome of one HTTP request, shared by every plugin model. */
module Wrappers {

  /** A value that may be missing: an absent attribute, setting or key is None. */
  datatype Option<+T> = None | Some(value: T) {

    /** The value, or the given default when None (Python's dict.get(k, default)). */
    function GetOr(default: T): T {
      match this
      case Some(v) => v
      case None => default
    }
  }

  /**
   * What the code sees of one HTTP request.
   * Ok: the server answered 200 and the body decoded to a record holding every key the
   * code reads with `[...]`.
   * NotOk: the server answered with another status.
   * Fail: the request raised (timeout, connection error, undecodable or malformed body).
   * An endpoint guarded by raise_for_status treats NotOk like Fail.
   */
  datatype Response<+T> = Ok(body: T) | NotOk | Fail
}
