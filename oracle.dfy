/**
 * How the router sees the services it calls.
 *
 * Every language-model reply, retrieval, group chat and database query is a call
 * into code this model cannot see. Each such call becomes a parameter: what the
 * call returned, or the message of the exception it raised.
 */
module Oracle {

  datatype Option<+T> = None | Some(value: T) {
    function GetOr(default: T): T {
      match this
      case Some(v) => v
      case None => default
    }
  }

  /** A Python call that either returns `value` or raises an exception whose `str()` is `message`. */
  datatype Fallible<+T> = Ok(value: T) | Raised(message: string)
}
