/** Optional values and handler outcomes shared by the rest of the model. */
module Results {

  /** A value that JavaScript may leave `undefined`: a field missing from a
      parsed request body, or an attribute that was created from one. */
  datatype Option<+T> = None | Some(value: T) {

    /** The carried value, or `default` when there is none. */
    function GetOr(default: T): T
    {
      match this
      case Some(v) => v
      case None => default
    }
  }

  /** What a route handler answers: its payload, or the error response that
      the server's `handleErrors` builds from a human-readable message. */
  datatype Result<+T> = Ok(value: T) | Error(message: string)
}
