/** Small value wrappers shared by every module of the model. */
module Base {

  /** A JavaScript value that may be `undefined`/`null` (None) or present (Some). */
  datatype Option<+T> = None | Some(value: T) {
    /** The `x || fallback` idiom of the client, for values that are truthy whenever present. */
    function GetOr(fallback: T): T {
      match this
      case Some(v) => v
      case None => fallback
    }
  }

  /** How an awaited request completes: with the response body, or by throwing. */
  datatype Outcome<+T> = Ok(body: T) | Failed
}
