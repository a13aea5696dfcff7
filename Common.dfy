/** Small wrappers shared by every module of the model. */
module Common {

  /** A value that may be missing: JavaScript's null/undefined on one side, a value on the other. */
  datatype Option<T> = None | Some(value: T) {
    function GetOr(default: T): T {
      if Some? then value else default
    }
  }

  /** What an awaited API call produced: the value it resolved to, or the message of the error it threw. */
  datatype Outcome<T> = Success(value: T) | Failure(message: string)
}
