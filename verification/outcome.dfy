/** Result types shared by every service model: a value, or an HTTP-style
    failure carrying the status code and the detail text the handler sends. */
module Outcome {

  datatype Option<+T> = None | Some(value: T) {
    /** The value, or `default` when absent (Python's `d.get(k, default)`). */
    function GetOr(default: T): T {
      match this
      case Some(v) => v
      case None => default
    }
  }

  datatype Outcome<+T> = Ok(value: T) | Fail(code: int, detail: string) {
    predicate IsFailure() { Fail? }
  }

  /** A string-valued field treated the way JavaScript's and Python's truthiness
      treats it: absent and empty are both "falsy". */
  predicate Truthy(s: Option<string>) {
    s.Some? && |s.value| > 0
  }
}
