/** Value wrappers shared by every page of the dashboard model. */
module Wrappers {

  /** A value that may be absent: JavaScript's `undefined`/`null`, or an optional property. */
  datatype Option<+T> = None | Some(value: T) {
    /** The value, or `default` when absent (the `x ?? default` idiom). */
    function GetOr(default: T): T {
      match this
      case Some(v) => v
      case None => default
    }
  }

  /** What an awaited backend request yields to the page: the reply body, or a rejected promise. */
  datatype Response<+T> = Ok(body: T) | Failed

  /** A request whose reply body the page ignores. */
  type Ack = Response<()>

  /** JavaScript truthiness of a `string | null | undefined`: present and non-empty. */
  predicate Truthy(s: Option<string>) {
    s.Some? && s.value != ""
  }

  /** `s || ""`: the string, or the empty string when absent. */
  function OrEmpty(s: Option<string>): string {
    s.GetOr("")
  }
}
