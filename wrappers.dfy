/** Option and the outcome of a backend call. */
module Wrappers {

  datatype Option<+T> = None | Some(value: T)

  /** The settled outcome of one HTTP call: the response body on success,
      or a failure that may carry the server's `message` field. */
  datatype Response<+T> = Ok(data: T) | Failed(message: Option<string>)

  /** JavaScript truthiness of an optional string (`undefined`, `null` and `""` are falsy). */
  predicate Truthy(s: Option<string>)
  {
    s.Some? && s.value != ""
  }
}
