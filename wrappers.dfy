/** Optional values and the responses a route handler sends back. */
module Wrappers {

  /** A value that may be absent (`undefined` in the source). */
  datatype Option<+T> = None | Some(value: T)

  /** The outcome of one HTTP handler: a JSON payload with status 200/201, or one
      of the error statuses the handlers use. There is no 403 in the source: a
      wrong owner gets 401 (Unauthorized). */
  datatype Response<+T> =
    | Ok(value: T)
    | BadRequest      // 400
    | Unauthorized    // 401
    | NotFound        // 404
    | ServerError     // 500, an exception caught by the handler's catch block

  /** JavaScript truthiness of an optional string: both `undefined` and `""` are falsy. */
  predicate Truthy(s: Option<string>) {
    s.Some? && s.value != ""
  }
}
