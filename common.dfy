/** Values shared by the API routes: optional JSON fields, route results
    carrying an HTTP error, and JavaScript truthiness of an optional string. */
module Common {

  datatype Option<+T> = None | Some(value: T)

  /** An error answered by a route: the HTTP status and the `error` message. */
  datatype HttpError = HttpError(status: nat, message: string)

  /** A route either answers 200 with a body or answers with an error. */
  datatype Result<+T> = Ok(value: T) | Err(error: HttpError)

  /** `!x` is false for a JSON field that is present and a non-empty string;
      a missing field (undefined) and "" are both falsy. */
  predicate Truthy(x: Option<string>): (r: bool)
    ensures r <==> x != None && x != Some("")
  {
    x.Some? && x.value != ""
  }
}
