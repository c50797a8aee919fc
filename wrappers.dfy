/** Option and Result, and the HTTP error a route answers with. */
module Wrappers {

  datatype Option<+T> = None | Some(value: T)

  /** An HTTP error response: status code and the `message` field of its JSON body. */
  datatype HttpError = HttpError(status: int, message: string)

  datatype Result<+T> = Ok(value: T) | Err(error: HttpError)

  /** True when `o` holds a value that JavaScript treats as truthy (a non-empty string). */
  predicate Present(o: Option<string>) {
    o.Some? && o.value != ""
  }
}
