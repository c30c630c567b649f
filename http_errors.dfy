/** The `HTTPException` values the core raises, as plain data. */
module HttpErrors {

  /** An HTTP error: status code, detail message and response headers. */
  datatype HttpError = HttpError(status: int, detail: string, headers: map<string, string>)
}
