/**
 * The shapes the HTTP client exchanges with the feature code: the request it
 * sends and the error a failed call rejects with.
 */
module Http {
  import opened Wrappers

  /** The part of an error response the client reads: `status` and `data`. */
  datatype ErrorResponse = ErrorResponse(status: int, message: Option<string>, error: Option<string>)

  /**
   * A rejection. `isAxios` tells an HTTP error from any other thrown error;
   * `response` is absent when no response arrived (or for a plain `Error`).
   */
  datatype RequestError = RequestError(isAxios: bool, response: Option<ErrorResponse>)

  /** What `throw new Error(...)` in the service layer looks like to a catch. */
  const PlainError := RequestError(false, None)

  /** `err.response?.status === code`. */
  predicate HasStatus(e: RequestError, code: int) {
    e.response.Some? && e.response.value.status == code
  }

  /** `err.response?.data?.message` is truthy. */
  predicate HasMessage(e: RequestError) {
    e.response.Some? && e.response.value.message.Some? && e.response.value.message.value != ""
  }

  function Message(e: RequestError): string
    requires HasMessage(e)
  {
    e.response.value.message.value
  }

  /** `axios.isAxiosError(err) && err.response?.data?.error` is truthy. */
  predicate HasErrorField(e: RequestError) {
    e.isAxios && e.response.Some? && e.response.value.error.Some? && e.response.value.error.value != ""
  }

  /** An outgoing request: its path, its headers and the one-shot `_retry` mark. */
  datatype Request = Request(path: string, headers: map<string, string>, retry: bool)
}
