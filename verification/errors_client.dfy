/** The client's error classes (audiokit_cli/errors.py): each carries a
    message, which is also its string form, and an optional HTTP status. */
module ClientErrors {
  import opened Wrappers
  import Text

  datatype ErrorClass = AudioKitError | APIError | AuthError | ValidationError | RateLimitError
                      | ProcessingError | ServerError

  datatype Error = Error(cls: ErrorClass, message: string, status: Option<int>)

  const ApiPrefix := "API error: "
  const ValidationPrefix := "Validation error: "
  const DefaultAuthMessage := "Authentication failed"

  /** `str(e)`. */
  function Str(e: Error): string {
    e.message
  }

  /** The base constructor, also used unchanged by `ProcessingError`. */
  function Base(cls: ErrorClass, message: string, status: Option<int>): (e: Error)
    requires cls == AudioKitError || cls == ProcessingError
    ensures e.cls == cls && Str(e) == message && e.status == status
  {
    Error(cls, message, status)
  }

  /** `APIError(message, status_code)`: prefixed message; a missing or zero
      status becomes 500. */
  function Api(message: string, status: Option<int>): (e: Error)
    ensures e.cls == APIError
    ensures e.status == Some(if status.None? || status.value == 0 then 500 else status.value)
  {
    Error(APIError, ApiPrefix + message, Some(if status.None? || status.value == 0 then 500 else status.value))
  }

  /** `AuthError(message="Authentication failed")`, status 401. */
  function Auth(message: Option<string>): (e: Error)
    ensures e.cls == AuthError && e.status == Some(401)
    ensures Str(e) == (if message.Some? then message.value else DefaultAuthMessage)
  {
    Error(AuthError, if message.Some? then message.value else DefaultAuthMessage, Some(401))
  }

  /** `ValidationError(message)`: prefixed message, status 400. */
  function Validation(message: string): (e: Error)
    ensures e.cls == ValidationError && e.status == Some(400)
  {
    Error(ValidationError, ValidationPrefix + message, Some(400))
  }

  function RateLimit(message: string): (e: Error)
    ensures e.cls == RateLimitError && Str(e) == message && e.status == Some(429)
  {
    Error(RateLimitError, message, Some(429))
  }

  function Server(message: string): (e: Error)
    ensures e.cls == ServerError && Str(e) == message && e.status == Some(500)
  {
    Error(ServerError, message, Some(500))
  }

  /** The prefixes can be taken off again: the original message is the
      rest of the string. */
  lemma PrefixesRoundTrip(message: string, status: Option<int>)
    ensures Text.StartsWith(Str(Api(message, status)), ApiPrefix)
    ensures Str(Api(message, status))[|ApiPrefix|..] == message
    ensures Text.StartsWith(Str(Validation(message)), ValidationPrefix)
    ensures Str(Validation(message))[|ValidationPrefix|..] == message
  {
    assert (ApiPrefix + message)[..|ApiPrefix|] == ApiPrefix;
    assert (ValidationPrefix + message)[..|ValidationPrefix|] == ValidationPrefix;
  }

  /** An `APIError` always has a non-zero status, and a non-zero status is
      kept as given. */
  lemma ApiStatus(message: string, status: Option<int>)
    ensures Api(message, status).status.Some? && Api(message, status).status.value != 0
    ensures status.Some? && status.value != 0 ==> Api(message, status).status == status
  {
  }

  /** Every class with a fixed status has a different one, so the status
      tells those classes apart. */
  lemma FixedStatusesDistinct(m: Option<string>, a: string, b: string, c: string)
    ensures Auth(m).status != Validation(a).status
    ensures Auth(m).status != RateLimit(b).status && Validation(a).status != RateLimit(b).status
    ensures Server(c).status !in {Auth(m).status, Validation(a).status, RateLimit(b).status}
  {
  }
}
