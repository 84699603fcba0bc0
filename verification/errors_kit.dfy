/** The SDK's error classes (audiokit/errors.py): a message, an optional
    code and a details dictionary, in a small class hierarchy. */
module KitErrors {
  import opened Wrappers
  import opened Json

  datatype ErrorClass = AudioKitError | APIError | AuthenticationError | RateLimitError
                      | ValidationError | ProcessingError

  /** The direct base class of each class. */
  function Parent(c: ErrorClass): Option<ErrorClass> {
    match c
    case AudioKitError => None
    case APIError => Some(AudioKitError)
    case AuthenticationError => Some(APIError)
    case RateLimitError => Some(APIError)
    case ValidationError => Some(AudioKitError)
    case ProcessingError => Some(AudioKitError)
  }

  /** The length of the base-class chain, used to bound `IsA`. */
  function Depth(c: ErrorClass): nat {
    match c
    case AudioKitError => 0
    case APIError => 1
    case AuthenticationError => 2
    case RateLimitError => 2
    case ValidationError => 1
    case ProcessingError => 1
  }

  /** `issubclass(c, d)`: `d` is `c` or one of its ancestors. */
  predicate IsA(c: ErrorClass, d: ErrorClass)
    decreases Depth(c)
  {
    c == d || (Parent(c).Some? && Depth(Parent(c).value) < Depth(c) && IsA(Parent(c).value, d))
  }

  /** Every class is an `AudioKitError`; exactly the authentication and
      rate-limit errors are (proper) `APIError`s. */
  lemma Hierarchy(c: ErrorClass)
    ensures IsA(c, AudioKitError)
    ensures IsA(c, APIError) <==> c in {APIError, AuthenticationError, RateLimitError}
    ensures IsA(c, ValidationError) <==> c == ValidationError
    ensures IsA(c, ProcessingError) <==> c == ProcessingError
  {
  }

  datatype Error = Error(cls: ErrorClass, message: string, code: Option<string>, details: map<string, Json>)

  /** The inherited constructor: `details or {}`, so a missing or empty
      dictionary becomes an empty one. */
  function Make(cls: ErrorClass, message: string, code: Option<string>, details: Option<map<string, Json>>)
    : (e: Error)
    requires cls != RateLimitError
    ensures e.cls == cls && e.message == message && e.code == code
    ensures details.None? ==> e.details == map[]
    ensures details.Some? ==> e.details == details.value
  {
    Error(cls, message, code, if details.Some? && |details.value| > 0 then details.value else map[])
  }

  /** `RateLimitError(retry_after)`. */
  function RateLimit(retryAfter: int): (e: Error)
    ensures e.cls == RateLimitError && e.message == "Rate limit exceeded" && e.code == Some("RATE_LIMIT")
    ensures e.details.Keys == {"retry_after"} && e.details["retry_after"] == JInt(retryAfter)
  {
    Error(RateLimitError, "Rate limit exceeded", Some("RATE_LIMIT"), map["retry_after" := JInt(retryAfter)])
  }

  /** The retry delay can be read back from the details. */
  lemma RateLimitRoundTrip(n: int, m: int)
    ensures RateLimit(n).details["retry_after"].i == n
    ensures RateLimit(n) == RateLimit(m) <==> n == m
  {
    if RateLimit(n) == RateLimit(m) {
      assert RateLimit(n).details["retry_after"] == RateLimit(m).details["retry_after"];
    }
  }
}
