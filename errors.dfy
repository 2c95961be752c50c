/** The error taxonomy of backend/utils/errors.py: one base class APIError with a message and
    an HTTP status, and three subclasses with fixed statuses. */
module Errors {
  import opened Wrappers

  /** Which class an error was raised as. */
  datatype ErrorKind =
    | Generic
    | OpenAIService
    | RateLimitExceeded(retryAfter: Option<int>)
    | EmailProcessing

  datatype ApiError = ApiError(kind: ErrorKind, message: string, statusCode: int) {
    /** `isinstance(e, OpenAIAPIError)`, what `except OpenAIAPIError` tests. */
    predicate IsOpenAIApiError()
    {
      kind.OpenAIService?
    }
  }

  /** The classes an `except` clause can name. */
  datatype ErrorClass = ExceptionClass | APIErrorClass | OpenAIAPIErrorClass
                      | RateLimitExceededErrorClass | EmailProcessingErrorClass

  /** `isinstance(e, cls)` for every error of this taxonomy. */
  predicate IsInstance(e: ApiError, cls: ErrorClass)
  {
    match cls
    case ExceptionClass => true
    case APIErrorClass => true
    case OpenAIAPIErrorClass => e.kind.OpenAIService?
    case RateLimitExceededErrorClass => e.kind.RateLimitExceeded?
    case EmailProcessingErrorClass => e.kind.EmailProcessing?
  }

  const DefaultStatus := 500
  const OpenAIStatus := 503
  const RateLimitStatus := 429
  const EmailProcessingStatus := 400

  const DefaultOpenAIMessage := "There was an issue with our AI service. Please try again later."
  const DefaultRateLimitMessage := "Rate limit exceeded. Please try again later."
  const DefaultEmailProcessingMessage := "Failed to process email. Please check the email format."

  /** `APIError(message, status_code=500)`. */
  function NewApiError(message: string, statusCode: int := DefaultStatus): (e: ApiError)
    ensures e.message == message && e.statusCode == statusCode
    ensures !IsInstance(e, OpenAIAPIErrorClass) && !IsInstance(e, RateLimitExceededErrorClass)
    ensures !IsInstance(e, EmailProcessingErrorClass)
  {
    ApiError(Generic, message, statusCode)
  }

  /** `OpenAIAPIError(message=...)`: status 503. */
  function NewOpenAIApiError(message: string := DefaultOpenAIMessage): (e: ApiError)
    ensures e.message == message && e.statusCode == 503
    ensures IsInstance(e, OpenAIAPIErrorClass) && IsInstance(e, APIErrorClass)
  {
    ApiError(OpenAIService, message, OpenAIStatus)
  }

  /** `RateLimitExceededError(message=..., retry_after=None)`: status 429. */
  function NewRateLimitExceededError(message: string := DefaultRateLimitMessage,
                                     retryAfter: Option<int> := None): (e: ApiError)
    ensures e.message == message && e.statusCode == 429
    ensures IsInstance(e, RateLimitExceededErrorClass) && IsInstance(e, APIErrorClass)
    ensures !IsInstance(e, OpenAIAPIErrorClass) && e.kind.retryAfter == retryAfter
  {
    ApiError(RateLimitExceeded(retryAfter), message, RateLimitStatus)
  }

  /** `EmailProcessingError(message=...)`: status 400. */
  function NewEmailProcessingError(message: string := DefaultEmailProcessingMessage): (e: ApiError)
    ensures e.message == message && e.statusCode == 400
    ensures IsInstance(e, EmailProcessingErrorClass) && IsInstance(e, APIErrorClass)
    ensures !IsInstance(e, OpenAIAPIErrorClass)
  {
    ApiError(EmailProcessing, message, EmailProcessingStatus)
  }

  /** An error built by one of the class constructors carries its class's status. */
  ghost predicate StatusMatchesClass(e: ApiError)
  {
    match e.kind
    case Generic => true
    case OpenAIService => e.statusCode == OpenAIStatus
    case RateLimitExceeded(_) => e.statusCode == RateLimitStatus
    case EmailProcessing => e.statusCode == EmailProcessingStatus
  }

  /** Each subclass is an APIError, so an `except APIError` handler catches all three, and the
      three subclasses are disjoint. */
  lemma SubclassesAreApiErrors(e: ApiError)
    ensures IsInstance(e, OpenAIAPIErrorClass) ==> IsInstance(e, APIErrorClass)
    ensures IsInstance(e, RateLimitExceededErrorClass) ==> IsInstance(e, APIErrorClass)
    ensures IsInstance(e, EmailProcessingErrorClass) ==> IsInstance(e, APIErrorClass)
    ensures IsInstance(e, OpenAIAPIErrorClass) ==>
              !IsInstance(e, RateLimitExceededErrorClass) && !IsInstance(e, EmailProcessingErrorClass)
    ensures IsInstance(e, RateLimitExceededErrorClass) ==> !IsInstance(e, EmailProcessingErrorClass)
  {
  }

  /** The constructors keep status and class in step. */
  lemma ConstructorsSetStatus(message: string, retryAfter: Option<int>, status: int)
    ensures StatusMatchesClass(NewApiError(message, status))
    ensures StatusMatchesClass(NewOpenAIApiError(message))
    ensures StatusMatchesClass(NewRateLimitExceededError(message, retryAfter))
    ensures StatusMatchesClass(NewEmailProcessingError(message))
    ensures NewApiError(message).statusCode == 500
  {
  }
}
