/** Classification of provider errors into the host's error taxonomy
    (pkg/cloudflare/errors.go). */
module Errors {
  import opened Wrappers
  import opened Resource

  /** An error returned by a provider call: its message, and the HTTP status
      of the Cloudflare API error found in its wrap chain, when there is one. */
  datatype ProviderError = ProviderError(message: string, apiStatus: Option<int>)

  /** The statuses the classifier recognises, with the code each maps to. */
  const StatusCodes: map<int, ErrorCode> := map[
    400 := InvalidRequest,
    401 := InvalidCredentials,
    403 := AccessDenied,
    404 := NotFound,
    429 := Throttling,
    500 := ServiceInternalError,
    502 := ServiceInternalError,
    503 := ServiceInternalError,
    504 := ServiceInternalError]

  /** MapErrorCode: no error maps to the empty code, an API error with a
      recognised status to that status's code, anything else to
      InternalFailure. */
  function MapErrorCode(err: Option<ProviderError>): (r: ErrorCode)
    ensures err.None? <==> r == NoErrorCode
    ensures err.Some? && err.value.apiStatus.Some? && err.value.apiStatus.value in StatusCodes
            ==> r == StatusCodes[err.value.apiStatus.value]
    ensures err.Some? && (err.value.apiStatus.None? || err.value.apiStatus.value !in StatusCodes)
            ==> r == InternalFailure
  {
    match err
    case None => NoErrorCode
    case Some(e) =>
      match e.apiStatus
      case None => InternalFailure
      case Some(status) =>
        if status == 400 then InvalidRequest
        else if status == 401 then InvalidCredentials
        else if status == 403 then AccessDenied
        else if status == 404 then NotFound
        else if status == 429 then Throttling
        else if status == 500 || status == 502 || status == 503 || status == 504 then ServiceInternalError
        else InternalFailure
  }

  /** IsNotFound: an API error whose status is 404. */
  function IsNotFound(err: Option<ProviderError>): (r: bool)
    ensures r <==> err.Some? && err.value.apiStatus == Some(404)
  {
    match err
    case None => false
    case Some(e) =>
      match e.apiStatus
      case None => false
      case Some(status) => status == 404
  }

  /** IsRateLimited: an API error whose status is 429. */
  function IsRateLimited(err: Option<ProviderError>): (r: bool)
    ensures r <==> err.Some? && err.value.apiStatus == Some(429)
  {
    match err
    case None => false
    case Some(e) =>
      match e.apiStatus
      case None => false
      case Some(status) => status == 429
  }

  /** The 5xx statuses that count as the provider's own failure are exactly
      500, 502, 503 and 504; 501 and the rest fall through to InternalFailure. */
  lemma ServiceErrorStatuses(err: Option<ProviderError>)
    ensures MapErrorCode(err) == ServiceInternalError
            <==> err.Some? && err.value.apiStatus.Some? && err.value.apiStatus.value in {500, 502, 503, 504}
  {
  }

  /** The narrow predicate agrees with the classifier on not-found. */
  lemma NotFoundAgreesWithMapping(err: Option<ProviderError>)
    ensures IsNotFound(err) <==> MapErrorCode(err) == NotFound
  {
  }

  /** The narrow predicate agrees with the classifier on throttling. */
  lemma RateLimitAgreesWithMapping(err: Option<ProviderError>)
    ensures IsRateLimited(err) <==> MapErrorCode(err) == Throttling
  {
  }
}
