/** Shapes of the values the facade exchanges with the generated HTTP client
    (package domain) and the transport. Only the parts the facade inspects
    are modelled; the rest of each server document is abstracted away. */
module Domain {
  import opened Wrappers

  /** The error envelope a server reports (domain.Error). */
  datatype ErrorPayload = ErrorPayload(code: string, message: string)

  /** The errors the facade can return, kept distinguishable by kind. */
  datatype Error =
    | Validation(message: string)               // raised locally, before any request
    | Transport(cause: string)                  // connectivity, timeout, cancellation
    | DomainError(statusCode: int, payload: ErrorPayload)  // DomainErrorToError of an envelope
    | NilDereference                            // a nil field of a response was dereferenced

  /** What a call through the transport yields: the transport's own error,
      or a parsed reply. */
  datatype Exchange<R> = TransportFailure(cause: string) | Received(reply: R)

  /** Parsed reply of GET /ready. */
  datatype ReadyReply = ReadyReply(statusCode: int, jsonDefault: Option<ErrorPayload>)

  /** A health check document (domain.HealthCheck). */
  datatype HealthCheck = HealthCheck(name: string, status: string, message: string)

  /** Parsed reply of GET /health: the generated code fills at most the
      fields that match the status code, any of them may be nil. */
  datatype HealthReply = HealthReply(
    statusCode: int,
    jsonDefault: Option<ErrorPayload>,
    json503: Option<HealthCheck>,
    json200: Option<HealthCheck>)

  /** The authorization created by onboarding; its token is a nil-able pointer. */
  datatype OnboardingAuth = OnboardingAuth(token: Option<string>)

  /** The onboarding document (domain.OnboardingResponse); only its
      authorization is inspected by the facade. */
  datatype OnboardingResponse = OnboardingResponse(
    org: string, bucket: string, user: string, auth: Option<OnboardingAuth>)

  /** Parsed reply of POST /setup. */
  datatype SetupReply = SetupReply(
    statusCode: int,
    jsonDefault: Option<ErrorPayload>,
    json201: Option<OnboardingResponse>)

  /** Go's 64-bit signed integer (int on 64-bit platforms, time.Duration). */
  newtype int64 = x: int | -0x8000_0000_0000_0000 <= x < 0x8000_0000_0000_0000

  /** Body of POST /setup (domain.PostSetupJSONRequestBody). */
  datatype SetupBody = SetupBody(
    bucket: string,
    org: string,
    password: string,
    retentionPeriodSeconds: int64,
    retentionPeriodHrs: int64,
    username: string)

  /** A Go result pair (value, error): the value is the zero value whenever
      the error is set. */
  datatype Returned<T> = Returned(value: T, err: Option<Error>)
}
