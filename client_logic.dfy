/** The expression-only parts of client.go: the write-client cache key, the
    normalisation of the server URL, the authorization header value, the
    retention conversion of Setup, and the classification of the replies of
    Ready, Health and Setup. */
module ClientLogic {
  import opened Wrappers
  import opened Domain

  // ---------------------------------------------------------------------
  // Compound key of the write-client caches (createKey)

  /** The separator byte between organization and bucket. */
  const KeySeparator: char := '\t'

  /** createKey: organization and bucket joined by a tab. */
  function CreateKey(org: string, bucket: string): (k: string)
    ensures |k| == |org| + 1 + |bucket|
    ensures k[..|org|] == org && k[|org|] == KeySeparator && k[|org| + 1..] == bucket
  {
    org + [KeySeparator] + bucket
  }

  /** Two pairs share a key only if they are the same pair, as long as the
      organization names hold no separator (bucket names may hold one). */
  lemma CreateKeyInjective(org1: string, bucket1: string, org2: string, bucket2: string)
    requires KeySeparator !in org1 && KeySeparator !in org2
    requires CreateKey(org1, bucket1) == CreateKey(org2, bucket2)
    ensures org1 == org2 && bucket1 == bucket2
  {
    var key := CreateKey(org1, bucket1);
    // the first separator of the key ends the organization name
    assert key[..|org1|] == org1 && key[|org1|] == KeySeparator;
    assert key[..|org2|] == org2 && key[|org2|] == KeySeparator;
    assert |org1| == |org2|;
    assert key[|org1| + 1..] == bucket1 && key[|org2| + 1..] == bucket2;
  }

  /** Without the restriction on names two different pairs collide. */
  lemma CreateKeyCollidesOnSeparator()
    ensures CreateKey("a\tb", "c") == CreateKey("a", "b\tc")
  {
  }

  // ---------------------------------------------------------------------
  // Construction: URL normalisation and the initial authorization

  /** strings.HasSuffix */
  predicate HasSuffix(s: string, suffix: string) {
    |suffix| <= |s| && s[|s| - |suffix|..] == suffix
  }

  /** strings.HasPrefix */
  predicate HasPrefix(s: string, prefix: string) {
    |prefix| <= |s| && s[..|prefix|] == prefix
  }

  /** The server URL as handed to the HTTP service: paths are concatenated
      to it, so it must end in a slash, which is appended only when missing. */
  function NormalizeURL(serverURL: string): (url: string)
    ensures |url| > 0 && url[|url| - 1] == '/'
    ensures url == serverURL || url == serverURL + "/"
    ensures HasSuffix(serverURL, "/") ==> url == serverURL
  {
    if HasSuffix(serverURL, "/") then serverURL else serverURL + "/"
  }

  /** Normalising a normalised URL changes nothing. */
  lemma NormalizeURLIdempotent(serverURL: string)
    ensures NormalizeURL(NormalizeURL(serverURL)) == NormalizeURL(serverURL)
  {
  }

  /** The authentication scheme put in front of a token. */
  const TokenScheme: string := "Token "

  /** The authorization value for a token, as Setup installs it. */
  function TokenAuthorization(token: string): (auth: string)
    ensures HasPrefix(auth, TokenScheme) && auth[|TokenScheme|..] == token
  {
    TokenScheme + token
  }

  /** The initial authorization of a new client: none for an empty token
      (a server not set up yet), the token with its scheme otherwise. */
  function AuthorizationFor(authToken: string): (auth: string)
    ensures auth == "" <==> authToken == ""
    ensures authToken != "" ==> auth == TokenAuthorization(authToken)
  {
    if |authToken| > 0 then TokenAuthorization(authToken) else ""
  }

  /** Different tokens never give the same authorization. */
  lemma AuthorizationForInjective(token1: string, token2: string)
    requires AuthorizationFor(token1) == AuthorizationFor(token2)
    ensures token1 == token2
  {
  }

  // ---------------------------------------------------------------------
  // Setup: retention conversion with Go's 64-bit arithmetic

  const TwoTo63: int := 0x8000_0000_0000_0000
  const TwoTo64: int := 0x1_0000_0000_0000_0000

  /** The result of a Go int64 operation whose exact value is x: the
      representative of x modulo 2^64 in the signed range. */
  function Wrap64(x: int): (r: int64)
    ensures (x - r as int) % TwoTo64 == 0
    ensures -TwoTo63 <= x < TwoTo63 ==> r as int == x
  {
    var m := (x + TwoTo63) % TwoTo64;
    (m - TwoTo63) as int64
  }

  const SecondsPerHour: int := 3600
  /** time.Second, in nanoseconds. */
  const NanosPerSecond: int := 1_000_000_000

  /** The retention in seconds: the hours times 3600, computed in a 64-bit
      Go int, so it wraps around on overflow. */
  function RetentionSeconds(hours: int64): (s: int64)
    ensures (hours as int * SecondsPerHour - s as int) % TwoTo64 == 0
    ensures -TwoTo63 <= hours as int * SecondsPerHour < TwoTo63 ==> s as int == hours as int * SecondsPerHour
  {
    Wrap64(hours as int * SecondsPerHour)
  }

  /** The retention as a 64-bit duration: those seconds times 10^9, in
      nanoseconds despite the name of the request field that carries it,
      again wrapping around on overflow. */
  function RetentionDuration(hours: int64): (d: int64)
    ensures (RetentionSeconds(hours) as int * NanosPerSecond - d as int) % TwoTo64 == 0
    ensures -TwoTo63 <= RetentionSeconds(hours) as int * NanosPerSecond < TwoTo63 ==>
      d as int == RetentionSeconds(hours) as int * NanosPerSecond
  {
    Wrap64(RetentionSeconds(hours) as int * NanosPerSecond)
  }

  /** The largest number of hours whose duration in nanoseconds fits in 64 bits. */
  const MaxExactHours: int := 2_562_047

  /** Within the bound neither multiplication wraps: the seconds are the hours
      times 3600 and the duration is the seconds times 10^9 nanoseconds; in
      particular zero hours give zero on both fields. */
  lemma RetentionExact(hours: int64)
    requires -MaxExactHours <= hours as int <= MaxExactHours
    ensures RetentionSeconds(hours) as int == hours as int * SecondsPerHour
    ensures RetentionDuration(hours) as int == hours as int * SecondsPerHour * NanosPerSecond
  {
  }

  /** One hour more and the duration wraps around to a negative value. */
  lemma RetentionDurationWraps()
    ensures RetentionDuration((MaxExactHours + 1) as int64) < 0
  {
  }

  // ---------------------------------------------------------------------
  // Setup: validation, request body and reply classification

  /** The message of the validation error of Setup. */
  const SetupCredentialsRequired: string := "a username and a password is required for a setup"

  /** What Setup would send for its arguments: a validation error when the
      username or the password is empty, the onboarding body otherwise. */
  function SetupRequest(username: string, password: string, org: string, bucket: string,
                        retentionPeriodHours: int64): (r: Result<SetupBody, Error>)
    ensures r.Failure? <==> username == "" || password == ""
    ensures r.Failure? ==> r.error == Validation(SetupCredentialsRequired)
    ensures r.Success? ==>
      && r.value.username == username && r.value.password == password
      && r.value.org == org && r.value.bucket == bucket
      && r.value.retentionPeriodSeconds == RetentionSeconds(retentionPeriodHours)
      && r.value.retentionPeriodHrs == RetentionDuration(retentionPeriodHours)
  {
    if username == "" || password == "" then
      Failure(Validation(SetupCredentialsRequired))
    else
      Success(SetupBody(bucket, org, password, RetentionSeconds(retentionPeriodHours),
                        RetentionDuration(retentionPeriodHours), username))
  }

  /** The onboarding document and the new token extracted from the reply of
      POST /setup, or the error Setup returns. */
  function SetupOutcome(x: Exchange<SetupReply>): (r: Result<(OnboardingResponse, string), Error>)
    ensures x.TransportFailure? ==> r == Failure(Transport(x.cause))
    ensures x.Received? && x.reply.jsonDefault.Some? ==>
      r == Failure(DomainError(x.reply.statusCode, x.reply.jsonDefault.value))
    ensures r.Success? <==>
      && x.Received? && x.reply.jsonDefault.None?
      && x.reply.json201.Some? && x.reply.json201.value.auth.Some?
      && x.reply.json201.value.auth.value.token.Some?
    ensures r.Success? ==>
      r.value.0 == x.reply.json201.value && r.value.1 == r.value.0.auth.value.token.value
    ensures r.Failure? && x.Received? && x.reply.jsonDefault.None? ==> r.error == NilDereference
  {
    match x
    case TransportFailure(cause) => Failure(Transport(cause))
    case Received(reply) =>
      if reply.jsonDefault.Some? then
        Failure(DomainError(reply.statusCode, reply.jsonDefault.value))
      else if reply.json201.None? || reply.json201.value.auth.None?
              || reply.json201.value.auth.value.token.None? then
        Failure(NilDereference)
      else
        Success((reply.json201.value, reply.json201.value.auth.value.token.value))
  }

  // ---------------------------------------------------------------------
  // Ready and Health

  /** Ready: true exactly when the server answered without an error envelope;
      every failure is reported as an error alongside false. */
  function Ready(x: Exchange<ReadyReply>): (r: Returned<bool>)
    ensures r.value <==> x.Received? && x.reply.jsonDefault.None?
    ensures r.err.None? <==> r.value
    ensures x.TransportFailure? ==> r.err == Some(Transport(x.cause))
    ensures x.Received? && x.reply.jsonDefault.Some? ==>
      r.err == Some(DomainError(x.reply.statusCode, x.reply.jsonDefault.value))
  {
    match x
    case TransportFailure(cause) => Returned(false, Some(Transport(cause)))
    case Received(reply) =>
      if reply.jsonDefault.Some? then
        Returned(false, Some(DomainError(reply.statusCode, reply.jsonDefault.value)))
      else
        Returned(true, None)
  }

  /** Health: an error exactly on a transport failure or an error envelope;
      an unhealthy server (a 503 document) is a normal result, preferred over
      a 200 document. */
  function Health(x: Exchange<HealthReply>): (r: Returned<Option<HealthCheck>>)
    ensures r.err.Some? <==> x.TransportFailure? || x.reply.jsonDefault.Some?
    ensures r.err.Some? ==> r.value == None
    ensures x.TransportFailure? ==> r.err == Some(Transport(x.cause))
    ensures x.Received? && x.reply.jsonDefault.Some? ==>
      r.err == Some(DomainError(x.reply.statusCode, x.reply.jsonDefault.value))
    ensures r.err.None? && x.reply.json503.Some? ==> r.value == x.reply.json503
    ensures r.err.None? && x.reply.json503.None? ==> r.value == x.reply.json200
  {
    match x
    case TransportFailure(cause) => Returned(None, Some(Transport(cause)))
    case Received(reply) =>
      if reply.jsonDefault.Some? then
        Returned(None, Some(DomainError(reply.statusCode, reply.jsonDefault.value)))
      else if reply.json503.Some? then
        Returned(reply.json503, None)
      else
        Returned(reply.json200, None)
  }

  /** Ready and Health agree on whether the server could be reached and
      answered without an error envelope. */
  lemma ReadyAgreesWithHealth(x: Exchange<ReadyReply>, y: Exchange<HealthReply>)
    requires x.TransportFailure? <==> y.TransportFailure?
    requires x.Received? ==> (x.reply.jsonDefault.Some? <==> y.reply.jsonDefault.Some?)
    ensures Ready(x).value <==> Health(y).err.None?
  {
  }
}
