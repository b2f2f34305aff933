# InfluxDB 2 Go client facade, modelled in Dafny

This project models the client facade of the InfluxDB 2 Go client library
(`clientImpl` in `client.go`, package `influxdb2`). The facade is the entry point of the
library. It normalises the server URL and formats the initial authorization. It hands out
sub-clients: one asynchronous and one blocking writer per organization/bucket key (so one
per pair when organization names hold no tab), seven lazily created singleton API clients,
and an uncached query client. It performs
onboarding (`Setup`), which installs a new token on success. It classifies the replies of
`Ready` and `Health`. `Close` drains the write-client caches.

Files:

- `wrappers.dfy` (module `Wrappers`): `Option` for Go's nil-able pointers and `Result`.
- `domain.dfy` (module `Domain`): the shapes the facade exchanges with the generated HTTP
  client. These are replies as records of nil-able fields, the error kinds, the onboarding
  request body, and Go's `int64`.
- `client_logic.dfy` (module `ClientLogic`): the expression-only parts. These are
  `createKey`, URL normalisation, authorization formatting, retention conversion with
  64-bit wrap-around, and the classification of the replies of `Ready`, `Health` and
  `Setup`.
- `client.dfy` (module `Client`): the class `ClientImpl` with the two caches, the seven
  singleton slots, the authorization of the HTTP service, and the state-changing
  operations. It ends with short caller methods that use only the class's contracts.

## How the model is built

- Sub-clients are opaque handles. A handle is the index of a record in
  `ClientImpl.subClients`. The abstract constructor `Construct` appends the record (the kind
  and its identity parameters) and returns the next index. A new handle is therefore
  `|old(subClients)|`, and two handles are the same sub-client exactly when they are equal.
- The HTTP service is folded into the class. `serviceURL` is the URL the service was created
  with and `authorization` is the value of its authorization field.
- The effects on collaborators are recorded in fields. `writerCloses` lists the writers whose
  `Close` was called, in call order. `idleConnectionCloses` counts
  `CloseIdleConnections` calls. `setupRequests` lists the onboarding requests handed to the
  transport.
- A network call is a parameter of type `Exchange`. It is either the transport's failure
  (connectivity, timeout, cancellation of the context) or a parsed reply whose fields
  `jsonDefault`, `json503`, `json200` and `json201` may each be nil. They are records and not
  a sum type because the code tests them in a fixed order.
- `ClientImpl.Valid()` is the object invariant. The service URL is the normalisation of the
  server URL. Every cached writer was constructed for an org/bucket pair whose key is its own
  cache key. Every filled singleton slot names a sub-client of its own kind. No writer has
  been closed twice, every closed writer was constructed, and no cached asynchronous writer
  has been closed yet. It follows that distinct keys of one cache never share a writer
  (`WritersDistinct`), and that across any number of `Close` calls each asynchronous writer
  is closed at most once.
- Go's mutex is not modelled. The operations are sequential.

Where the documentation and the code disagree, the model follows the code:

- The interface comment of `QueryAPI` (client.go:52-54) promises one instance per
  organization. The code (client.go:236-238) returns a new query client on every call.
- `Close` (client.go:222-234) does not take the lock.
- A successful `Setup` replaces the authorization every time it succeeds. Nothing locally
  restricts it to once; a second onboarding is expected to be refused by the server.
- The request field `RetentionPeriodHrs` gets the retention as a `time.Duration`, which is
  in nanoseconds despite the field's name (client.go:159).

## Model

| member | source | states |
|---|---|---|
| `ClientLogic.CreateKey` | client.go:196-198 | The cache key is the organization, one tab, then the bucket: its length is the sum plus one, and the organization, the separator and the bucket sit at those positions. |
| `ClientLogic.CreateKeyInjective` | client.go:196-198 | Two org/bucket pairs have the same cache key only if they are the same pair, provided neither organization name contains the tab separator. |
| `ClientLogic.CreateKeyCollidesOnSeparator` | client.go:196-198 | Without that restriction, two different pairs do share a key: ("a\tb","c") and ("a","b\tc"). |
| `ClientLogic.NormalizeURL` | client.go:103-107 | The URL given to the HTTP service always ends in `/`. It is the input itself or the input with one `/` appended, and it is unchanged when the input already ends in `/`. |
| `ClientLogic.NormalizeURLIdempotent` | client.go:103-107 | Normalising twice is the same as normalising once. |
| `ClientLogic.TokenAuthorization` | client.go:175 | The installed authorization starts with the `Token ` scheme and the rest of it is exactly the token. |
| `ClientLogic.AuthorizationFor` | client.go:108-111 | The initial authorization is empty exactly when the token is empty. Otherwise it is `Token ` followed by the token. |
| `ClientLogic.AuthorizationForInjective` | client.go:108-111 | Different tokens never give the same initial authorization. |
| `ClientLogic.Wrap64` | client.go:158-159 | A 64-bit Go multiplication yields a value congruent to the exact product modulo 2^64, and the exact product whenever that fits in 64 bits. |
| `ClientLogic.RetentionSeconds` | client.go:158 | The seconds field is congruent to hours × 3600 modulo 2^64, and equals it whenever the product fits in a signed 64-bit int. |
| `ClientLogic.RetentionDuration` | client.go:159 | The duration field is congruent to the seconds field × 10^9 modulo 2^64, and equals that product whenever it fits in a signed 64-bit duration. |
| `ClientLogic.RetentionExact` | client.go:158-159 | For at most 2,562,047 hours either way, the seconds field is hours × 3600 and the duration field is seconds × 10^9 nanoseconds. Zero hours give zero on both fields. |
| `ClientLogic.RetentionDurationWraps` | client.go:159 | One hour beyond that bound, the duration field wraps around to a negative value. |
| `ClientLogic.SetupRequest` | client.go:152-167 | Setup fails with its validation error exactly when the username or the password is empty. Otherwise the request carries the username, password, organization, bucket and both retention fields. |
| `ClientLogic.SetupOutcome` | client.go:168-176 | A transport failure is returned as it is and an error envelope becomes a domain error with the status code. Setup succeeds exactly when the reply holds an onboarding document with a token, which it extracts. A reply with neither an envelope nor a token dereferences nil. |
| `ClientLogic.Ready` | client.go:139-149 | Ready is true exactly when the server answered without an error envelope. It carries an error exactly when it is false: the transport's error, or the decoded envelope with its status code. |
| `ClientLogic.Health` | client.go:179-194 | Health returns an error exactly on a transport failure or an error envelope, and then no document. Otherwise it returns the 503 document when there is one, as a normal result and not an error, and the 200 document otherwise. |
| `ClientLogic.ReadyAgreesWithHealth` | client.go:139-194 | On matching replies, Ready is true exactly when Health reports no error. |
| `Client.ClientImpl.constructor` | client.go:102-126 | A new client keeps the un-normalised URL for `ServerURL()` and gives the service the normalised URL and the formatted authorization. Both caches start empty and every slot starts nil. |
| `Client.ClientImpl.ServerURL` | client.go:131-133 | Returns the server URL as given to the constructor; the HTTP service talks to its normalisation. |
| `Client.ClientImpl.Construct` | client.go:205 | A sub-client constructor only allocates: it returns a handle distinct from every earlier one and records what it was made for. |
| `Client.ClientImpl.WritersDistinct` | client.go:75-76 | In a valid client, distinct keys of one cache never share a writer. |
| `Client.ClientImpl.WriterMadeForPair` | client.go:200-209 | The writer cached under an org/bucket key was constructed for that very pair, unless an organization name contains the separator. |
| `Client.ClientImpl.WriteAPI` | client.go:200-209 | Get-or-create. With the key present, it returns the cached writer and changes nothing. Otherwise it constructs one writer for the pair and adds exactly that entry under `createKey(org, bucket)`. The blocking cache, the slots and the authorization are outside its frame. |
| `Client.ClientImpl.WriteAPIBlocking` | client.go:211-220 | The same get-or-create over the blocking cache, leaving the asynchronous cache untouched. |
| `Client.ClientImpl.QueryAPI` | client.go:236-238 | Every call constructs a new query client for the organization and caches nothing. |
| `Client.ClientImpl.Close` | client.go:222-234 | Afterwards both caches are empty and the client is still valid. Every asynchronous writer present before has had Close called exactly once by this call, and no other writer. Each of them occurs exactly once in the whole history of writer closes, including earlier Close calls. Idle connections are closed once exactly when the HTTP client is owned. |
| `Client.ClientImpl.CloseWriters` | client.go:223-227 | The first loop of Close closes each cached asynchronous writer exactly once and deletes every entry, keeping the history of closes free of repetitions. |
| `Client.NothingToClose` | client.go:223-227 | With no cached asynchronous writers, the first loop of Close closes nothing. |
| `Client.AppendCloses` | client.go:223-227 | Appending one Close call's closes to a history without repetitions, when none of those writers were closed before, leaves each of them in the history exactly once. |
| `Client.ClientImpl.ForgetBlockingWriters` | client.go:228-230 | The second loop of Close deletes every blocking writer. |
| `Client.ClientImpl.AuthorizationsAPI` | client.go:240-247 | Fills a nil slot with a new authorizations client and otherwise returns the stored one, changing nothing. |
| `Client.ClientImpl.OrganizationsAPI` | client.go:249-256 | The same for the organizations client. |
| `Client.ClientImpl.UsersAPI` | client.go:258-265 | The same for the users client. |
| `Client.ClientImpl.DeleteAPI` | client.go:267-274 | The same for the delete client. |
| `Client.ClientImpl.BucketsAPI` | client.go:276-283 | The same for the buckets client. |
| `Client.ClientImpl.LabelsAPI` | client.go:285-292 | The same for the labels client. |
| `Client.ClientImpl.TasksAPI` | client.go:294-301 | The same for the tasks client. |
| `Client.ClientImpl.Setup` | client.go:151-177 | With an empty username or password, it returns the validation error, sends no request and keeps the authorization. Otherwise it sends one request with the converted retention. On a transport failure, error envelope or missing token it keeps the authorization. On success it installs `Token ` + the new token. The authorization changes only when no error is returned. |
| `Client.WriterReused` | client.go:200-209 | A second WriteAPI call for the same pair returns the identical writer. |
| `Client.DistinctPairsDistinctWriters` | client.go:196-209 | Different pairs get different writers when organization names hold no separator. |
| `Client.QueryAPINotCached` | client.go:236-238 | Two QueryAPI calls never return the same client. |
| `Client.CloseTwice` | client.go:222-234 | Closing twice appends to the history of closes exactly the writers cached before the first Close, each once, and each occurs exactly once in the whole history. The second Close closes nothing and leaves the client valid. |
| `Client.SetupThenWrite` | client.go:151-177 | After a successful Setup, the shared authorization that later sub-clients use is the new token. After a failed Setup it is the old value. |

## Left out

- Concurrency: `sync.Mutex` and the guarantees it gives under concurrent calls. The model is sequential.
- The HTTP transport (`http.NewService`, the internals of `SetAuthorization`, `CloseIdleConnections`) and the generated `domain.ClientWithResponses`. Their replies are parameters of type `Exchange`, the authorization is a field, and closing idle connections is a counter.
- JSON (de)serialisation, and the decoding inside `DomainErrorToError`. An error envelope becomes `Error.DomainError(statusCode, payload)`.
- The sub-client constructors (`api.NewWriteAPI` and the others) and the write-batching engine behind the writer's `Close`. They are modelled as handle allocation and a record of each `Close` call.
- Logging at construction (client.go:121-124). It only touches global loggers.
- version.go is not part of this model. It sets a platform-dependent global user agent.
- `NewClient` (client.go:93-95) is the constructor with default options. The options are reduced to whether the HTTP client is owned. That is the only option the facade's own logic tests, and it is assumed fixed from construction on. In Go, `Close` reads it at call time (client.go:231) through the `*Options` pointer the caller also holds. The other options the facade reads are only passed through to collaborators: `httpOptions` (client.go:112), `LogLevel()` (client.go:122), `writeOptions` (client.go:205, 216) and `HTTPClient()` (client.go:262, in `UsersAPI`).
- The getters `Options()` and `HTTPService()` (client.go:127-137) return fields the model does not represent. `ServerURL()` is modelled.
- The `context.Context` arguments. A cancelled or expired context shows up as a transport failure.
- `Client.ClientImpl.Setup`: in a reply without an error envelope, a nil `JSON201`, a nil `JSON201.Auth` or a nil `Auth.Token` makes Go panic at one of the three dereferences of client.go:175. Here each of the three is modelled as returning `Error.NilDereference` with the state unchanged (`ClientLogic.SetupOutcome`).
- `ClientLogic.RetentionSeconds`: Go's `int` is taken to be 64 bits wide. On a 32-bit platform the seconds would wrap earlier.
- The type assertion `w.(*api.WriteAPIImpl)` in `Close` (client.go:224) cannot fail here, because every cached asynchronous writer comes from `api.NewWriteAPI`.
