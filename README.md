# pipeping: a Dafny model of the OAuth relay and webhook drain

pipeping is a small Express application (`app.js`). It signs users in through
the Singly aggregation API with OAuth 2.0. It provisions a Facebook photo
"pipe" on Singly's pipe service. It counts the items that pipe delivers back by
webhook. This project models the decision logic of `app.js` and proves what it
promises:

- **Authorization link builder** (`authorizationLink`): a check mark for a
  service the returning user has already linked. Otherwise an anchor to
  `<api host>/oauth/authenticate?` with the query `client_id`, `redirect_uri`,
  `service`, then `access_token` (merge into a known identity) or
  `account=false`, then `scope=repo` for GitHub only. The query string is
  modelled concretely: Node's `querystring.stringify` with
  `encodeURIComponent` escaping, UTF-8 percent-encoding included, for strings
  of Unicode scalar values (see "## Left out" for lone surrogates). Its partner is
  a reference parser. `QueryString.ParseStringify` proves that the parser reads
  back every key and value, in order. The lemmas about the link are stated on
  what the parser reads from the link's query string.
- **Handlers as step functions**: `/` (the configuration guard), `/callback`
  (the token is saved first, the profile only on success), `/generate` (the
  chain of guards, the pipe record, the registration outcome) and `/sync`
  (the sync-key guards). The results of the outside calls are parameters: the
  token exchange, the profile fetch, the delegated-token request, the
  registration, the serializer's parse and `Math.random()`. The session is an
  explicit value that a handler takes in and returns.
- **Drain counter store**: a class `DrainStore` whose `counters` map stands in
  for Redis. `Write` (POST `/drain/:id`) answers 200 and adds an array body's
  length with Redis `INCRBY` semantics. This includes its signed 64-bit
  overflow refusal. `Read` (GET `/drain/:id`) answers `{total: value}`.

JavaScript values are one datatype, `JsValues.Value`; it includes the Error
objects an HTTP client hands to its callback. The model uses its truthiness,
property access (a `TypeError` on `null`/`undefined`) and string conversion.
Files: `js_values.dfy`, `query_string.dfy`, `app_state.dfy`, `auth_link.dfy`,
`handlers.dfy`, `drain.dfy`.

Where `app.js` departs from what its own messages and the OAuth flow suggest,
the model follows `app.js`:

- `/callback` ignores the token exchange's error argument. It writes
  `token.access_token` into the session before the profile fetch. So a rejected
  code still overwrites the session's token, here with `undefined`. A missing
  token object throws inside the I/O callback (`Handlers.CallbackWithoutToken`).
  app.js installs no handler for uncaught exceptions, so the Node process
  exits: no reply is sent, and every in-memory session and every pending
  request is lost. The model records this outcome as `Uncaught`; the same
  happens in `/generate` when the registration request fails and there is no
  reply to read a status code from.
- GET `/drain/:id` answers with the value as Redis returns it, which is text.
  So two deliveries of 3 and 2 items read back as `{total: "5"}`, not
  `{total: 5}`.
- `/` refuses to render only when `SINGLY_CLIENT_SECRET` is unset or empty. Its
  message also names `SINGLY_CLIENT_ID`, but that setting is not checked.
- `/generate` asks `https://api.singly.com` for the delegated token whatever
  `SINGLY_API_HOST` says.
- The sync key's round trip through the secure serializer is not claimed. That
  library's source is not part of this model.

## Model

| member | source | states |
|---|---|---|
| `JsValues.Truthy` | app.js:112 | a value is falsy exactly when it is undefined, null, false, 0 or the empty string |
| `JsValues.Member` | app.js:64 | `v[k]` is the value of the object's field `k` when it has one, an error's `message` or `name`, and `undefined` otherwise |
| `JsValues.NatToString` | app.js:157-161 | the decimal numeral of a count: digits only, no leading zero, and the digits stand for the number itself |
| `JsValues.GetProp` | app.js:107 | reading a property throws a TypeError if and only if the value is null or undefined, and otherwise reads the member |
| `JsValues.JsToString` | app.js:112 | `String(v)`: strings as they are, `undefined` and `null` by name, an error as `name: message` |
| `JsValues.StringifyPrimitive` | app.js:86 | querystring writes a string value as it is, and undefined, null, arrays, objects and errors as the empty string |
| `AppState.ApiBaseUrl` | app.js:37 | the API base is SINGLY_API_HOST when set and non-empty, `https://api.singly.com` otherwise |
| `AppState.HostUrl` | app.js:70 | the host-derived URL; a missing Host header is written as `undefined` |
| `QueryString.Escape` | app.js:86 | encodeURIComponent never shortens a text and leaves a text of unreserved characters unchanged |
| `QueryString.Stringify` | app.js:86 | querystring.stringify gives the empty string exactly for an object without keys |
| `QueryString.ParseStringify` | app.js:86 | reading back querystring.stringify's output recovers every key and every value, in order, for every object |
| `QueryString.UnescapeEscape` | app.js:86 | percent-decoding undoes encodeURIComponent escaping for every string, multi-byte UTF-8 included |
| `QueryString.EscapeIsEscaped` | app.js:86 | an escaped key or value holds only unreserved characters and `%`, so never a `&` or `=` separator |
| `QueryString.Utf8RoundTrip` | app.js:86 | the UTF-8 bytes escaped for a character decode back to that character |
| `AuthLink.Options` | app.js:68-84 | the options object has four keys, five for github, and no key twice |
| `AuthLink.AuthorizationLink` | app.js:60-89 | when the builder returns, it returns the check mark and the name if and only if the service is listed in a returning user's profile |
| `AuthLink.LinkedShowsCheckMark` | app.js:61-66 | a service listed in a returning user's `profile.services` renders exactly the check-mark span followed by the name, with no URL |
| `AuthLink.ThrowsOnlyWithoutServices` | app.js:61-64 | the builder throws a TypeError exactly when a returning user's profile has no `services` object (null or undefined) |
| `AuthLink.UnlinkedShowsAuthorizeLink` | app.js:68-87 | a service that is not linked renders `<a href="URL">name</a>` with URL = API base + `/oauth/authenticate?` + the stringified options |
| `AuthLink.ParamsArePrimitives` | app.js:86 | the link's query always parses, and gives the options object's keys in insertion order, each value as querystring writes it |
| `AuthLink.PrimitiveOptions` | app.js:68-84 | the query holds exactly client_id, redirect_uri, service, then access_token or account=false, then scope=repo for github only |
| `AuthLink.ReadBackOptions` | app.js:68-84 | what the authorization endpoint reads for each parameter name, including absence of the ones not sent |
| `AuthLink.AccessTokenIffKnownIdentity` | app.js:76-81 | access_token is sent, with the session's token, if and only if the user is returning with a truthy profile id; account=false is sent in every other case, and never beside a token |
| `AuthLink.NoSessionMeansNoAccount` | app.js:61-81 | with no session at all, the link carries account=false and no access_token |
| `AuthLink.ScopeOnlyForGithub` | app.js:84 | scope is sent, as `repo`, if and only if the service is github |
| `AuthLink.ClientRedirectService` | app.js:68-72 | client_id reads back as the configured id (empty when unset), redirect_uri as `http://` + host + `/callback`, service as the service |
| `Handlers.Index` | app.js:92-97 | `/` either answers 500 with the settings message or renders the index, nothing else |
| `Handlers.IndexGuard` | app.js:92-95 | `/` answers 500 with the settings message if and only if the client secret is unset or empty, renders the index otherwise, and ignores the client id |
| `Handlers.CommitToken` | app.js:107 | saving the token throws if and only if the token object is null or undefined, and otherwise sets the session's token to `token.access_token` and leaves its profile |
| `Handlers.Callback` | app.js:101-118 | the callback ends uncaught if and only if the token object is missing, and the session is then untouched; otherwise it redirects or answers with text |
| `Handlers.CallbackCommitsTokenEarly` | app.js:105-112 | the exchanged `access_token` is in the session whatever the profile fetch returns; a failed fetch leaves `profile` unchanged and answers 500 with `err + " " + profile` |
| `Handlers.CallbackNetworkFailure` | app.js:110-112 | a `/profile` request that fails with an Error answers 500 with `Error: <message> ` followed by the profile argument as text |
| `Handlers.CallbackLinksOnSuccess` | app.js:112-115 | the browser is redirected to `/` if and only if the fetch had no error and a profile with a body; the session then holds the token and that body |
| `Handlers.CallbackWithoutToken` | app.js:105-107 | a null or undefined token object throws before the session is written, and nothing is sent |
| `Handlers.CallbackProfileInvariant` | app.js:107-115 | the profile changes only together with the redirect to `/`, and is then truthy |
| `Handlers.CallbackThenCheckMark` | app.js:64-113 | after a successful callback whose profile lists a service, the landing page shows the check mark for it |
| `Handlers.CallbackThenGenerate` | app.js:107-123 | after a callback that stores a truthy token, `/generate`'s first request asks for the delegated token with that token |
| `Handlers.Pipe` | app.js:125-128 | the pipe record has exactly the fields service, category, schedule, expires_at, identifier, target_url and auth |
| `Handlers.Registration` | app.js:129-132 | the registration carries the pipe as its body and authenticates with PIPE_KEY and PIPE_SECRET |
| `Handlers.Generate` | app.js:121-139 | `/generate` sends at most two requests, the delegated-token request with the session token first, and a pipe registration only as the last one |
| `Handlers.GenerateNeedsSessionToken` | app.js:122 | `/generate` answers 500 `{err: "missing token"}` if and only if the session token is falsy, and then makes no request |
| `Handlers.GenerateNeedsDelegatedToken` | app.js:123-124 | without a truthy `body.auth.accessToken` only the delegated-token request is made and the answer is 500 with the error and the upstream body |
| `Handlers.RegisteredPipe` | app.js:122-132 | a pipe is registered if and only if the session token and the delegated token are truthy; the requests are then the delegated-token request and the registration of service facebook, category photos, schedule 1, expires_at 1, the drawn identifier, target `https://` + host + `/drain/`, auth.token the delegated token, sent with the pipe key and secret |
| `Handlers.GenerateWithoutReply` | app.js:134-135 | with both tokens present, a registration request that fails with no reply ends uncaught |
| `Handlers.GenerateRegistrationOutcome` | app.js:123-136 | once both tokens are there, exactly the delegated-token request and the registration are sent; a 201 reply is passed on as is, any other status answers 500 with `status + " " + body` |
| `Handlers.Sync` | app.js:142-150 | `/sync` answers "missing sync key", "invalid sync key", or nothing |
| `Handlers.SyncGuards` | app.js:142-149 | `/sync` answers "missing sync key" if and only if the key is falsy, "invalid sync key" if and only if parsing throws or yields a falsy value, and nothing otherwise |
| `Drain.IncrBy` | app.js:154 | INCRBY either refuses and leaves the store, or adds the delta to the id's counter (zero when absent); it refuses exactly on overflow of a signed 64-bit integer, and never touches another id |
| `Drain.AfterWrite` | app.js:152-155 | a delivery adds at most its own id to the store, removes none, and changes the store only for an array body |
| `Drain.Total` | app.js:157-161 | the total is null if and only if the id was never counted, and otherwise the count as text |
| `Drain.DrainStore.Write` | app.js:152-155 | POST answers 200; the counters become the store after the write (only array bodies count) and stay within Redis's integer range |
| `Drain.DrainStore.Read` | app.js:157-161 | GET answers `{total: value}`, where total is the stored count as text, and null if and only if the id was never counted |
| `Drain.NonArrayWriteIsNoop` | app.js:154 | a body that is not an array leaves the whole store unchanged |
| `Drain.ArrayWriteAddsLength` | app.js:154 | an array body adds its length to the id's counter, which starts at zero when absent |
| `Drain.WriteLeavesOthers` | app.js:154 | a write leaves every other identifier's counter and presence unchanged |
| `Drain.WritePreservesValid` | app.js:154 | writes keep every counter between 0 and the Redis maximum and never decrease any counter |
| `Drain.CountIsSumOfBatches` | app.js:152-155 | after any sequence of array deliveries to one id, its counter is the old count plus the sum of their lengths |
| `Drain.ThreeThenTwo` | app.js:152-161 | on a fresh store, deliveries of 3 and then 2 items followed by a read answer `{total: "5"}` |

## Left out

- Express set-up, middleware, cookies and sessions, static files, the EJS view
  and `app.listen` (app.js:40-58, 95-97, 163-165). The view that calls the link
  builder is not part of this model. So the services it lists are unknown, and
  `/` is modelled up to `Render("index")`.
- Logging (app.js:47, 133, 165).
- The Redis connection and its authentication (app.js:18-20), Redis errors on
  GET or INCRBY, and the atomicity of INCRBY under concurrent deliveries. The
  store is a map updated one request at a time. The POST handler answers before
  it issues the increment. The model returns the answer and the new store
  together.
- The `singly` and `request` HTTP calls (app.js:105, 110, 123, 134). Their
  results are parameters. The `code` query parameter only feeds the token
  exchange, so it does not appear. The `request` library's serialization of the
  pipe object as the POST body is not modelled: the registration records the
  pipe as a value.
- The secure serializer (app.js:32, 146). Its parse is a function parameter
  that yields None where it throws. No encode/decode round trip is claimed.
- `Math.random()` (app.js:126). The identifier is an input value. Numbers in the
  model are integers, so fractions, NaN and Infinity are not represented.
  Numbers are written in plain decimal, without JavaScript's exponent notation
  from 1e21 on.
- Property access reads an object's own fields, and an error's `message` and
  its inherited `name`. Every other inherited member, of `Object.prototype` or
  `Error.prototype`, is not modelled. In JavaScript a service named
  `constructor` or `toString` would read as linked. Array and string
  properties such as `length` or indices are not modelled either.
- `QueryString.Stringify`: a value that is an array is written as the empty
  string. Node repeats the key once per element. Only `access_token` can carry
  such a value, copied from the token-exchange reply.
- JSON serialization of replies is not modelled. `JsonReply` carries the value
  itself, so a field holding `undefined` is still present in the model, while
  `res.json` would drop it.
- The work `/sync` would resume after a valid key is not in the source. The
  handler ends without answering (`NoReply`).
- `AuthLink.ThrowsOnlyWithoutServices`, `QueryString.Escape`: strings are
  sequences of Unicode scalar values. A JavaScript string is UTF-16 and may
  hold a lone surrogate, for instance in the `access_token` of the
  token-exchange reply. On such a string `encodeURIComponent` throws a
  `URIError`; that failure of the link builder is not modelled.
- `JsValues.JsToString`: an error's name and message are strings. A name or
  message of another type is not modelled, and neither are an error's own
  fields other than `message` and `name`.
