# Recipe front end: sessions, sanitizing proxy, rating aggregation

A Dafny model of the logic inside a small Go HTTP front end that sits in
front of a PocketBase record store. Four pieces are modelled, each with what
it promises proved about it:

- **Session store and cookie gate** (`main.go`, module `Sessions`): the
  process-wide map from session id to user name is a class field that
  `HandleLogin` updates. The id is `"sess-"` followed by the Unix second of
  the login. `AuthMiddleware` lets a request through, unchanged, only when its
  `session_id` cookie names a stored, non-empty user name; a missing entry
  reads as Go's zero value `""`. `HandleLogout` only sends an expired, empty
  cookie.
- **Record sanitizer** (`main.go`, module `Proxy`): `proxyRequest` decodes the
  record store's envelope and deletes `collectionId` and `collectionName` from
  every object item of an `items` array. It does this with a loop that edits
  the items in place (`StripInPlace`, over an `array`). The loop is proved
  equal to the value-level `Sanitize`, and the sanitizer's properties are
  proved about `Sanitize`: the keys are removed, everything else is kept,
  and applying it twice is the same as applying it once.
- **Average rating** (`handlers/recipes.go`, module `Recipes`): the recipe id
  is the path with the fixed prefix trimmed. It is pasted unescaped into the
  filter URL. Each item's `value` goes through `strconv.Atoi(fmt.Sprintf("%v", v))`,
  modelled by `ScoreOf` on the float64 the JSON decoder produced (the decoder
  has already rounded each literal, so `3.0000000000000001` arrives as 3). The handler's loop sums the scores and stops
  at the first failure: a non-object item panics, and a value that does not
  coerce gives a 500. The average is an exact `sum / count`. With no items the
  body is the fixed text `{"averageRating": 0}`.
- **Auth mapping** (`handlers/auth.go`, module `Auth`): pure functions that
  build the payloads posted upstream and turn the record store's answer into
  the response. `IsAuthorized` accepts any non-empty `Authorization` header.

Supporting modules: `Wrappers` (Option), `GoText` (`strconv.Atoi`, `%d`
formatting, `strings.TrimPrefix`, zero-value map reads), `Json` (values as
`encoding/json` decodes them), and `Http` (the upstream reply as an input, the
response, and `http.Error`).

Every network call is replaced by an input: an `Upstream` value is either
`Unreachable` or a `Reply` with a status and a payload. The payload is either
`Unreadable` or the raw text together with its abstract JSON decoding. The
clock is the `now: Int64` parameter of `HandleLogin`.

Where one would expect something other than what the code does, the model
follows the code:
- One would expect logout to revoke the session; the code does not delete it,
  so a replayed cookie value still passes the gate (`LogoutKeepsGate`,
  `ReplayAfterLogout`).
- One would expect every login to get its own session; two logins in the same
  second share one id, and the later one takes it over
  (`SameSecondLoginsCollide`).
- One would expect the proxy to pass on upstream errors; it never checks the
  upstream status before it parses the body, and answers 200.
- One would expect every record listing to be sanitized; `GetRecipes` returns
  the upstream body unsanitized.
- One would expect a session to end when its cookie expires; nothing expires
  on the server.
- One would expect `/auth` to be reachable. `handleLogin` and `handleLogout`
  are registered on the default mux (main.go:45-46), but the server listens
  with the separate mux built by `setupRoutes` (main.go:50-53), which holds
  only the two gated routes. In the program as written no login handler is
  reachable, no session is ever stored, and the gate answers 401 to every
  `/api/recipes` and `/api/ratings` request. The handlers are modelled as
  written, on their own.

## Model

| member | source | states |
|---|---|---|
| `GoText.Atoi` | handlers/recipes.go:85 | an accepted string is an optional sign followed by at least one digit and only digits (no blanks, point or exponent); the value is within the int64 range (which value, and that out-of-range numerals are refused, is stated by `AtoiAcceptsNumerals`) |
| `GoText.AtoiAcceptsNumerals` | handlers/recipes.go:85-88 | every signed or unsigned run of digits is accepted with its signed value, leading zeros included, exactly when that value lies within int64; otherwise it is refused (strconv's range error, which the handler answers with 500 "Invalid score value") |
| `GoText.Decimal` | main.go:101 | `%d` of a natural prints a non-empty run of digits, with a leading zero only for 0 |
| `GoText.Itoa` | main.go:101 | `%d` prints a leading minus exactly for negative values |
| `GoText.DecimalValue` | main.go:101 | reading back the printed digits gives the number |
| `GoText.AtoiItoa` | main.go:101 | round trip: Atoi reads back every int64 that `%d` prints |
| `GoText.ItoaInjective` | main.go:101 | two int64 values print the same exactly when they are equal |
| `GoText.TrimPrefix` | handlers/recipes.go:46 | the recipe id is the path minus the prefix when the path starts with it (prefix + id == path), the path itself otherwise |
| `Json.DecodesAsMap` | handlers/recipes.go:72-76 | decoding into a Go map fails exactly on a boolean, a number, a string or an array; an object or `null` decodes |
| `Json.ItemsOf` | handlers/recipes.go:79 | the `items` value is found iff the envelope is an object whose `items` is an array, and then it is that array's elements |
| `Http.Error` | main.go:82 | the response has the given status and a plain-text body that is the message followed by a newline |
| `GoText.Lookup` | main.go:127 | a missing key of a Go string map reads as "" |
| `Sessions.SessionId` | main.go:101 | the session id starts with "sess-" and the login's Unix second can be read back from it |
| `Sessions.LoginPayload` | main.go:89-92 | the login posts exactly `identity` = username and `password` = password |
| `Sessions.Login` | main.go:101-102 | after a login the id maps to the user name, replacing any earlier entry, and every other key keeps its value |
| `Sessions.Admits` | main.go:126-127 | the gate admits a request iff it carries a `session_id` cookie whose value is a stored key mapped to a non-empty name |
| `Sessions.LoginAdmitsItsCookie` | main.go:101-131 | the cookie issued by a login passes the gate exactly when the user name is non-empty |
| `Sessions.LoginKeepsOtherSessions` | main.go:101-131 | a login does not change the gate's answer for any other cookie value |
| `Sessions.DistinctSecondsKeepBothSessions` | main.go:101-102 | logins in different seconds get different ids, so the earlier user's session survives the later login |
| `Sessions.SameSecondLoginsCollide` | main.go:101-102 | two logins in the same second share an id: the first user's cookie then resolves to the second user |
| `Sessions.SessionStore.constructor` | main.go:26 | the store starts empty |
| `Sessions.SessionStore.HandleLogin` | main.go:80-112 | bad form: 400, nothing sent, store unchanged; otherwise the credentials are posted to the record store's password check; upstream unreachable or not 200: 401, store unchanged; 200: the store is `Login(old, username, now)` and the reply is an HttpOnly session cookie expiring 24 hours later with a 303 redirect to "/" |
| `Sessions.SessionStore.HandleLogout` | main.go:114-122 | sends an empty `session_id` cookie expired at the epoch and "Logged out"; it modifies nothing, so the session stays in the store |
| `Sessions.SessionStore.AuthMiddleware` | main.go:124-133 | the request is forwarded unchanged iff the cookie is present, its value is in the store, and it maps to a non-empty name; otherwise 401 "Unauthorized" and the wrapped handler never runs |
| `Sessions.LogoutKeepsGate` | main.go:114-133 | for every request, the gate answers the same after a logout as before it |
| `Sessions.ReplayAfterLogout` | main.go:80-133 | after a successful login of a non-empty user and a logout, a request carrying the issued cookie value still passes the gate |
| `Proxy.CollectionUrl` | main.go:137 | the URL is the record store's collections base, the collection name verbatim, then `/records`; the name can be read back from it |
| `Proxy.Sanitize` | main.go:160-167 | an envelope with an `items` array keeps its kind and gets `StrippedItems` of that array as its new `items`; any other envelope, a nil map included, is unchanged |
| `Proxy.StripItem` | main.go:162-165 | an object item loses exactly `collectionId` and `collectionName` and keeps every other field; a non-object item is unchanged |
| `Proxy.StrippedItems` | main.go:160-167 | same length, item i of the result is item i stripped |
| `Proxy.SanitizeRemovesInternalKeys` | main.go:160-167 | no object in the sanitized `items` array has an internal key |
| `Proxy.SanitizeKeepsItems` | main.go:160-167 | the items keep their count and order; non-object items are unchanged; object items keep every non-internal key and value |
| `Proxy.SanitizeKeepsEnvelope` | main.go:160-167 | every top-level key and every value other than `items` is kept; an envelope without an `items` array (or a nil map) is unchanged |
| `Proxy.StripItemIdempotent` | main.go:162-165 | stripping an item twice equals stripping it once |
| `Proxy.SanitizeIdempotent` | main.go:160-167 | sanitizing twice equals sanitizing once |
| `Proxy.StripInPlace` | main.go:160-167 | the in-place loop that deletes the two keys from each object item leaves the array equal to `StrippedItems` of its old contents |
| `Proxy.ProxyRequest` | main.go:135-179 | requests `/api/collections/<name>/records`; unreachable: 500; unreadable: 500; not decodable into a map: 500 "Failed to parse response"; otherwise 200 with `Sanitize` of the envelope, whatever the upstream status |
| `Recipes.GetRecipes` | handlers/recipes.go:15-43 | requests the recipe listing with its author expanded; unreachable: 500; a non-200 upstream status is mirrored; unreadable: 500 "Failed to read response"; not decodable into a map: 500 "Failed to parse JSON"; the answer is 200 iff the upstream said 200 and the body decodes into a map, and then it is the upstream body byte for byte, unsanitized |
| `Recipes.RecipeId` | handlers/recipes.go:46 | the recipe id is what follows `/api/ratings/average/` when the path starts with it, and the whole path otherwise |
| `Recipes.RatingsUrl` | handlers/recipes.go:50 | the filter URL is the fixed prefix, the id verbatim (no escaping, quotes included), and a closing quote, so the id can be read back from it |
| `Recipes.RatingsUrlInjective` | handlers/recipes.go:50 | distinct recipe ids give distinct filter URLs |
| `Recipes.ScoreOf` | handlers/recipes.go:85 | a coerced score is within the int64 range; a JSON number coerces iff it prints as a plain integer (integral, below 10^6 in magnitude), and then to its own value |
| `Recipes.Scan` | handlers/recipes.go:82-91 | if the loop runs to the end every item is rateable; if it stops, it stops with the failure of some item that is not rateable |
| `Recipes.ScoreOfAcceptsOnlyNumerals` | handlers/recipes.go:85 | only strings and integral numbers below 10^6 in magnitude can coerce; a string coerces exactly as Atoi reads it; a missing value or null gives what Atoi makes of "<nil>", a boolean what it makes of "true"/"false" (nothing, in each case) |
| `Recipes.AtoiRefusesComposites` | handlers/recipes.go:85 | what `%v` prints for an array ("[...]") or an object ("map[...]") never reads as a number |
| `Recipes.ScoreOfInteger` | handlers/recipes.go:85 | every integral JSON number below 10^6 in magnitude coerces to itself |
| `Recipes.SumScoresAppend` | handlers/recipes.go:90 | adding an item to the list adds its score to the sum |
| `Recipes.ScanTotal` | handlers/recipes.go:82-91 | the loop completes iff every item is an object whose value coerces, and then its total is the sum of the scores |
| `Recipes.ScanFailureStops` | handlers/recipes.go:83-89 | once an item fails, the items after it are never looked at |
| `Recipes.FirstFailureDecides` | handlers/recipes.go:83-89 | the first failing item decides the outcome: a non-object panics, a bad value is a 500, even if later items are valid |
| `Recipes.PermutationRateable` | handlers/recipes.go:82-91 | reordering the items does not change whether they all coerce |
| `Recipes.SumScoresPermutation` | handlers/recipes.go:82-91 | the sum of the scores does not depend on the order of the items |
| `Recipes.AverageOutcome` | handlers/recipes.go:82-107 | the handler panics only if some item is not an object; otherwise it answers 200, or 500 "Invalid score value" only if some object item's value does not coerce |
| `Recipes.AverageOfItems` | handlers/recipes.go:82-107 | the loop that sums the scores and stops at the first failing item ends with exactly `AverageOutcome` of the items |
| `Recipes.AverageIsMean` | handlers/recipes.go:82-107 | the answer is 200 iff every item coerces; with no items the body is exactly `{"averageRating": 0}`; otherwise the average is sum / count |
| `Recipes.AverageIgnoresOrder` | handlers/recipes.go:82-100 | permuting coercible items does not change the response |
| `Recipes.AverageExamples` | handlers/recipes.go:82-107 | ratings 3 and "5" average to 4; a first rating "abc" gives a 500 "Invalid score value", whatever the ratings after it are |
| `Recipes.GetAverageRecipeRating` | handlers/recipes.go:45-108 | requests the filter URL of the trimmed id; unreachable: 500; a non-200 status is mirrored; unreadable or undecodable: 500; no `items` array: panic; otherwise the outcome is `AverageOutcome` of the items |
| `Auth.DecodeStringMap` | handlers/auth.go:12-16 | the request body decodes iff it is JSON null or an object whose values are all strings or null; keys are kept, and null values read as "" |
| `Auth.SignUpPayload` | handlers/auth.go:19-23 | the sign-up record has exactly `email`, `password` and `passwordConfirm`, the last equal to `password`; missing inputs are "" |
| `Auth.SignUp` | handlers/auth.go:11-48 | undecodable body: 400 with no upstream call; otherwise the record is posted to the users collection; unreachable: 500; the response status is the upstream status, and 201 means "User created successfully" |
| `Auth.SignInPayload` | handlers/auth.go:59-62 | the sign-in body has exactly `identity` = the input's `email` and `password` |
| `Auth.TokenOf` | handlers/auth.go:85-96 | a token is found iff the answer starts with a JSON value (text after it ignored, as `json.Decoder` does) that decodes into a map whose `token` is a string, and then it is that string; an unread or undecodable answer fails with "Failed to read response", a missing or non-string token with "No token received" |
| `Auth.SignIn` | handlers/auth.go:51-102 | undecodable body: 400 with no upstream call; otherwise the credentials are posted to the password check; unreachable: 500; any non-200: 401; the answer is 200 iff upstream said 200 with a string token, and then its body is a JSON object whose only key is `token`, equal to that token |
| `Auth.SignInHidesUpstreamStatus` | handlers/auth.go:79-82 | every non-200 upstream answer, whatever its code and body, gives the same response |
| `Auth.PayloadsCarryCredentials` | handlers/auth.go:19-23 | a caller's email and password reach the record store unchanged: the password twice on sign-up, the email as identity on sign-in |
| `Auth.IsAuthorized` | handlers/auth.go:105-115 | authorized iff the `Authorization` header is non-empty; otherwise a 401 is written and false returned |

## Left out

- Network and process plumbing: `http.Get`/`http.Post`, reading bodies, `main`, `setupRoutes`, `ListenAndServe` and PocketBase startup (main.go:28-63). Replies are inputs; the handlers and the gate are modelled on their own rather than wired to routes (how the routes are actually wired is described above).
- Templ rendering and the embedded HTML page (main.go:18-19, 41-44): UI and a foreign library.
- handlers/ratings.go is not part of this model: it passes the upstream body through with only a status check.
- Byte-level JSON: decoding is an input and encoding is not modelled. A reply body carries both what `json.Unmarshal` makes of the whole text (`Payload.decoded`, used by `proxyRequest`, `GetRecipes` and `GetAverageRecipeRating`) and the first value `json.Decoder` reads, trailing text ignored (`Payload.leading`, used for the sign-in token). The request bodies of `SignUp` and `SignIn` are likewise the first value the decoder reads. How the two readings of one text relate is not modelled. The encode-failure branches (main.go:169-174, handlers/auth.go:26-31 and 64-69) cannot fire on these values and are left out.
- Float64: the average is the exact rational `sum / count`, not float64 division. The encoder's formatting and trailing newline are not modelled.
- `%v` of a number that is not a plain integer is not spelled out. `ScoreOf` uses only the fact that such a rendering holds a "." or an "e", which Atoi refuses. `-0` is not distinguished from `0`; both coerce to 0.
- Int overflow of `totalScore`: the sum is unbounded.
- Concurrent, unsynchronized access to `sessions`: the model is single-threaded.
- Time: one `now` is used for both `time.Now()` calls in `handleLogin`.
- Response headers: `Content-Type`, and the headers set by `http.Error`, are not modelled. Neither is the body `http.Redirect` writes. The redirect is modelled as its status and location.
- Logging.
- Multi-valued form fields and cookies: a form is a map from field to its first value, and the cookies are a map by name (`r.Cookie` returns the first). A form that fails to parse is `None`.
- A panic inside a handler is the `Panic` outcome. What `net/http` then does to the connection is not modelled.
