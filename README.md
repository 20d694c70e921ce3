# Read-only genealogy REST API: a Dafny model of its request pipeline

This project models the request handler of the `api-rest` webtrees module
(`ApiRestModule.php`). The handler serves two read-only endpoints,
`/api/individuals/{tree}` and `/api/families/{tree}`, behind an API key.
The model covers:

- **Dispatcher** (`handle`). Its gates run in order: API enabled (503),
  credential (401), optional request logging, tree lookup (404), route by
  path prefix (404 for any other path), and the `catch` that turns a thrown
  exception into a 500 carrying the exception's message.
- **AuthGuard** (`isAuthenticated`). A PHP-empty stored key (`""` or `"0"`)
  rejects every request. Otherwise an `Authorization` header matching
  `/^Bearer\s+(.+)$/i` decides alone. Only when the header does not match is
  the `api_key` query parameter compared. `hash_equals` is modelled as
  string equality.
- **Pagination** (the two `foreach` loops). `limit`/`offset` pass through
  PHP's `(int)` cast and are clamped. The loop skips `offset` records and
  collects at most `limit`. The `meta` block holds `total` (a separate count
  of the whole collection), the echoed window and `returned`.
- **Serializers** (the per-record array literals). Documents are JSON values
  whose objects keep PHP's key order. A missing spouse or a date that is not
  OK is a `null` under a key that is present.
- **ResponseBuilder** (`createJsonResponse`). Every response gets the
  caller's status and the same four headers.
- **RequestLogger** (`logRequest`). It is a class field, the log, that
  `Handle` appends one entry to.

Files: `wrappers.dfy` (Option, Result), `json.dfy` (documents),
`php_cast.dfy` (the `(int)` cast), `config.dfy` (stored preferences),
`http.dfy` (request, response, `createJsonResponse`), `auth_guard.dfy`,
`pagination.dfy`, `serializer.dfy`, `dispatcher.dfy` (the module class with
`Handle`, `LogRequest`, `GetIndividuals`, `GetFamilies`, and the functions
that specify them), `dispatch_properties.dfy` (gate order, routing, meta).

The clock (`date(...)`) is the `now` parameter of `Handle`. The tree store
(`Registry::treeService()->find`) is a parameter: a map from tree id to
either a tree or the message of the exception the lookup throws. Each of a
tree's two collections is likewise either its records or a thrown message.

Behaviour of the code that is easy to misread:

- A present but non-numeric `limit` casts to 0, giving zero records. It does
  not fall back to the default 100 (`Pagination.NonNumericLimit`).
- `limit` has no lower clamp. A negative limit is echoed in `meta.limit` and
  yields no records (`Pagination.DecimalLimit`, `Pagination.Page`).
- `empty()` also rejects the stored key `"0"` (`AuthGuard.PhpEmpty`).
- The error messages are the code's own strings.

## Model

| member | source | states |
|---|---|---|
| `PhpCast.IntCast` | ApiRestModule.php:255-256 | `(int)` of a string: leading whitespace skipped, an optional sign, then the longest run of digits, 0 when there is none; it carries no ensures of its own and is specified by `PhpCast.CastOfDecimal` and `PhpCast.NonNumericCastsToZero` |
| `Config.Preference` | ApiRestModule.php:202 | `getPreference($name, $default)`: the stored string when the setting exists, the default otherwise |
| `Config.ApiEnabled` | ApiRestModule.php:159 | the API is on only when API_ENABLED is exactly "1", and off when it was never stored (default "0") |
| `Config.LogRequests` | ApiRestModule.php:173 | logging is on only when LOG_REQUESTS is exactly "1", and off when it was never stored (default "0") |
| `Config.StoredKey` | ApiRestModule.php:202 | the stored API_KEY, "" when none was ever stored |
| `Http.HeaderLine` | ApiRestModule.php:209 | `getHeaderLine($name)`: the header's line, "" when the request has no such header |
| `PhpCast.CastOfDecimal` | ApiRestModule.php:255-256 | `(int)` of an integer's decimal spelling, followed by anything that does not continue the number, gives that integer back |
| `PhpCast.NonNumericCastsToZero` | ApiRestModule.php:255 | a value that does not start (after whitespace) with a digit or a signed digit casts to 0 |
| `Http.CreateJsonResponse` | ApiRestModule.php:358-368 | the response has the caller's status and payload and exactly the four fixed headers (JSON content type, CORS origin `*`, methods `GET, OPTIONS`, headers `Content-Type, Authorization`) |
| `Http.ErrorBody` | ApiRestModule.php:160 | an error body is an object with the single key `error` holding the message |
| `AuthGuard.Capture` | ApiRestModule.php:210 | what `\s+(.+)$` captures is non-empty, contains no line feed, and is preceded only by a non-empty run of whitespace |
| `AuthGuard.BearerToken` | ApiRestModule.php:209-210 | a match only happens for "Bearer" in any letter case, then whitespace, then the captured token, then at most one final line feed (soundness against the pattern) |
| `AuthGuard.BearerHeaderMatches` | ApiRestModule.php:210 | every header of that shape matches; the capture is the token itself when the token does not start with whitespace (completeness against the pattern) |
| `AuthGuard.PhpEmpty` | ApiRestModule.php:204 | `empty()` on a string holds for "" and for "0" and for nothing else |
| `AuthGuard.IsAuthenticated` | ApiRestModule.php:200-221 | a PHP-empty stored key rejects; a matching Bearer header accepts exactly when its token equals the key; only without one is `api_key` compared, and a missing `api_key` rejects |
| `AuthGuard.BearerOverridesQuery` | ApiRestModule.php:209-218 | two requests with the same matching Authorization header get the same verdict whatever their query strings |
| `AuthGuard.BearerKeyAccepted` | ApiRestModule.php:204-211 | `Bearer <stored key>`, in any letter case and with any whitespace gap, authenticates, provided the stored key is not PHP-empty (not "" or "0"), does not start with whitespace (the greedy `\s+` would take it) and contains no line feed (`.` does not match one) |
| `AuthGuard.NoCredentialRejects` | ApiRestModule.php:214-220 | no matching header and no `api_key`: rejected |
| `Pagination.QueryInt` | ApiRestModule.php:255-256 | `(int) ($params[$name] ?? $default)`: the cast of the parameter when present, the default (uncast) when absent |
| `Pagination.PageWindow` | ApiRestModule.php:255-256 | the limit is the smaller of the requested limit (default 100) and 1000; the offset is the larger of the requested offset (default 0) and 0 |
| `Pagination.DefaultWindow` | ApiRestModule.php:255-256 | without parameters the window is limit 100, offset 0 |
| `Pagination.DecimalLimit` | ApiRestModule.php:255 | a decimal limit is used as written up to 1000, so a negative one is kept |
| `Pagination.DecimalOffset` | ApiRestModule.php:256 | a decimal offset is kept when non-negative and raised to 0 otherwise; there is no upper bound |
| `Pagination.NonNumericLimit` | ApiRestModule.php:255 | a present non-numeric limit gives the limit 0, not 100 |
| `Pagination.Page` | ApiRestModule.php:261-286 | the window holds min(max(limit,0), max(0, n-offset)) records, the i-th being record offset+i; an offset past the end gives none |
| `Pagination.PagesTile` | ApiRestModule.php:261-286 | consecutive windows concatenate to the window spanning both: paging neither skips nor repeats records |
| `Pagination.CollectWindow` | ApiRestModule.php:258-286 | the skip/break loop returns exactly the serialized records of the window, in collection order |
| `Pagination.MetaBlock` | ApiRestModule.php:290-295 | meta has the keys total, limit, offset, returned in that order |
| `Pagination.PageBody` | ApiRestModule.php:288-296 | the body holds `data` and `meta`; `meta.total`, `meta.limit`, `meta.offset` are the given values and `meta.returned` is the length of `data` |
| `Serializer.DateValue` | ApiRestModule.php:277 | a date is null exactly when it is not OK, and otherwise its formatted minimum date |
| `Serializer.SpouseValue` | ApiRestModule.php:327-334 | a spouse is null exactly when absent, otherwise an object `{id, name}` of that person |
| `Serializer.IndividualDocument` | ApiRestModule.php:271-283 | every individual gives the same eight keys in order; birth/death dates are null exactly when not OK; the other fields are copied |
| `Serializer.FamilyDocument` | ApiRestModule.php:321-339 | every family gives the same seven keys; husband/wife are null (present, not omitted) exactly when absent; the marriage date follows the date rule; children are counted |
| `Serializer.SpouseDocuments` | ApiRestModule.php:327-334 | a recorded husband or wife appears as that spouse's own id and full name |
| `Dispatcher.ListOutcome` | ApiRestModule.php:252-297 | a list handler's result: the thrown message when reading the collection throws, otherwise a 200 whose body is the serialized window and whose meta total is the whole collection's size; its properties are proved in `DispatchProperties.RouteByPrefix` and `DispatchProperties.ListMeta` |
| `Dispatcher.IndividualsOutcome` | ApiRestModule.php:252-297 | `getIndividuals`: the list result over the tree's individuals with the individual serializer |
| `Dispatcher.FamiliesOutcome` | ApiRestModule.php:302-353 | `getFamilies`: the list result over the tree's families with the family serializer |
| `Dispatcher.Routed` | ApiRestModule.php:177-194 | past the credential only 200, 404 or 500 can come out, always with the JSON headers |
| `Dispatcher.Dispatch` | ApiRestModule.php:156-195 | every response has the four headers; a disabled API is 503 and a failed credential 401 whatever else the request holds |
| `Dispatcher.Logged` | ApiRestModule.php:159-175 | a request is logged exactly when the API is enabled, the credential passes and LOG_REQUESTS is "1"; proved against `Handle` and in `DispatchProperties.StatusNamesGate` |
| `Dispatcher.EntryFor` | ApiRestModule.php:236-242 | the log entry's address is `REMOTE_ADDR` or "unknown"; its user agent is the header line |
| `Dispatcher.ApiRestModule.LogRequest` | ApiRestModule.php:234-247 | one entry is appended to the log and nothing else changes |
| `Dispatcher.ApiRestModule.GetIndividuals` | ApiRestModule.php:252-297 | the loop-built response equals the individuals list specification, or the collection's exception |
| `Dispatcher.ApiRestModule.GetFamilies` | ApiRestModule.php:302-353 | the loop-built response equals the families list specification, or the collection's exception |
| `Dispatcher.ApiRestModule.Handle` | ApiRestModule.php:156-195 | the response is `Dispatch`'s; one entry is appended exactly when the API is enabled, the credential passes and logging is "1", and none otherwise |
| `DispatchProperties.StatusNamesGate` | ApiRestModule.php:158-175 | 503 iff the API is disabled; 401 iff enabled and the credential fails; a request is logged iff it got past both gates with logging on |
| `DispatchProperties.DisabledIgnoresRequest` | ApiRestModule.php:159-161 | with the API disabled every request gets the same 503, and none is logged |
| `DispatchProperties.UnknownTreeBeforeRouting` | ApiRestModule.php:178-182 | an unknown tree is a 404 whatever the path |
| `DispatchProperties.LookupFaultIs500` | ApiRestModule.php:177-193 | a tree lookup that throws gives 500 with the exception's message as `error` |
| `DispatchProperties.RouteByPrefix` | ApiRestModule.php:184-193 | `/api/individuals/` and then `/api/families/` select their list (200 with the window's documents, or 500 if reading throws); any other path gives 404 |
| `DispatchProperties.ListMeta` | ApiRestModule.php:288-296 | `meta.total` is the collection size whatever the window, limit/offset echo the clamped window, and returned = min(max(limit,0), max(0, total-offset)) = length of `data` |
| `DispatchProperties.FivePeopleScenario` | ApiRestModule.php:252-296 | five people with `limit=2&offset=4` give the fifth person's document alone and meta {5, 2, 4, 1} |

## Left out

- `logRequest`'s file write (`error_log` to the data directory) and its timestamp formatting: the log is a sequence field and the timestamp a parameter. A failing write is not modelled; the entry is always appended.
- `json_encode` (pretty printing, unescaped Unicode, a failed encoding) and the PSR response factory: the body is a structured JSON value.
- webtrees internals (`find`, `individuals()`, `families()`, `xref`, `fullName`, `gedcomName`, `minimumDate()->format`, `sex`, `url`, `children()->count()`): their results are record fields. An exception is modelled only when a whole lookup or collection read throws, not midway through iteration.
- PHP `Error`s that `catch (\Exception)` does not catch (a missing route attribute, a `TypeError` from array-valued parameters): not modelled.
- Header names are matched exactly; PSR-7's case-insensitive header names are not modelled.
- `\s` and the `/i` flag are taken with PCRE's default (C locale, ASCII) tables, and strings are sequences of characters rather than bytes.
- The constant-time behaviour of `hash_equals`: a timing property with no counterpart here; only its equality is modelled.
- `generateApiKey` (randomness), `getConfigAction`, `postConfigAction`, `getConfigLink`, `boot` (route registration) and the metadata getters: administration and framework wiring.
- module.php is not part of this model: it holds metadata getters and a constant translation table.
- PhpCast.IntCast: strings with an exponent ("1e3", which PHP reads as 1000) are read only up to the `e`; values beyond the 64-bit range are not saturated; array-valued query parameters are not modelled.
- Counters and limits are unbounded integers; PHP's 64-bit integers cannot overflow at these sizes.
