# Resource-serving core of the torrent-viewer backend, in Dafny

This project models the decision logic of a Go HTTP backend that serves JSON:API
resources:

- the **error model** (`herr`): the immutable error record, its `StatusCode()` parse with a
  500 fallback, its `Error()` text and the two singleton errors (duplicate-entry and
  unmatching-ids);
- **request parsing** (`requests`): the path `id` parsed the way Go's `strconv.Atoi` does
  (optional sign, decimal digits, signed 64-bit range), and `Paginate`, which turns a
  row count and the `page[size]` / `page[number]` query parameters into an offset and a
  limit, modelled exactly as written, with Go's wrapping 64-bit arithmetic;
- the **datastore layer** (`datastore`): the store connection as a `Store` object holding
  the table as a map from primary key to record, with count, fetch, paged fetch, fetch by
  id, store, update and delete and their error mapping (404 for a missing row, 409 for a
  client-supplied id, 500 for any driver failure);
- the **middleware gates** (`router/middlewares.go`): the Content-Type allow-list (415) and
  the firewall's Only/Except/Guard policy (401), both as loops proved against a
  declarative policy;
- the **router** (`router/router.go`): an object with an append-only route list and
  middleware list, capability-based route registration for resources, and the
  middleware composition of `ServeHTTP`.

Files: `wrappers.dfy` (Option, Result), `strconv.dfy` (decimal conversion and its inverse),
`herr.dfy`, `requests.dfy`, `datastore.dfy`, `middlewares.dfy`, `router.dfy`.

Things the model takes as parameters instead of computing them:

- Driver failures: every datastore operation receives the driver's outcome as a
  `fault: Option<string>` (None for success, or the driver's error text). `DeleteEntity`
  receives one for its count query and one for its delete.
- Regular-expression matching is a `Matcher` parameter standing for `Regexp.MatchString`.
  The firewall guard is a function of the request.
- The number of rows that `Paginate` receives is the result of counting,
  `Result<int, Error>`.

Behaviour of the code worth noting:

- The last-registered middleware is the outermost one (router/router.go:38-41).
- A firewall with a non-empty Only list refuses, with 401, a path that no Only pattern
  matches; such a request never reaches the route table.
- A valid `page[size]` is never applied: the limit is always 50.

## Model

| member | source | states |
|---|---|---|
| `Strconv.Atoi` | requests/requests.go:20 | succeeds exactly on an optional sign followed by at least one digit whose value is in the signed 64-bit range, with that value; a well-formed number outside the range is a range error |
| `Strconv.AtoiFormatInt` | herr/herr.go:56 | round trip: parsing the decimal text of n gives back n for every 64-bit n, and a range error for every other n |
| `Herr.Message` | herr/herr.go:51-53 | Error() is "HTTP ", the Code, ": ", the Title, " (", the ID and ")", stated piece by piece by position; `MessageIgnoresStatus` adds that Status, Detail and Source play no part |
| `Herr.StatusCode` | herr/herr.go:55-61 | the value of a decimal in-range Status; 500 when Status is not decimal or overflows |
| `Herr.StatusCodeOfFormatted` | herr/herr.go:55-61 | a Status holding the decimal text of any 64-bit integer yields that integer |
| `Herr.StatusCodeFallback` | herr/herr.go:56-59 | an empty Status, or one just past the 64-bit range, yields 500 |
| `Herr.StatusCodeNoRangeCheck` | herr/herr.go:56-60 | "999" yields 999 and "-1" yields -1: no HTTP range check |
| `Herr.SingletonErrors` | herr/herr.go:31-49 | duplicate-entry has status "409", pointer /data/id, no parameter, StatusCode 409; unmatching-ids has "400", /data/id, no parameter, StatusCode 400 |
| `Herr.MessageIgnoresStatus` | herr/herr.go:51-53 | Error() does not depend on Status, Detail or Source |
| `Herr.MessageWithoutCode` | herr/herr.go:51-53 | with an empty Code (as in both singletons) Error() is "HTTP : " + title + " (" + id + ")" |
| `Requests.First` | requests/requests.go:48-49 | a key's value is present iff the key occurs in the query, and it is the value of the key's first occurrence |
| `Requests.Wrap64` | requests/requests.go:63 | the result is a 64-bit integer congruent to the input modulo 2^64, equal to it when it already fits |
| `Requests.ParseID` | requests/requests.go:18-33 | no error iff the `id` variable (missing reads as "") is decimal and in range, returning its value; otherwise id 0 and integer-conversion / "400" with parameter `id` |
| `Requests.ParseIDFormatted` | requests/requests.go:18-33 | every in-range id written in decimal parses back; an id one past the range, such as 9223372036854775808, gives the integer-conversion error with a range-error detail |
| `Requests.Paginate` | requests/requests.go:40-79 | with a count, every failure is invalid-parameter on page[size] or page[number]; every success has a 64-bit offset, at most total when page[number] is given (it may be negative, see Findings); the lemmas below state each branch |
| `Requests.PaginateCountError` | requests/requests.go:40-44 | a count error is returned unchanged before any query parameter is read |
| `Requests.PaginateSizeRejected` | requests/requests.go:48-59 | a present page[size] yields invalid-parameter for page[size] iff it is not a positive in-range integer; this check comes before page[number] |
| `Requests.PaginateLimitIsDefault` | requests/requests.go:46-78 | every successful result has limit 50, whatever page[size] was given |
| `Requests.PaginatePageNumber` | requests/requests.go:61-73 | for any page[number] text s whose value, if decimal, does not overflow the offset: failure (invalid-parameter on page[number]) iff s is not an in-range decimal ("abc", "" included), its value p is below 1, or (p-1)*50 > total; on success offset = (p-1)*50 and 0 <= offset <= total |
| `Requests.PaginateNoPageNumber` | requests/requests.go:47-78 | without page[number] a successful result is offset 0, limit 50 |
| `Requests.PaginateOffsetEqualsTotal` | requests/requests.go:63-64 | a page starting exactly at total is accepted: the comparison is strict |
| `Requests.PaginateFirstValueOnly` | requests/requests.go:48-62 | appending further values for keys already present does not change the result |
| `Requests.PaginateIntended` | requests/requests.go:40-79 | the corrected pagination; a count error is returned unchanged |
| `Requests.PaginateIntendedBounds` | requests/requests.go:46-78 | in the corrected pagination the limit is the requested size (50 when page[size] is absent), the offset is (p-1)*limit and lies between 0 and total |
| `Requests.PaginateAgreesWithIntended` | requests/requests.go:40-79 | without page[size], and with page[number] absent, malformed or not large enough to overflow, the code as written and the corrected version agree |
| `Requests.ShadowedPageSize` | requests/requests.go:46-50 | page[size]=10 is accepted, but the limit is 50 as written and 10 when corrected |
| `Requests.OverflowedOffset` | requests/requests.go:62-64 | page[number]=288230376151711745 on an empty collection succeeds with a negative offset as written and is refused when corrected |
| `Datastore.Page` | datastore/datastore.go:69-80 | at most `limit` rows, the consecutive rows from `offset` on (a negative limit or offset is not applied), none past the end |
| `Datastore.PageSplit` | datastore/datastore.go:69-80 | the page of size n at o followed by the page of size m at o+n is the page of size n+m at o |
| `Datastore.Store.constructor` | datastore/datastore.go:12-13 | a fresh connection holds no rows |
| `Datastore.CountMatchesListing` | datastore/datastore.go:39-67 | the count of selected rows (the total pagination checks against) equals the length of the list of selected rows |
| `Datastore.Store.Listing` | datastore/datastore.go:56-67 | every selected row exactly once, in ascending key order, and nothing else |
| `Datastore.Store.CountEntities` | datastore/datastore.go:39-54 | the number of selected rows, or database-error "500" carrying the driver's message |
| `Datastore.Store.FetchEntities` | datastore/datastore.go:56-67 | all selected rows, or database-error |
| `Datastore.Store.FetchPagedEntities` | datastore/datastore.go:69-80 | the page of the selected rows (at most `limit` of them), or database-error |
| `Datastore.Store.FetchEntity` | datastore/datastore.go:82-102 | the row with that id; not-found "404" exactly when the driver succeeds and no such row exists, database-error "500" on any driver failure |
| `Datastore.Store.StoreEntity` | datastore/datastore.go:104-119 | the duplicate-entry singleton iff the record's id is non-zero, store untouched; a failed insert gives database-error and changes nothing; otherwise the record is inserted under a fresh positive key written back into it |
| `Datastore.Store.UpdateEntity` | datastore/datastore.go:121-132 | no existence check: only nil or database-error, never not-found; the row with the record's key is overwritten if present |
| `Datastore.Store.DeleteEntity` | datastore/datastore.go:134-163 | count failure gives database-error; no row gives not-found with the fixed detail and no delete; otherwise exactly that key is removed (or database-error if the delete fails) |
| `Datastore.CreateViewDeleteScenario` | datastore/datastore.go:104-163 | on a fresh store: a created record gets id 1, re-posting it gives duplicate-entry, viewing returns it, the first delete succeeds and the second gives not-found |
| `Middlewares.FirewallAllows` | router/middlewares.go:67-97 | the firewall policy: with a list configured, a request passes only if the guard agrees; with Only non-empty, a path no Only pattern matches is refused; with only Except, a path every Except pattern matches is refused |
| `Middlewares.Gate` | router/middlewares.go:32-97 | a gate refuses only with 415 (content type) or 401 (firewall); an empty accepted list refuses everything; a firewall with both lists empty forwards everything |
| `Middlewares.ServeContentType` | router/middlewares.go:32-40 | forwards iff the request's Content-Type equals some accepted entry; otherwise 415 without forwarding |
| `Middlewares.ContentTypeMiddleware` | router/middlewares.go:42-50 | the built gate forwards exactly the requests whose Content-Type is in the accepted list, else 415 |
| `Middlewares.ContentTypeCorners` | router/middlewares.go:32-39 | a missing header passes only if "" is accepted; an empty accepted list refuses everything |
| `Middlewares.ScanWithGuard` | router/middlewares.go:70-77 | authenticated iff some pattern selects the path and the guard agrees; the guard is consulted once per selecting pattern, and only once when it agrees |
| `Middlewares.ServeFirewall` | router/middlewares.go:67-97 | forwards iff the Only/Except/Guard policy allows, else 401; with both lists empty the guard is never called |
| `Middlewares.FirewallCorners` | router/middlewares.go:67-97 | Only non-empty: a path no pattern matches gets 401 and Except is ignored; only Except: a path every pattern matches gets 401; both empty: forwarded |
| `Middlewares.CompileSlice` | router/middlewares.go:99-105 | one compiled pattern per input pattern, in the same order |
| `Middlewares.FirewallMiddleware` | router/middlewares.go:107-118 | the built gate holds the compiled Only and Except lists and decides by the firewall policy |
| `Middlewares.ServerFirewallScenario` | main.go:48-51 | with Only "^/shows" and a guard that always agrees, a path the pattern does not match gets 401, one it matches is forwarded |
| `Router.RouteFor` | router/router.go:67-106 | the route's handler is the resource's capability handler; list and store use the collection path "/prefix", the others the member path "/prefix/{id:[0-9]+}"; the name is the prefix, a dot and a suffix; the method is GET exactly for list and view |
| `Router.ResourceRoutesShape` | router/router.go:66-108 | exactly one route per capability present, in the order list, store, view, update, destroy; none for an absent capability; none at all for a resource with no capability |
| `Router.ResourceRoutesDistinct` | router/router.go:67-106 | within one resource no two routes share method and path, and no two share a name |
| `Router.Compose` | router/router.go:37-44 | the handler's layers, innermost to outermost, are exactly the registered middlewares in registration order |
| `Router.Run` | router/router.go:37-44 | a request the handler does not pass on is answered 415 or 401, by one of the handler's own gates; `ComposeForwarded` and `ComposeOutermostLast` say which |
| `Router.ComposeForwarded` | router/router.go:38-43 | a request reaches the route table iff every registered gate passes it |
| `Router.ComposeOutermostLast` | router/router.go:38-43 | a refused request gets the answer of a gate that refuses it, and every gate registered after that one passed it: the last-registered refusing gate answers |
| `Router.PresentSorted` | router/router.go:66-108 | the capabilities probed in rank order come out in strictly increasing rank |
| `Router.RoutesForPresent` | router/router.go:66-108 | the routes registered for a probe order are RouteFor of each present capability, one each, in that order |
| `Router.FirewallBeforeContentType` | router/router.go:38-41 | with a content-type gate registered before a firewall, the firewall's 401 pre-empts the 415 |
| `Router.Router.constructor` | router/router.go:31-35 | a new router has no routes and no middlewares |
| `Router.Router.AddRoute` | router/router.go:47-55 | appends exactly the given route, leaves middlewares unchanged, returns the same router |
| `Router.Router.AddRoutes` | router/router.go:58-63 | appends the routes in slice order |
| `Router.Router.AddIfCapable` | router/router.go:67-74 | one capability probe: appends that capability's route iff the resource has it |
| `Router.Router.AddResource` | router/router.go:66-108 | appends exactly the resource's capability routes, in capability order, and leaves middlewares unchanged |
| `Router.Router.Use` | router/router.go:111-114 | appends exactly one middleware at the end, leaves routes unchanged, returns the same router |
| `Router.Router.ServeHTTP` | router/router.go:37-44 | the response Content-Type is the JSON:API media type; the outcome is that of the middlewares composed with the last registered outermost |

## Findings

| source | as written | input that shows it | evidently intended | confidence | as-written member | corrected member |
|---|---|---|---|---|---|---|
| requests/requests.go:49 | `size, err :=` declares a new `size` that shadows the outer one, so a valid page[size] is checked but never used | `page[size]=10` on 100 rows gives limit 50 | the requested size becomes the limit and is used in the offset | high (not executed) | `Requests.ShadowedPageSize` | `Requests.PaginateIntendedBounds` |
| requests/requests.go:63 | `(page - 1) * size` wraps in 64-bit arithmetic, and a negative result passes `offset > total` | `page[number]=288230376151711745` on an empty collection gives offset -4035225266123964416 | an out-of-range page number is refused with invalid-parameter | high (not executed) | `Requests.OverflowedOffset` | `Requests.PaginateIntendedBounds` |

## Left out

- `Strconv.Atoi`: the error detail quotes the input between double quotes without the escaping `strconv.Quote` applies to quotes, backslashes and non-printable characters.
- `Datastore.Store.UpdateEntity`: a record whose key is absent, including the blank key 0, changes no row. The model does not capture that the ORM skips blank fields, nor that with a blank key it issues an update with no key condition.
- `Datastore.Store.Listing`: "the store's default order" is taken to be ascending primary key. The driver does not promise an order.
- `Datastore.Store.FetchPagedEntities`: a negative limit or offset is treated as not applied, as the ORM's SQL generation does. The ORM itself is not part of this model.
- Driver failures are an input (`fault`). How they arise (timeouts, constraint violations, SQL generation) is not modelled. A failed insert is taken to leave the table unchanged.
- Soft delete: the `DeletedAt` column hides rows from every query, so deletion is modelled as removing the row.
- Regular expressions: matching is the `Matcher` parameter. Compiling is identity on the pattern text. `MustCompile`'s panic on a malformed pattern is not modelled.
- `Middlewares.ServeFirewall`: a nil Guard (the field left out of the configuration) panics on the first request whose path a pattern selects; the model's guard is always a function.
- The guard is a pure function of the request. A guard with side effects could answer differently on each call; the model counts guard calls instead.
- The `Meta` field of the error record is an opaque interface value and is not part of this model.
- `LoggingMiddleware`, the CORS middleware registered in main.go, and the log line `AddRoute` prints for each registered route (router/router.go:48) are not modelled: wall-clock timing, log output and a foreign library.
- Route dispatch by gorilla/mux (path matching, `Vars`, `StrictSlash`, not-found handling) is not modelled. A request that passes every gate is reported as reaching the route table.
- Handlers are references (a resource's capability handler, or a named handler function). What they do is not modelled.
- `ReceiveEntity` (jsonapi decoding, govalidator validation), `datastore.Init`, main.go, database/database.go, responses/responses.go and resources/show are not part of this model. They are I/O and foreign-library plumbing.
- Concurrency is not modelled: the model is sequential, so the race between counting and deleting does not arise.
- `DuplicateEntryError` is returned as a value. The model does not capture that the source returns a pointer to a shared package variable.
