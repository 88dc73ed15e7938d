# go-soda: query model, paging session and resource URLs in Dafny

This project models the logic of go-soda, a Go client for SODA (the Socrata Open Data API). The HTTP layer is left out. The model has six modules.

- **Queries**: a SoSQL query (`QuerySpec`, and the class `SoSQL` whose methods update it in place) and its serialisation into URL parameters. A parameter is emitted only for a field that is set. Sort keys become `column ASC` / `column DESC`, joined by commas in insertion order. Limit and offset are written in decimal when they are positive. Equality filters are merged with the query's parameters: filters go in first, so on a name collision the query's value wins. `ParseQuery` reads parameters back into a query. The round-trip lemma `QueryRoundTrip` shows that serialisation loses nothing when column names have no comma.
- **Requests**: the class `GetRequest`.
  - `Get` refuses an offset without an order before any request exists.
  - `GetEndpoint` fills in the default format.
  - `URLValues` merges filters and query parameters.
  - `Count`, `Fields` and `Modified` override the format, columns, order and (for the last two) limit. They restore these fields on every path; each ensures `unchanged(this) && unchanged(query)`.
  - Because these three methods clear the order but keep the offset, they fail with the offset/order error whenever the query's offset is positive. This is how the source behaves, and the model keeps it.
- **Paging**: the class `OffsetGetRequest`, a session that hands out windows `[offset, offset + n)` of a counted result set.
  - Each `Next` call is one atomic step.
  - A ghost history of the windows handed out so far is kept contiguous from 0 to `offset` (`Inv`). A session is ready for `Next` (`Valid`) when `Inv` holds and the mutex is free. `IsDone` and `Count` need only `Inv`, because neither takes the mutex.
  - Contiguous windows never share a record (`WindowsDisjoint`). When the session is done they cover exactly `[0, count)` (`IsDone`).
  - Once done, `Next` returns `Done` and changes nothing. Without an order it returns an error and changes nothing.
- **Resources** (metadata.go): splitting a resource URL into `scheme://host` and its last path segment, validating the identifier (9 characters, `-` at index 4), building `<base>/views/<id>`, and classifying the metadata fetch.
- **Text**: the Go library string functions the client uses (`strings.Join`, `strings.Split`, `strings.TrimSuffix`, `strings.Replace`, `%d`), each with a round-trip or reference lemma.
- **Outcomes**: `Option`, `Result`, the client's errors, URL parameters (`Values`, a map from name to list of values) and `Request`. A `Request` is what would go to the transport: the URL, the parameters and the app token.

The transport is an input, not a call. Where the source sends a request, a method returns the `Request` it would send (or `None` when it fails before sending). What the transport and the decoders give back is a parameter of the method:
- `Count` receives the decoded count strings, plus `atoi` in place of `strconv.Atoi`.
- `Fields` receives the first CSV record.
- `Modified` receives the reply headers.
- `Do` / `GetColumns` receive the HTTP response.
- `newMetadata` receives the URL as `url.Parse` splits it.

Two behaviours of the code are kept as they are.
- The count conversion at soda.go:113 has no sign check: `Atoi`'s result goes straight to `uint`, so `ToUint` wraps negative values.
- The no-order path of `Next` (soda.go:305-306) returns without unlocking. `OffsetGetRequest.NextAsWritten` models it, and the model's `Next` corrects it: see Findings.

## Model

| member | source | states |
|---|---|---|
| Text.DecimalRoundTrip | soda.go:275-280 | `$limit`/`$offset` are written in decimal so that reading the digits back gives the number |
| Text.SplitJoin | soda.go:253 | a comma-joined column list splits back into the same columns when none contains a comma |
| Queries.OrderValue | soda.go:259-267 | the `$order` value is empty exactly when there is no sort key |
| Queries.OffsetWithoutOrder | soda.go:50 | Get's guard `NeedsOrder` refuses exactly the queries whose parameters would carry `$offset` without `$order` |
| Queries.OrderTerms | soda.go:258-266 | one term per sort key, in insertion order, `column DESC` for descending keys and `column ASC` otherwise |
| Queries.QueryValuesFields | soda.go:250-281 | each of `$select`, `$where`, `$order`, `$q`, `$group` is present iff its field is non-empty, `$limit`/`$offset` iff positive, each carrying the field's text |
| Queries.QueryValues | soda.go:250-281 | only the seven SoSQL parameter names are emitted, each with a single value |
| Queries.EmptyQueryValues | soda.go:250-281 | a query serialises to no parameters exactly when every field has its zero value |
| Queries.AddOrderAppends | soda.go:234-239 | appending a sort key appends its term at the end of the `$order` value, after a comma, leaving earlier terms as they were |
| Queries.OrderRoundTrip | soda.go:258-268 | the `$order` value reads back to the same sort keys with the same directions, in the same order |
| Queries.QueryRoundTrip | soda.go:250-281 | the parameters of a query determine the query (comma-free column names) |
| Queries.SerialisedExample | soda_test.go:38-47 | the full query of the source's test serialises to the `$select`, `$where`, `$order`, `$limit`, `$offset` values it asserts |
| Queries.FilterValues | soda.go:197-203 | one single-valued parameter per filter column, carrying the filter value |
| Queries.RequestValues | soda.go:65-74 | the merged parameters hold every filter and every query parameter; on a shared name the query's value wins |
| Queries.RequestRoundTrip | soda.go:65-74 | with filters on ordinary columns, both the filters and the query can be read back from the merged parameters |
| Queries.SoSQL.AddOrder | soda.go:234-239 | appends exactly one sort key at the end |
| Queries.SoSQL.ClearOrder | soda.go:242-247 | leaves no sort key |
| Queries.SoSQL.OrderString | soda.go:258-267 | the term-by-term loop builds the `$order` value of the current sort keys |
| Queries.SoSQL.URLValues | soda.go:250-282 | the method computes exactly the serialisation of the query's current value |
| Requests.DefaultFormat | soda.go:58-60 | an empty format becomes `json`; any other format is kept |
| Requests.GetRequest.constructor | soda.go:38-45 | a new request has no format, no filters, an all-default query and the metadata of its endpoint |
| Requests.GetRequest.GetEndpoint | soda.go:57-62 | sets an empty format to `json` and returns `endpoint + "." + format` |
| Requests.GetRequest.URLValues | soda.go:65-74 | the two copying loops produce the merge of filters and query parameters |
| Requests.GetRequest.Get | soda.go:48-54 | an offset without an order fails before any request, leaving the format as it was; otherwise the request carries the endpoint URL, the merged parameters and the app token |
| Requests.CountResult | soda.go:93-113 | the count of a count reply; an error for a failed reply, `empty count response` for no rows, and the parser's error for a non-numeric count; the value is the parsed integer modulo 2^64 |
| Requests.ToUint | soda.go:113 | `uint(i)` lies below 2^64, is `i` for values in range, and is congruent to `i` modulo 2^64 |
| Requests.CountQuery | soda.go:89-91 | the count query selects only `count(*)`, has no order and keeps every other field, so it needs an order exactly when the offset is positive |
| Requests.BareQuery | soda.go:168-171 | the field-list and last-modified query selects all columns, has no limit and no order and keeps every other field, so it needs an order exactly when the offset is positive |
| Requests.GetRequest.Count | soda.go:78-114 | sends `count(*)` without an order in json (or fails when the offset is positive), and leaves the request exactly as it was on every path |
| Requests.Underscored | soda.go:147-150 | one reported name per column, each as long as the column's name and without spaces |
| Requests.RenameFields | soda.go:147-150 | the loop fills a fresh slice with each header name, spaces replaced by underscores |
| Requests.UnderscoredFields | soda.go:147-150 | one reported name per column, none containing a space, names without spaces unchanged |
| Requests.GetRequest.Fields | soda.go:118-152 | sends all columns without limit or order in csv (or fails when the offset is positive), returns the renamed header row, and leaves the request exactly as it was on every path |
| Requests.LastModified | soda.go:179-185 | the SODA truth header if set, else `Last-Modified` if set, else the missing-header error |
| Requests.GetRequest.Modified | soda.go:155-188 | sends all columns without limit or order in json (or fails when the offset is positive), returns the last-modified stamp, and leaves the request exactly as it was on every path |
| Paging.NextWindow | soda.go:308-312 | the window starts at the offset, holds `number` records or, when fewer remain, exactly the rest, and never passes the count |
| Paging.ContiguousExtend | soda.go:311-314 | a window starting where the last one ended keeps the history contiguous |
| Paging.ContiguousCovers | soda.go:299-317 | contiguous windows from `a` to `b` cover exactly the records `a <= x < b` |
| Paging.ContiguousOrdered | soda.go:311-314 | every later window starts at or after the end of every earlier one |
| Paging.WindowsDisjoint | soda.go:311-314 | no record lies in two windows |
| Paging.ScheduleCovers | soda.go:299-317 | calls of a fixed positive size hand out the remaining records exactly once |
| Paging.ScheduleLength | soda.go:299-317 | they take ceil(remaining / size) calls |
| Paging.OffsetGetRequest.constructor | soda.go:336 | a session starts at offset 0 with nothing handed out |
| Paging.OffsetGetRequest.IsDone | soda.go:325-327 | done iff the offset reached the count, and then the windows handed out cover exactly `[0, count)` |
| Paging.OffsetGetRequest.Count | soda.go:320-322 | the stored total, never below the offset |
| Paging.OffsetGetRequest.Next | soda.go:299-317 | `Done` with nothing changed once done (so on every later call too); the order error with nothing changed when there is no order; otherwise writes the window into the query's offset and limit, advances the offset past it, keeps the history contiguous, and returns the request; the mutex is released on every path |
| Paging.NewOffsetGetRequest | soda.go:331-337 | a session starting at 0 with the request's count, or the count's error, leaving the request unchanged |
| Paging.WrappingAdd | soda.go:308 | the 64-bit unsigned sum: below 2^64, and either the true sum or the true sum less 2^64 |
| Paging.ClampAsWritten | soda.go:308-314 | as written: the window starts at the offset and holds either `number` records or the rest, and the new offset is the wrapped sum of offset and length, never past the count |
| Paging.ClampAsWrittenOverflows | soda.go:308-314 | with the written 64-bit test, a huge request runs the window past the count and moves the offset back |
| Paging.ClampAsWrittenRepeats | soda.go:308-314 | after records 0 to 4 have been handed out, that request moves the offset back to records the history already covers |
| Paging.ClampAsWrittenWithoutOverflow | soda.go:308-314 | without wrap-around the written clamp is `NextWindow` |
| Paging.OffsetGetRequest.NextAsWritten | soda.go:299-317 | statement by statement as written, from any offset up to the count with the mutex free: `Done` with the mutex released once done; with no order, the error with the mutex still held, so the session is no longer valid and no later `Next` can run; otherwise the wrapped clamp and the wrapped new offset (never past the count, so it can be called again), the query's offset and limit, the mutex released and the request returned |
| Resources.Url | metadata.go:18-23 | fails iff the base is empty or the identifier is not 9 characters with `-` at index 4; otherwise `base + "/views/" + identifier` |
| Resources.Identifier | metadata.go:76-77 | the identifier never contains `/` |
| Resources.NewMetadata | metadata.go:65-80 | the zero value for an unparsable URL; otherwise base `scheme://host` and a slash-free identifier |
| Resources.IdentifierIsLastSegment | metadata.go:76-77 | the identifier is the segment after the last slash, with or without one trailing slash |
| Resources.TrailingSlashTolerated | metadata.go:76 | one trailing slash does not change the identifier |
| Resources.UnparsedUrlRefused | metadata.go:69-72 | the zero metadata of an unparsable URL has no view URL |
| Resources.ViewUrlOfResource | metadata.go:18-22 | a resource with a well-formed identifier gets `scheme://host/views/<id>`, whose last segment is the identifier |
| Resources.ResourceExample | soda_test.go:168-185 | both test URLs, with and without a trailing slash, give `https://data.ct.gov` and `y6p2-px98` |
| Resources.Do | metadata.go:25-47 | a refused view URL fails with no request made; a status of 400 or more is an error carrying status and body; success only for a status below 400 with a decoded body |
| Resources.GetColumns | metadata.go:55-61 | the document's columns, or an empty list together with `Do`'s error |

## Left out

- The HTTP execution in `get` (soda.go:340-369) and `http.DefaultClient.Get` are I/O. This covers the transport, the status classification of `get`, its error text, and closing bodies. A request is a `Request` value, and what comes back is a method parameter.
- `url.Values.Encode` is left out: percent-escaping and key sorting are library behaviour. Parameters stay a map from name to values.
- `url.Parse` is library parsing. Its scheme, host and path are an input of `NewMetadata` and of the `GetRequest` constructor.
- JSON and CSV decoding, `strconv.Atoi` and `time.Parse(time.RFC1123, …)` are library parsers. `Atoi` is a function parameter of `Count`. `Modified` returns the header text that would be parsed.
- Requests.GetRequest.Modified: returns the last-modified header text rather than a parsed time, because time parsing is not modelled.
- `sync.Mutex` becomes a `locked` flag, and each `Next` is one atomic step, so interleavings between calls are not modelled. The embedded `sync.WaitGroup` has no behaviour here.
- The `Metadata` and `Column` structs have no behaviour. The decoded document keeps only its column list, whose element type is a type parameter.
- `metadata.Get` (metadata.go:50-52) only calls `do`, so `Resources.Do` stands for it.
- Error messages are not modelled. Each error is a constructor of `Outcomes.Error`, and errors from code outside the model are carried as `External`.
- `uint` is 64 bits in the source, but limit, offset, count and batch size are unbounded naturals here. The 64-bit wrap is modelled only for the cast in `Count` (`ToUint`) and for the overflow finding (`ClampAsWritten`, `OffsetGetRequest.NextAsWritten`).
- `len(identifier)` counts bytes in Go and characters here. The two agree for the ASCII identifiers SODA uses.
- `Header.Get` canonicalises header names. Here the names are matched exactly.
- `Next(0)` before the end sets the limit to 0, so `$limit` is omitted and the server returns its default page (soda.go:215: 1000 rows) from the current offset. The offset does not advance, so the next call fetches those rows again. The model records an empty window, so for `number == 0` the disjointness (`WindowsDisjoint`) and coverage (`IsDone`) results describe the offsets handed out, not the rows the server returns.

## Findings

| source | as written | input that shows it | evidently intended | confidence | as-written member | corrected member |
|---|---|---|---|---|---|---|
| soda.go:308-314 | the clamp tests `o.offset+number > o.count` in 64-bit unsigned arithmetic, and the sum can wrap | offset 5, count 10, `Next(2^64 - 3)`: the sum wraps to 2, so nothing is clamped, the limit becomes 2^64 - 3, and the offset becomes 2, so records 2 to 4 are handed out again | hand out at most `count - offset` records and never move the offset back | not executed; medium (needs a very large batch size) | Paging.ClampAsWritten | Paging.OffsetGetRequest.Next |
| soda.go:305-306 | the no-order path returns without `o.m.Unlock()` | a session whose request has no sort key: the first `Next` returns the error with the mutex held, and every later `Next` blocks in `Lock` | release the mutex before returning the error | not executed; high | Paging.OffsetGetRequest.NextAsWritten | Paging.OffsetGetRequest.Next |

`Paging.ClampAsWrittenOverflows` exhibits the first input, and `Paging.ClampAsWrittenRepeats` shows the offset moving back into records already handed out. `Paging.ClampAsWrittenWithoutOverflow` shows that the written clamp is right whenever the sum does not wrap. The corrected `Next` clamps with `number > count - offset`. Its contract proves that the window stays within the count and that the history stays contiguous.

`Paging.OffsetGetRequest.NextAsWritten` exhibits the second defect: on the no-order path its contract ends with the mutex held and `Valid()` false, and every `Next` requires `Valid()`. The corrected `Next` keeps `Valid()`, which includes an unlocked mutex, on every return path.
