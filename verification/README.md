# goscraper request builder and response wrapper, modelled in Dafny

goscraper wraps Go's `net/http` in a fluent builder. A caller creates a
request with `NewRequest(url, method, options...)`, may chain more
mutators (`WithData`, `WithJson`, `WithHeaders`, `WithContext`,
`WithBearerToken`), and calls `Do`, which returns a response wrapper with
`GetStatusCode`, `GetBody`, `GetBodyMap` and `Unmarshal`.

This project models those two pieces as immutable values driven by pure
transition functions:

- `Requests` (request.dfy) holds the builder state of request.go. It has the
  staged header map (exact keys, last write wins), the transport request
  (a multi-valued header map, an optional body and a context) and the
  `withData`/`withJson`/`withHeaders`/`withContext` flags. Options are a
  datatype, `RequestOption`, and `Apply` interprets them. The chain methods
  are the `ChainWith*` functions. `NewRequest` and `Do` are methods: the first
  applies the options in a loop, the second adds the staged headers in a loop.
- `HttpHeader` (header.dfy) gives net/http's `Header.Set` ("the value list
  becomes `[v]`") and `Header.Add` ("append `v`"). It also holds the loop
  `Do` uses to add staged headers. That loop visits the keys in any order,
  as Go's map iteration does.
- `Responses` (response.dfy) holds the response wrapper of response.go. Its
  body is an `Open(content, readError, afterClose)`/`Closed(afterClose)` stream. Every accessor routes
  through `GetBody`, which closes the stream on every path.
- `RequestFacts` (request_facts.dfy) holds lemmas about sequences of builder
  calls. Four of them are proved against independent reference definitions
  (`LastBody`, `ContentTypesAfter`, `StagedAfter`, `LastContext`).
- `Wrappers` (wrappers.dfy) holds `Option` and `Result`.

Parameters stand in for what the code delegates to code outside the
repository:
- `buildError` is net/http's verdict on building the request, which is where URL parsing happens.
- `TransportOutcome` is what `http.DefaultClient.Do` returns.
- The `decode` function is `json.Unmarshal`.
- `FormEncoded(d)` is the opaque form encoding of `d`.

Behaviour the model keeps from the code:
- A body is read once. `GetBody` closes the stream on every path, so a later
  accessor gets whatever the closed body yields. That outcome belongs to the
  transport and is a field of the stream (`AfterClose`). A net/http HTTP/1
  body with content fails with `http: read on closed response body`, and an
  HTTP/2 body fails with its own message. An empty body (`http.NoBody`)
  keeps reporting end of stream, so a second read returns no bytes and no
  error.
- `WithBearerToken` and `WithHeaders` touch only the staged map. Only the
  form and JSON mutators write the transport headers before `Do`.
- `WithJson` appends a `Content-Type` value, while `WithData` replaces the
  list. The model keeps this asymmetry as written.
- request.go and response.go declare different packages (`scraper` and
  `goscraper`). The model treats them as one program and uses response.go's
  two-result `GetBody`.

## Model

| member | source | states |
|---|---|---|
| Requests.Initial | request.go:169-177 | a freshly built request carries the given target and method, an empty header map, no body, no staged headers and no flags set, empty form data and JSON string, and the background context on the transport request |
| Requests.ApplyData | request.go:56-67 | the body becomes the form encoding of the data; `Content-Type` holds exactly `application/x-www-form-urlencoded`, earlier values discarded; other header keys, staged headers and the context are unchanged; `withData` is set |
| Requests.ApplyJson | request.go:74-81 | the body becomes the bytes of the JSON string; `application/json` is appended after the existing `Content-Type` values; nothing else but `jsonStr`/`withJson` changes |
| Requests.AddHeader | request.go:112-118 | the staged key takes the new value, other staged keys keep theirs, `withHeaders` is set, the transport request is untouched |
| Requests.AddHeaders | request.go:120-129 | the staged map becomes the old map overridden by the given map (keys of both, new values win), `withHeaders` is set, body and transport headers untouched |
| Requests.ApplyContext | request.go:99-105 | only the attached context changes, both in the builder and on the transport request |
| Requests.ApplyBearerToken | request.go:131-135 | staged `Authorization` becomes `Bearer <token>`, the staged keys are the old ones plus `Authorization`, other staged values unchanged, transport request untouched |
| Requests.Apply | request.go:164 | no option changes the target URL or the method |
| Requests.ApplyAllSnoc | request.go:179-181 | applying `opts + [o]` is applying `opts` in order and then `o` |
| Requests.ChainWithData | request.go:69-72 | the chain method yields exactly the state the `WithData` option produces |
| Requests.ChainWithJson | request.go:83-86 | the chain method yields exactly the state the `WithJson` option produces |
| Requests.ChainWithHeaders | request.go:94-97 | the chain method yields exactly the state the `WithHeaders` option produces and leaves the transport request unchanged |
| Requests.ChainWithContext | request.go:107-110 | the chain method yields exactly the state the `WithContext` option produces |
| Requests.ChainWithBearerToken | request.go:137-140 | the chain method yields exactly the state the `WithBearerToken` option produces and leaves the transport request unchanged |
| Requests.NewRequest | request.go:166-184 | a build failure returns only an error prefixed `failed to create http request: `; otherwise the request has the given target and method and equals the options applied one by one in argument order |
| Requests.Do | request.go:142-162 | with `withHeaders` set, each staged header is appended to the transport headers and no existing value is removed; without it the headers are untouched; nothing else in the request changes; a transport error yields no response and an error prefixed `failed to do http request: `; any delivered response is wrapped with its status, 4xx and 5xx included, and its body unread |
| HttpHeader.Set | request.go:65 | `Header.Set`: the key's value list becomes exactly the one value; every other key keeps its presence and values |
| HttpHeader.Add | request.go:78 | `Header.Add`: the value is appended after the key's existing values (an absent key starts empty); every other key keeps its presence and values |
| HttpHeader.AddEach | request.go:147-150 | adding every staged header in an arbitrary key order gives one result: staged keys gain their value at the end of their list, other keys keep theirs |
| HttpHeader.AppendTwice | request.go:147-150 | because `Do` appends rather than replaces, running it twice leaves each staged value twice in the transport headers |
| RequestFacts.LastBodyWins | request.go:56-81 | after any option sequence the body is the one the last form or JSON option set (the starting body if none did); earlier payloads are discarded |
| RequestFacts.ContentTypesFollowOptions | request.go:65-78 | after any option sequence the `Content-Type` list follows the rule: form data resets it to the form type, each JSON option appends the JSON type, no other option touches it |
| RequestFacts.StagedHeadersFollowOptions | request.go:112-135 | after any option sequence the staged map is the start map overridden in order by each header map and bearer token |
| RequestFacts.HeadersFlagFollowsOptions | request.go:112-135 | after any option sequence `withHeaders` is set exactly when it already was or some header or bearer-token option was applied |
| RequestFacts.LastContextWins | request.go:99-105 | after any option sequence the transport request carries the context of the last context option, or its starting context if there is none |
| RequestFacts.OnlyContentTypeWritten | request.go:56-140 | before `Do`, no option writes any transport header key other than `Content-Type` |
| RequestFacts.BodyReplacedNotMerged | request.go:56-81 | JSON after form data leaves the JSON body and form-then-JSON content types; form data after JSON leaves the form body and only the form content type |
| RequestFacts.HeadersMergeLastWins | request.go:120-129 | two `WithHeaders` calls stage the union of both maps with the second map winning on shared keys, and leave the transport request unchanged |
| RequestFacts.BearerTokenLastWins | request.go:131-135 | a second bearer token replaces the first `Authorization` value and leaves other staged keys as they were |
| RequestFacts.ChainAfterConstruction | request.go:179-181 | chaining an option onto a constructed request equals passing that option last to the constructor |
| Responses.NewResponse | response.go:51-53 | wrapping keeps the status code and leaves the body stream unread and open |
| Responses.GetBody | response.go:24-31 | the stream is closed on every path and the status code is kept; a clean read returns exactly the remaining bytes; a failed read returns no bytes, only the read error |
| Responses.GetBodyMap | response.go:33-41 | routes through `GetBody`: a read error is returned unchanged with no map; otherwise the result is the decoder's result on exactly the bytes read |
| Responses.Unmarshal | response.go:43-49 | routes through `GetBody`: a read error comes back prefixed `unmarshal: `; otherwise the result is the decoder's result on exactly the bytes read |
| Responses.GetStatusCode | response.go:20-22 | the result is the status code of the wrapped transport response; no response state is returned, so the body is not touched |
| Responses.ReadAll | response.go:26 | a successful read yields every remaining byte of an open stream and nothing from a closed one; it fails exactly when the open stream's read fails or the closed stream reports an error, and then returns that error |
| Responses.ConsumedOnce | response.go:24-49 | after any one body accessor the stream is closed and the status code is kept; every later accessor gets only what the closed body yields (its error, or no bytes, which `GetBodyMap`/`Unmarshal` hand to the decoder), and never a non-empty payload again |
| Responses.EmptyBodyReadsEmptyTwice | response.go:24-31 | an empty response, such as a bodiless 403, reads as no bytes and no error on the first and on a second `GetBody` |
| Responses.FreshResponseDeliversPayload | response.go:33-53 | the first accessor on a freshly wrapped, cleanly readable response sees exactly the transport's payload, and `GetBodyMap` decodes exactly that payload |

## Left out

- Network dispatch: `http.DefaultClient.Do` is replaced by the `TransportOutcome` parameter. Deadlines and cancellation happen inside the transport, so a context is only carried along.
- Request body consumption: the transport drains the request body it sends. A second `Do` would therefore send an empty body. That draining happens in net/http, so the model keeps the body value unchanged.
- Form encoding: `url.Values.Encode` lives in net/url. `FormEncoded(d)` stands for its output.
- URL parsing and method validation in `http.NewRequest` become the `buildError` parameter. `HttpMethod` is limited to the five declared constants, though Go accepts any string there.
- Header key canonicalisation in net/http is not modelled; keys are exact. In Go, a staged `content-type` would merge with `Content-Type`, and the order of values that `Do` adds for colliding keys would depend on map iteration order.
- JSON decoding: `json.Unmarshal` becomes a caller-supplied decoder function. Partial filling of a target on a decode error is not modelled.
- Requests.AddHeaders: stores the caller's map by reference when no header has been staged yet (a nil staged map), so the request and the caller share one map. Later changes the caller makes show up in the request. Later `AddHeader`/`AddHeaders` calls also write into the caller's map: a bearer token staged after `WithHeaders` ends up in the caller's literal map. Dafny maps are values, so the model copies the map and neither direction of sharing is modelled.
- Requests.ApplyContext: net/http's `Request.WithContext` panics on a nil context, so `WithContext(nil)` makes `NewRequest` or the chain method panic. `Context` has no nil value, so that panic is not modelled.
- The distinction between a nil staged map and an empty one is not modelled; Go treats them alike here.
- Logging in `Do`, and the error text of net/http beyond the prefixes that request.go and response.go add.
- The `Get`/`Post` quick calls used in request_test.go are not part of this model.
