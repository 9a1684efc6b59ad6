# EsiMiddleware, modelled in Dafny

EsiNet's ASP.NET Core middleware assembles Edge Side Include (ESI) pages. For
every request it runs a small state machine:

- **bypass**: a response that is already 304 Not Modified (RFC 7232, section
  4.1), or a request carrying the `X-Esi` marker header of the middleware's own
  fragment sub-requests, is handed to the next delegate and nothing else happens;
- **lookup**: the fragment cache is asked for the page stored under the
  request's display URL;
- **miss**: `Accept-Encoding` is emptied, the next delegate runs with the
  response body swapped for a buffer (the original stream is put back on every
  exit path), the captured text is parsed into a fragment tree, the page is
  paired with the response content type, and it is stored under the display URL
  with the parsed `Cache-Control` directive (RFC 7234, section 5.2) only when
  the status is 200;
- **render**: the executor turns the page's fragment into text parts, the
  content type is set from the page, the content length is cleared, and the
  parts are written to the client in order.

## Layout

- `wrappers.dfy` — `Option`.
- `http.dfy` — the HTTP context: a class `HttpContext` with the status code,
  the request and response headers and the current body stream (`Sink`,
  compared by identity). As in ASP.NET Core, the response content type and
  content length are the `Content-Type` and `Content-Length` entries of the
  response headers, read and written through `ContentTypeOf`,
  `WithContentType` and `WithoutContentLength`. `Dispatch` is the effect of
  running the next delegate, which is a function from the context's head to a
  `Reply` (new head, text written, whether it threw).
- `caching.dfy` — `PageResponse` (FragmentPageResponse), the cache entry, and
  `FragmentCache`, a class over a `map` standing in for IEsiFragmentCache.
- `esi_spec.dfy` — a reference definition on values, `InvokeSpec`, of one
  request's effect on a `View` (head, client text, cache entries, log of calls
  to the collaborators), and the lemmas that state the middleware's policy.
- `esi_middleware.dfy` — the class `EsiMiddleware` with `Invoke`,
  `InterceptNext` and `Render`, each proved to produce exactly the state its
  reference function gives; a ghost field records the calls made to `next`,
  `TryGet`, `Parse`, `Set` and `Execute`, and each of these five is reached
  only through one helper method that both makes the call and logs it. Its module `Scenario` runs two
  requests for one URL through the classes.

The collaborators are parameters: the next delegate, `EsiBodyParser.Parse`,
`EsiFragmentExecutor.Execute`, `CacheControlHeaderValue.TryParse` and
`GetDisplayUrl` (a constant of the context) are uninterpreted, and the
fragment tree and the cache directive are opaque types.

## Model

| member | source | states |
|---|---|---|
| `AspNetCore.EsiMiddleware.Invoke` | src/EsiNet.AspNetCore/EsiMiddleware.cs:31-74 | the context's head, the client's text, the cache entries and the call log after one request are exactly `InvokeSpec` of the state before, and the context keeps its own body stream |
| `AspNetCore.EsiMiddleware.InterceptNext` | src/EsiNet.AspNetCore/EsiMiddleware.cs:76-100 | the delegate runs once against a fresh buffer; the original body stream is back in place and untouched whether or not the delegate threw; the result is the delegate's text, or None when it threw |
| `AspNetCore.EsiMiddleware.Render` | src/EsiNet.AspNetCore/EsiMiddleware.cs:66-73 | the content type becomes the page's, the content length is cleared, the executor is called once for the page's fragment and the client's text grows by the concatenation of its parts, in order |
| `AspNetCore.EsiMiddleware.constructor` | src/EsiNet.AspNetCore/EsiMiddleware.cs:19-29 | the middleware holds the given delegate, parser, executor and cache, and no call has been made yet |
| `Http.HttpContext.Dispatch` | src/EsiNet.AspNetCore/EsiMiddleware.cs:86 | running the delegate leaves the head it produces, appends its text to whichever body stream is current, and reports whether it threw |
| `Http.Sink.Write` | src/EsiNet.AspNetCore/EsiMiddleware.cs:72 | writing a part appends exactly that part to the stream |
| `Http.HeaderValue` | src/EsiNet.AspNetCore/EsiMiddleware.cs:58 | reading a response header yields its value when the dictionary has the key and nothing otherwise |
| `AspNetCore.EsiMiddleware.CallNext` | src/EsiNet.AspNetCore/EsiMiddleware.cs:37 | the delegate runs on the context as it stands, and exactly that call is logged |
| `AspNetCore.EsiMiddleware.CallTryGet` | src/EsiNet.AspNetCore/EsiMiddleware.cs:43 | the lookup finds exactly the entry stored under the key, and the lookup is logged |
| `AspNetCore.EsiMiddleware.CallParse` | src/EsiNet.AspNetCore/EsiMiddleware.cs:54 | the fragment is the parser's result for the captured text, and the parse is logged |
| `AspNetCore.EsiMiddleware.CallSet` | src/EsiNet.AspNetCore/EsiMiddleware.cs:62 | the cache maps the key to the page and directive, every other key unchanged, and the write is logged |
| `AspNetCore.EsiMiddleware.CallExecute` | src/EsiNet.AspNetCore/EsiMiddleware.cs:66 | the parts are the executor's result for the fragment, and the call is logged |
| `Http.HttpContext.SetContentType` | src/EsiNet.AspNetCore/EsiMiddleware.cs:67 | the response headers become `WithContentType` of the old ones; nothing else in the context changes |
| `Http.HttpContext.ClearContentLength` | src/EsiNet.AspNetCore/EsiMiddleware.cs:68 | the response headers lose `Content-Length`; nothing else in the context changes |
| `Http.HttpContext.ContentType` | src/EsiNet.AspNetCore/EsiMiddleware.cs:55 | the `Response.ContentType` getter: `ContentTypeOf` of the context's response headers |
| `Http.ContentTypeOf` | src/EsiNet.AspNetCore/EsiMiddleware.cs:55 | the response content type is the `Content-Type` header's value, absent when there is none |
| `Http.WithContentType` | src/EsiNet.AspNetCore/EsiMiddleware.cs:67 | a null or empty content type removes `Content-Type`, any other value becomes it; no other header changes |
| `Http.WithoutContentLength` | src/EsiNet.AspNetCore/EsiMiddleware.cs:68 | `Content-Length` is gone afterwards; no other header changes |
| `EsiSpec.Bypasses` | src/EsiNet.AspNetCore/EsiMiddleware.cs:35 | defines the gate: the status is 304 or the request headers contain `X-Esi`; what a bypassed request does is proved in `EsiSpec.BypassOnlyDelegates` |
| `EsiSpec.ShouldSetCache` | src/EsiNet.AspNetCore/EsiMiddleware.cs:102-105 | defines the cache-write test: the status is 200; the write policy it drives is proved in `EsiSpec.MissCachesOnlyOk` |
| `EsiSpec.CaptureSpec` | src/EsiNet.AspNetCore/EsiMiddleware.cs:76-100 | the head the delegate leaves, and the delegate's text exactly when it did not throw |
| `EsiSpec.Rendered` | src/EsiNet.AspNetCore/EsiMiddleware.cs:67-68 | after rendering there is no `Content-Length`; the content type reads as the page's, except that a page content type of "" (like null) removes the header so it reads as null; the status, request headers and every other response header are unchanged |
| `EsiSpec.RenderSpec` | src/EsiNet.AspNetCore/EsiMiddleware.cs:66-73 | one `Execute` call for the page's fragment is logged, the cache is unchanged, the head equals `Rendered` of the old head (no `Content-Length`; the content type reads as the page's, or null when the page's is ""), and the client's text is its old text followed by the concatenation of the parts |
| `EsiSpec.MissSpec` | src/EsiNet.AspNetCore/EsiMiddleware.cs:49-73 | a miss calls the delegate first, with `Accept-Encoding` emptied; it fails exactly when the delegate throws; only the miss's own key can change in the cache, and only on a completed 200; the client's text only grows |
| `EsiSpec.InvokeSpec` | src/EsiNet.AspNetCore/EsiMiddleware.cs:31-74 | one request only adds to the call log and to the client's text, never touches a cache key other than its own display URL, and changes the cache only on a completed miss |
| `Caching.FragmentCache.TryGet` | src/EsiNet.AspNetCore/EsiMiddleware.cs:43 | found exactly when the key is stored, and then the stored page |
| `Caching.FragmentCache.Set` | src/EsiNet.AspNetCore/EsiMiddleware.cs:62 | the key now maps to the page with the given directive, every other key is unchanged |
| `EsiSpec.Stripped` | src/EsiNet.AspNetCore/EsiMiddleware.cs:50 | on a miss the delegate sees `Accept-Encoding` present and empty, every other request header and all response fields as they were |
| `EsiSpec.Concat` | src/EsiNet.AspNetCore/EsiMiddleware.cs:70-73 | defines the rendered text: the parts written one after another, in order; its properties are `ConcatAppend`, `ConcatSnoc` and `ConcatPart` |
| `EsiSpec.ConcatAppend` | src/EsiNet.AspNetCore/EsiMiddleware.cs:70-73 | writing two runs of parts one after the other gives the text of the first run followed by the text of the second |
| `EsiSpec.ConcatSnoc` | src/EsiNet.AspNetCore/EsiMiddleware.cs:70-73 | each pass of the write loop appends exactly its part |
| `EsiSpec.ConcatPart` | src/EsiNet.AspNetCore/EsiMiddleware.cs:70-73 | part i of the executor's output appears whole in the rendered text, right after parts 0 to i-1 |
| `EsiSpec.BypassOnlyDelegates` | src/EsiNet.AspNetCore/EsiMiddleware.cs:35-39 | a 304 or an `X-Esi` request calls the delegate exactly once and nothing else (no lookup, parse, cache write or render); the cache is unchanged, the head and client text are what the delegate left, and a throw propagates |
| `EsiSpec.HitServesCachedPage` | src/EsiNet.AspNetCore/EsiMiddleware.cs:42-47 | on a hit under the display URL only `TryGet` and `Execute` are called (no delegate, no parse, no write); the cache is unchanged and the cached page's content type and parts are what the client gets, with no content length |
| `EsiSpec.MissClearsAcceptEncoding` | src/EsiNet.AspNetCore/EsiMiddleware.cs:50-52 | on a miss the second call is to the delegate, with `Accept-Encoding` emptied, and the delegate is not called again |
| `EsiSpec.MissDownstreamFailure` | src/EsiNet.AspNetCore/EsiMiddleware.cs:52 | when the delegate throws on a miss the request fails after the lookup and the delegate call only: no parse, no cache write, no render, nothing written to the client |
| `EsiSpec.MissCachesOnlyOk` | src/EsiNet.AspNetCore/EsiMiddleware.cs:54-63 | with `ShouldSetCache` (lines 102-105) as the test: on a completed miss the display URL is in the cache afterwards if and only if the status is 200; then exactly one `Set` is made, under that key, storing the parse of the captured text, the content type seen after capture and TryParse's directive; otherwise the cache is unchanged; the page is rendered |
| `EsiSpec.UnparsedDirectiveStillCached` | src/EsiNet.AspNetCore/EsiMiddleware.cs:57-63 | a Cache-Control header that TryParse rejects is not an error: a 200 is still cached, with no directive |
| `Scenario.ServeTwice` | src/EsiNet.AspNetCore/EsiMiddleware.cs:42-73 | through the classes themselves: with an empty cache, a first request whose delegate answers 200 leaves its URL cached, its client gets the executor's parts for the parsed capture, and a second client for the same URL gets the same text |
| `EsiSpec.RepeatRequestHits` | src/EsiNet.AspNetCore/EsiMiddleware.cs:42-47 | after a miss that cached a 200, another unmarked request for the same URL does not call the delegate and gets the same text and content type as the first |

## Left out

- Async/await, `Task` scheduling and cancellation: a request is handled sequentially, and two concurrent misses on one key are not modelled.
- Byte-level stream mechanics (`MemoryStream`, `Seek`, `StreamReader` decoding, `WriteAsync` encoding): a body stream is a string that text is appended to.
- Failures of `Parse`, `Execute`, `TryGet`, `Set` and of a write to the client: these collaborators are total here; only the next delegate's throw, the case the `finally` block exists for, is modelled.
- The internals of `EsiBodyParser`, `EsiFragmentExecutor`, the cache's expiry and eviction, and `GetDisplayUrl`'s formatting: uninterpreted parameters, opaque types and a plain map.
- `CacheControlHeaderValue.TryParse`'s grammar: a function from the optional header text to an optional opaque directive; a multi-valued header is one string.
- Header names are compared exactly; ASP.NET's case-insensitive header dictionary is not modelled. So the gate recognises the marker only when it is spelled `X-Esi`, and a miss empties only a header spelled `Accept-Encoding`: a request header `accept-encoding: gzip` reaches the delegate unchanged in the model, where the source would have overwritten it. The same holds for `Content-Type`, `Content-Length` and `Cache-Control` in the response headers.
- Setting `Accept-Encoding` to `StringValues.Empty` is modelled as mapping the key to the empty string, not as removing it (which of the two happens depends on the server's header dictionary). The `ContentType` and `ContentLength` setters, in contrast, are modelled as removing their header when given null (or, for the content type, the empty string).
- The next delegate sees only the context's head (status and the two header dictionaries); its behaviour is a function of that.
- The constructor's and `Invoke`'s null-argument guards: Dafny's references are non-null.
