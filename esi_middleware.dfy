/**
 * EsiMiddleware: for each request it either hands the request straight to the
 * next delegate, or serves the page from the fragment cache, or captures what
 * the next delegate writes, parses it, caches it when the status is 200, and
 * renders the fragment tree to the client.
 */
module AspNetCore {
  import opened Wrappers
  import opened Http
  import opened Caching
  import opened EsiSpec

  class EsiMiddleware {
    const next: Handler
    const parse: string -> Fragment
    const execute: Fragment -> seq<string>
    const cache: FragmentCache
    /** CacheControlHeaderValue.TryParse, which the middleware calls statically. */
    const tryParseCacheControl: Option<string> -> Option<CacheDirective>
    /** The calls made to the collaborators so far (instrumentation, not program state). */
    ghost var calls: seq<Call>

    constructor (next: Handler, parse: string -> Fragment, execute: Fragment -> seq<string>,
                 cache: FragmentCache, tryParseCacheControl: Option<string> -> Option<CacheDirective>)
      ensures this.next == next && this.parse == parse && this.execute == execute
      ensures this.cache == cache && this.tryParseCacheControl == tryParseCacheControl
      ensures calls == []
    {
      this.next := next;
      this.parse := parse;
      this.execute := execute;
      this.cache := cache;
      this.tryParseCacheControl := tryParseCacheControl;
      calls := [];
    }

    /** The collaborators, as the reference definition takes them. */
    function Deps(): Collaborators {
      Collaborators(next, parse, execute, tryParseCacheControl)
    }

    /** What a request can change, seen through the reference definition's eyes. */
    ghost function ViewOf(context: HttpContext): View
      reads this, cache, context, context.body
    {
      View(context.Snapshot(), context.body.text, cache.entries, calls)
    }

    /**
     * Handles one request. The new state is exactly what InvokeSpec gives for
     * the old one, and the context ends with its own body stream in place.
     */
    method Invoke(context: HttpContext) returns (outcome: Outcome)
      modifies this, cache, context, context.body
      ensures context.body == old(context.body)
      ensures Step(ViewOf(context), outcome) == InvokeSpec(context.displayUrl, old(ViewOf(context)), Deps())
    {
      if Bypasses(context.Snapshot()) {
        var failed := CallNext(context);
        outcome := if failed then Faulted else Completed;
        return;
      }

      var response: PageResponse;
      var key := context.displayUrl;
      var cachedResponse := CallTryGet(key);
      if cachedResponse.Some? {
        response := cachedResponse.value;
      } else {
        context.requestHeaders := context.requestHeaders[AcceptEncoding := ""];

        var body := InterceptNext(context);
        if body.None? {
          outcome := Faulted;
          return;
        }

        var fragment := CallParse(body.value);
        response := PageResponse(fragment, context.ContentType());

        var cacheControl := tryParseCacheControl(HeaderValue(context.responseHeaders, CacheControlHeader));

        if ShouldSetCache(context.Snapshot()) {
          CallSet(key, cacheControl, response);
        }
      }

      Render(context, response);
      outcome := Completed;
    }

    /**
     * Runs the next delegate with the body stream swapped for a fresh buffer and
     * returns the buffer's text, or None when the delegate threw. On both paths
     * the original stream is put back and nothing is written to it.
     */
    method InterceptNext(context: HttpContext) returns (captured: Option<string>)
      modifies this, context
      ensures calls == old(calls) + [NextCall(old(context.Snapshot()))]
      ensures context.body == old(context.body) && context.body.text == old(context.body.text)
      ensures (context.Snapshot(), captured) == CaptureSpec(old(context.Snapshot()), next)
    {
      var originBody := context.body;
      var newBody := new Sink();
      context.body := newBody;

      ghost var seen := context.Snapshot();
      var failed := CallNext(context);
      assert newBody.text == next(seen).text;
      captured := if failed then None else Some(newBody.text);

      // the finally block
      context.body := originBody;
    }

    /**
     * Sets the content type from the page, clears the content length, and
     * writes the executor's parts for the page's fragment to the body stream,
     * in order.
     */
    method Render(context: HttpContext, response: PageResponse)
      modifies this, context, context.body
      ensures context.body == old(context.body)
      ensures ViewOf(context) == RenderSpec(old(ViewOf(context)), response, execute)
    {
      var content := CallExecute(response.fragment);
      context.SetContentType(response.contentType);
      context.ClearContentLength();

      var sink := context.body;
      for i := 0 to |content|
        modifies sink
        invariant sink.text == old(sink.text) + Concat(content[..i])
      {
        ConcatSnoc(content[..i], content[i]);
        assert content[..i + 1] == content[..i] + [content[i]];
        sink.Write(content[i]);
      }
      assert content[..|content|] == content;
    }

    /** `await _next(context)`, logged. */
    method CallNext(context: HttpContext) returns (failed: bool)
      modifies this, context, context.body
      ensures calls == old(calls) + [NextCall(old(context.Snapshot()))]
      ensures context.body == old(context.body)
      ensures context.Snapshot() == next(old(context.Snapshot())).head
      ensures context.body.text == old(context.body.text) + next(old(context.Snapshot())).text
      ensures failed == next(old(context.Snapshot())).fails
    {
      calls := calls + [NextCall(context.Snapshot())];
      failed := context.Dispatch(next);
    }

    /** `_cache.TryGet(key)`, logged. */
    method CallTryGet(key: string) returns (r: Option<PageResponse>)
      modifies this`calls
      ensures calls == old(calls) + [TryGetCall(key)]
      ensures r.Some? <==> key in cache.entries
      ensures r.Some? ==> r.value == cache.entries[key].response
    {
      calls := calls + [TryGetCall(key)];
      r := cache.TryGet(key);
    }

    /** `_parser.Parse(body)`, logged. */
    method CallParse(body: string) returns (fragment: Fragment)
      modifies this`calls
      ensures calls == old(calls) + [ParseCall(body)]
      ensures fragment == parse(body)
    {
      calls := calls + [ParseCall(body)];
      fragment := parse(body);
    }

    /** `_cache.Set(key, cacheControl, response)`, logged. */
    method CallSet(key: string, directive: Option<CacheDirective>, response: PageResponse)
      modifies this`calls, cache
      ensures calls == old(calls) + [SetCall(key, directive, response)]
      ensures cache.entries == old(cache.entries)[key := Entry(response, directive)]
    {
      calls := calls + [SetCall(key, directive, response)];
      cache.Set(key, directive, response);
    }

    /** `_executor.Execute(fragment)`, logged. */
    method CallExecute(fragment: Fragment) returns (content: seq<string>)
      modifies this`calls
      ensures calls == old(calls) + [ExecuteCall(fragment)]
      ensures content == execute(fragment)
    {
      calls := calls + [ExecuteCall(fragment)];
      content := execute(fragment);
    }
  }
}

/**
 * Two unmarked requests for the same URL through one middleware and an empty
 * cache: the first misses and caches its 200, the second is served from the
 * cache, and both clients receive the same text.
 */
module Scenario {
  import opened Wrappers
  import opened Http
  import opened Caching
  import opened EsiSpec
  import opened AspNetCore

  method ServeTwice(url: string, head: Head, next: Handler, parse: string -> Fragment,
                    execute: Fragment -> seq<string>,
                    tryParseCacheControl: Option<string> -> Option<CacheDirective>)
    returns (first: string, second: string, cached: bool)
    requires !Bypasses(head)
    requires !next(Stripped(head)).fails && next(Stripped(head)).head.statusCode == Ok
    ensures first == Concat(execute(parse(next(Stripped(head)).text)))
    ensures second == first
    ensures cached
  {
    var cache := new FragmentCache(map[]);
    var middleware := new EsiMiddleware(next, parse, execute, cache, tryParseCacheControl);
    var firstBody := new Sink();
    var secondBody := new Sink();
    var firstContext := new HttpContext(url, head, firstBody);
    var secondContext := new HttpContext(url, head, secondBody);

    ghost var v1 := middleware.ViewOf(firstContext);
    var outcome1 := middleware.Invoke(firstContext);
    MissCachesOnlyOk(url, v1, middleware.Deps());
    first := firstBody.text;
    cached := url in cache.entries;

    ghost var v2 := middleware.ViewOf(secondContext);
    var outcome2 := middleware.Invoke(secondContext);
    HitServesCachedPage(url, v2, middleware.Deps());
    second := secondBody.text;
  }
}
