/**
 * The part of the ASP.NET Core HTTP context that the ESI middleware reads and
 * writes: the status code, the request and response header dictionaries, and
 * the response body stream. Response.ContentType and Response.ContentLength
 * are not fields of their own: they read and write the Content-Type and
 * Content-Length entries of the response headers.
 */
module Http {
  import opened Wrappers

  /** A header dictionary. A header whose value is StringValues.Empty maps to "". */
  type Headers = map<string, string>

  const ContentTypeHeader := "Content-Type"
  const ContentLengthHeader := "Content-Length"

  /** The value of header `name`, absent when the dictionary has no such key. */
  function HeaderValue(headers: Headers, name: string): (r: Option<string>)
    ensures r.Some? <==> name in headers
    ensures r.Some? ==> r.value == headers[name]
  {
    if name in headers then Some(headers[name]) else None
  }

  /** Response.ContentType as read: the Content-Type header, null when there is none. */
  function ContentTypeOf(headers: Headers): (r: Option<string>)
    ensures r.Some? <==> ContentTypeHeader in headers
    ensures r.Some? ==> r.value == headers[ContentTypeHeader]
  {
    HeaderValue(headers, ContentTypeHeader)
  }

  /**
   * The headers after `Response.ContentType = value`: a null or empty value
   * removes Content-Type, any other value becomes it; no other header changes.
   */
  function WithContentType(headers: Headers, value: Option<string>): (r: Headers)
    ensures (value.None? || value.value == "") ==> ContentTypeHeader !in r
    ensures (value.Some? && value.value != "") ==> ContentTypeOf(r) == value
    ensures forall k | k != ContentTypeHeader :: (k in r <==> k in headers)
    ensures forall k | k != ContentTypeHeader && k in headers :: r[k] == headers[k]
  {
    if value.None? || value.value == "" then headers - {ContentTypeHeader}
    else headers[ContentTypeHeader := value.value]
  }

  /** The headers after `Response.ContentLength = null`: Content-Length is gone, nothing else changes. */
  function WithoutContentLength(headers: Headers): (r: Headers)
    ensures ContentLengthHeader !in r
    ensures forall k | k != ContentLengthHeader :: (k in r <==> k in headers)
    ensures forall k | k != ContentLengthHeader && k in headers :: r[k] == headers[k]
  {
    headers - {ContentLengthHeader}
  }

  /** The parsed Cache-Control header (CacheControlHeaderValue); opaque here. */
  type CacheDirective(==)

  /** Everything in the context except the body stream. */
  datatype Head = Head(statusCode: int, requestHeaders: Headers, responseHeaders: Headers)

  /**
   * What the downstream request delegate does when it runs: the head it leaves
   * behind, the text it writes to the current body stream, and whether it then
   * throws.
   */
  datatype Reply = Reply(head: Head, text: string, fails: bool)

  /** The downstream request delegate, as a function of the head it is given. */
  type Handler = Head -> Reply

  /** A response body stream; only appending text to it is modelled. */
  class Sink {
    var text: string

    constructor ()
      ensures text == ""
    {
      text := "";
    }

    method Write(part: string)
      modifies this
      ensures text == old(text) + part
    {
      text := text + part;
    }
  }

  class HttpContext {
    /** What Request.GetDisplayUrl() yields for this request. */
    const displayUrl: string
    var statusCode: int
    var requestHeaders: Headers
    var responseHeaders: Headers
    /** Response.Body: the stream that text written to the response goes to. */
    var body: Sink

    constructor (displayUrl: string, head: Head, body: Sink)
      ensures this.displayUrl == displayUrl && Snapshot() == head && this.body == body
    {
      this.displayUrl := displayUrl;
      statusCode := head.statusCode;
      requestHeaders := head.requestHeaders;
      responseHeaders := head.responseHeaders;
      this.body := body;
    }

    /** The current head of the context. */
    function Snapshot(): Head
      reads this
    {
      Head(statusCode, requestHeaders, responseHeaders)
    }

    /** Response.ContentType. */
    function ContentType(): Option<string>
      reads this
    {
      ContentTypeOf(responseHeaders)
    }

    /** The Response.ContentType setter. */
    method SetContentType(value: Option<string>)
      modifies this`responseHeaders
      ensures responseHeaders == WithContentType(old(responseHeaders), value)
    {
      responseHeaders := WithContentType(responseHeaders, value);
    }

    /** `Response.ContentLength = null`. */
    method ClearContentLength()
      modifies this`responseHeaders
      ensures responseHeaders == WithoutContentLength(old(responseHeaders))
    {
      responseHeaders := WithoutContentLength(responseHeaders);
    }

    /**
     * Runs the delegate `next` on this context: it installs the head the
     * delegate leaves, appends the delegate's text to the current body stream,
     * and reports whether the delegate threw.
     */
    method Dispatch(next: Handler) returns (failed: bool)
      modifies this, body
      ensures body == old(body)
      ensures Snapshot() == next(old(Snapshot())).head
      ensures body.text == old(body.text) + next(old(Snapshot())).text
      ensures failed == next(old(Snapshot())).fails
    {
      var reply := next(Snapshot());
      statusCode := reply.head.statusCode;
      requestHeaders := reply.head.requestHeaders;
      responseHeaders := reply.head.responseHeaders;
      body.Write(reply.text);
      failed := reply.fails;
    }
  }
}
