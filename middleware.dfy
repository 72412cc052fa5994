/**
 * The request-time half of tracing/datadog.go: the middleware that wraps a
 * handler in a span, and the response writer that remembers the status code.
 * The tracing library is represented by plain records: a span built by
 * folding its start options, `SetTag` and `Finish` as updates of that record.
 */
module Middleware {
  import opened Wrappers
  import opened Text
  import Datadog
  import TracerConfig

  const OperationName := "http.request"
  const SpanTypeWeb := "web"
  const TagHttpMethod := "http.method"
  const TagHttpUrl := "http.url"
  const TagHttpCode := "http.status_code"

  /** A remote span, as propagated in trace headers. */
  datatype SpanContext = SpanContext(traceId: int, spanId: int)

  /** The options of `StartSpanFromContext` that the middleware uses. */
  datatype SpanOption =
    | ServiceName(name: string)
    | ResourceName(name: string)
    | SpanType(name: string)
    | Tag(key: string, value: string)
    | ChildOf(parent: SpanContext)

  /** A span: who made it, what it covers, its tags, its parent and how often it was finished. */
  datatype Span = Span(operation: string, service: string, resource: string, spanType: string,
                       tags: map<string, string>, parent: Option<SpanContext>, finishCount: nat)
  {
    function SetTag(key: string, value: string): Span {
      this.(tags := tags[key := value])
    }

    function Finish(): Span {
      this.(finishCount := finishCount + 1)
    }
  }

  function ApplyOption(s: Span, o: SpanOption): Span {
    match o
    case ServiceName(n) => s.(service := n)
    case ResourceName(n) => s.(resource := n)
    case SpanType(n) => s.(spanType := n)
    case Tag(k, v) => s.SetTag(k, v)
    case ChildOf(p) => s.(parent := Some(p))
  }

  /** A new, unfinished span with the options applied in order. */
  function StartSpan(operation: string, opts: seq<SpanOption>): Span {
    if opts == [] then Span(operation, "", "", "", map[], None, 0)
    else ApplyOption(StartSpan(operation, opts[..|opts| - 1]), opts[|opts| - 1])
  }

  /**
   * An inbound request: its method, its URL, the URL's request URI, and what
   * `tracer.Extract` makes of its headers (None when extraction fails).
   */
  datatype Request = Request(httpMethod: string, url: string, requestUri: string, propagated: Option<SpanContext>)

  /**
   * What the wrapped handler does with one request, as far as the middleware
   * can observe: the status codes it passes to WriteHeader, in order, and
   * whether it then panics.
   */
  datatype HandlerRun = HandlerRun(statusWrites: seq<int>, panics: bool)

  /**
   * A built middleware: the service name read when `Handler` was called and
   * the wrapped handler.
   */
  datatype TracingHandler = TracingHandler(serviceName: string, next: Request -> HandlerRun)

  /** `Handler(next)` on the tracer's current state: the service name is read here, once. */
  method Handler(t: Datadog.Tracer, next: Request -> HandlerRun) returns (h: TracingHandler)
    ensures h.serviceName == t.serviceName && h.next == next
  {
    h := TracingHandler(t.serviceName, next);
  }

  // ---------------------------------------------------------------------
  // Response writers

  /** The server's response writer, recording the status codes written to it. */
  class ResponseRecorder {
    var headerWrites: seq<int>

    constructor ()
      ensures headerWrites == []
    {
      headerWrites := [];
    }

    method WriteHeader(code: int)
      modifies this
      ensures headerWrites == old(headerWrites) + [code]
    {
      headerWrites := headerWrites + [code];
    }
  }

  /** `responseWriterWithStatus`: forwards to the wrapped writer and keeps the last status written. */
  class ResponseWriterWithStatus {
    const inner: ResponseRecorder
    var statusCode: int

    /** `NewResponseWriterWithStatus`: nothing written yet, so the implicit 200. */
    constructor (w: ResponseRecorder)
      ensures inner == w && statusCode == Datadog.StatusOK
    {
      inner := w;
      statusCode := Datadog.StatusOK;
    }

    /** Records `code` and forwards it, once, to the wrapped writer. */
    method WriteHeader(code: int)
      modifies this, inner
      ensures statusCode == code
      ensures inner.headerWrites == old(inner.headerWrites) + [code]
    {
      statusCode := code;
      inner.WriteHeader(code);
    }
  }

  /** The status a writer reports after these WriteHeader calls: the last one, or 200. */
  function CapturedStatus(writes: seq<int>): int {
    if writes == [] then Datadog.StatusOK else writes[|writes| - 1]
  }

  // ---------------------------------------------------------------------
  // Serving one request

  /** The per-request start options: the captured service name, the request's details and, if extracted, the parent. */
  function RequestOptions(serviceName: string, r: Request): seq<SpanOption> {
    [ServiceName(serviceName), ResourceName(r.requestUri), SpanType(SpanTypeWeb),
     Tag(TagHttpMethod, r.httpMethod), Tag(TagHttpUrl, r.url)]
    + (if r.propagated.Some? then [ChildOf(r.propagated.value)] else [])
  }

  /** The span a request starts with. */
  lemma RequestSpanShape(serviceName: string, r: Request)
    ensures var s := StartSpan(OperationName, RequestOptions(serviceName, r));
      && s.operation == OperationName && s.service == serviceName
      && s.resource == r.requestUri && s.spanType == SpanTypeWeb
      && s.tags == map[TagHttpMethod := r.httpMethod, TagHttpUrl := r.url]
      && s.parent == r.propagated
      && s.finishCount == 0
  {
    var opts := RequestOptions(serviceName, r);
    var base := opts[..5];
    var s0 := Span(OperationName, "", "", "", map[], None, 0);
    var s1 := s0.(service := serviceName);
    var s2 := s1.(resource := r.requestUri);
    var s3 := s2.(spanType := SpanTypeWeb);
    var s4 := s3.(tags := map[TagHttpMethod := r.httpMethod]);
    var s5 := s4.(tags := map[TagHttpMethod := r.httpMethod, TagHttpUrl := r.url]);
    assert base[..1][..0] == [];
    assert StartSpan(OperationName, base[..1]) == s1;
    assert base[..2][..1] == base[..1];
    assert StartSpan(OperationName, base[..2]) == s2;
    assert base[..3][..2] == base[..2];
    assert StartSpan(OperationName, base[..3]) == s3;
    assert base[..4][..3] == base[..3];
    assert StartSpan(OperationName, base[..4]) == s4;
    assert base[..4] == base[..5][..4];
    assert StartSpan(OperationName, base) == s5;
    if r.propagated.Some? {
      assert opts[..|opts| - 1] == base;
    } else {
      assert opts == base;
    }
  }

  /**
   * The middleware's `ServeHTTP`: starts the span, runs the handler through a
   * status-capturing writer, and on every exit, a panic included, tags the
   * captured status and finishes the span. `panicked` reports that the
   * handler's panic goes on up past the middleware.
   */
  method ServeHTTP(h: TracingHandler, w: ResponseRecorder, r: Request)
    returns (span: Span, panicked: bool)
    modifies w
    ensures var run := h.next(r);
      && span.operation == OperationName && span.service == h.serviceName
      && span.resource == r.requestUri && span.spanType == SpanTypeWeb
      && span.parent == r.propagated
      && span.tags == map[TagHttpMethod := r.httpMethod, TagHttpUrl := r.url,
                          TagHttpCode := Decimal(CapturedStatus(run.statusWrites))]
      && span.finishCount == 1
      && w.headerWrites == old(w.headerWrites) + run.statusWrites
      && panicked == run.panics
  {
    var opts := [ServiceName(h.serviceName)]
      + [ResourceName(r.requestUri), SpanType(SpanTypeWeb), Tag(TagHttpMethod, r.httpMethod), Tag(TagHttpUrl, r.url)];
    if r.propagated.Some? {
      opts := opts + [ChildOf(r.propagated.value)];
    }
    assert opts == RequestOptions(h.serviceName, r);
    RequestSpanShape(h.serviceName, r);
    span := StartSpan(OperationName, opts);
    var wws := new ResponseWriterWithStatus(w);

    // next.ServeHTTP(wws, r): the handler's WriteHeader calls, then possibly a panic
    var run := h.next(r);
    var writes := run.statusWrites;
    for i := 0 to |writes|
      invariant wws.inner == w
      invariant wws.statusCode == CapturedStatus(writes[..i])
      invariant w.headerWrites == old(w.headerWrites) + writes[..i]
    {
      wws.WriteHeader(writes[i]);
      assert writes[..i + 1] == writes[..i] + [writes[i]];
    }
    assert writes[..|writes|] == writes;
    panicked := run.panics;

    // the deferred finaliser, run on the normal return and on the panic alike
    span := span.SetTag(TagHttpCode, Decimal(wws.statusCode));
    span := span.Finish();
  }

  /**
   * A client: once built, the middleware keeps the service name it read, even
   * if `Start` later changes the global one; two requests give two spans that
   * depend only on their own request.
   */
  method ServiceNameReadOnce(t: Datadog.Tracer, next: Request -> HandlerRun,
                             later: TracerConfig.DDStartTracerConfig, lookup: Option<string>,
                             probe: Datadog.Probe, r1: Request, r2: Request)
    returns (s1: Span, s2: Span)
    modifies t
    ensures s1.service == old(t.serviceName) && s2.service == old(t.serviceName)
    ensures s1.resource == r1.requestUri && s2.resource == r2.requestUri
    ensures s1.parent == r1.propagated && s2.parent == r2.propagated
  {
    var h := Handler(t, next);
    var _ := t.Start(later, lookup, probe);
    var w1 := new ResponseRecorder();
    var w2 := new ResponseRecorder();
    var p1, p2;
    s1, p1 := ServeHTTP(h, w1, r1);
    s2, p2 := ServeHTTP(h, w2, r2);
  }

  /** The status tags of the tests: a handler writing 500 gives "500", one writing nothing gives "200". */
  lemma StatusTagExamples()
    ensures Decimal(CapturedStatus([500])) == "500"
    ensures Decimal(CapturedStatus([])) == "200"
  {
    assert Digits(500) == Digits(50) + "0";
    assert Digits(50) == Digits(5) + "0";
    assert Digits(200) == Digits(20) + "0";
    assert Digits(20) == Digits(2) + "0";
  }
}
