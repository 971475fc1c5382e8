/** The AWS Lambda adapter's in-memory exchange (`impl/LambdaHttpExchange.kt`): the
    request read from an API Gateway proxy event, a response that keeps its status,
    headers and body, and the exchange holding both. */
module LambdaExchange {
  import opened Common
  import opened Http
  import opened HttpExchange

  /** The fields of an `APIGatewayProxyRequestEvent` the adapter reads. */
  datatype ProxyRequestEvent = ProxyRequestEvent(
    httpMethod: Option<string>,
    path: Option<string>,
    headers: Option<map<string, string>>,
    queryStringParameters: Option<map<string, string>>,
    body: Option<string>
  )

  /** `LambdaHttpRequest`: a read-only view of the event. */
  datatype LambdaHttpRequest = LambdaHttpRequest(event: ProxyRequestEvent) {
    /** `path()`: the event's path, or "". */
    function Path(): (r: string)
      ensures event.path.Some? ==> r == event.path.value
      ensures event.path.None? ==> r == ""
    {
      event.path.GetOr("")
    }

    function Headers(): map<string, string> {
      event.headers.GetOr(map[])
    }

    /** `getHeader(key)`: null when the event has no headers or no such header. */
    function GetHeader(key: string): (r: Option<string>)
      ensures r.Some? <==> event.headers.Some? && key in event.headers.value
      ensures r.Some? ==> r.value == event.headers.value[key]
    {
      if event.headers.Some? && key in event.headers.value then Some(event.headers.value[key]) else None
    }

    /** `isAcceptHeaderEmpty()`, shared by both exchange wrappers: the Accept header
        is missing or empty. */
    function AcceptHeaderEmpty(): (r: bool)
      ensures r <==> GetHeader("Accept").None? || GetHeader("Accept").value == ""
    {
      IsNullOrEmpty(GetHeader("Accept"))
    }

    /** The base URL fixed when the request is created. */
    function BaseUrl(): string {
      "http://" + GetHeader("Host").GetOr("0.0.0.0")
    }

    /** `absoluteURI()`: base URL then path. */
    function AbsoluteURI(): (r: string)
      ensures StartsWith(r, "http://") && EndsWith(r, Path())
      ensures GetHeader("Host").None? ==> r == "http://0.0.0.0" + Path()
      ensures GetHeader("Host").Some? ==> r == "http://" + GetHeader("Host").value + Path()
    {
      BaseUrl() + Path()
    }

    /** `method()`: `valueOf` of the event's method, which fails when it is null or
        not a method name. */
    function Method(): (r: Result<HttpMethod>)
      ensures r.Ok? <==> event.httpMethod.Some? && MethodValueOf(event.httpMethod.value).Some?
      ensures r.Ok? ==> MethodName(r.value) == event.httpMethod.value
    {
      match event.httpMethod
      case None => Err("httpMethod is null")
      case Some(name) =>
        match MethodValueOf(name)
        case Some(m) => Ok(m)
        case None => Err("No enum constant " + name)
    }
  }

  const CONTENT_LENGTH: string := "Content-Length"

  /** The headers after `end(body)`: Content-Length is added for a non-empty body when
      it is not already present. */
  function WithContentLength(headers: map<string, string>, body: seq<byte>): (r: map<string, string>)
    ensures r.Keys == headers.Keys + (if |body| > 0 then {CONTENT_LENGTH} else {})
    ensures forall k :: k in headers ==> r[k] == headers[k]
    ensures CONTENT_LENGTH !in headers && |body| > 0 ==> r[CONTENT_LENGTH] == NatToString(|body|)
  {
    if CONTENT_LENGTH !in headers && |body| > 0 then headers[CONTENT_LENGTH := NatToString(|body|)]
    else headers
  }

  /** The Content-Length the adapter writes reads back as the body's length in bytes. */
  lemma ContentLengthReadsBack(headers: map<string, string>, body: seq<byte>)
    requires CONTENT_LENGTH !in headers && |body| > 0
    ensures AllDigits(WithContentLength(headers, body)[CONTENT_LENGTH])
    ensures DigitsValue(WithContentLength(headers, body)[CONTENT_LENGTH]) == |body|
  {
    DigitsValueOfNatToString(|body|);
  }

  /** `LambdaHttpResponse`. `endCalls` counts the calls to `end`, which the source does
      not record: `end()` is a no-op there. */
  class LambdaHttpResponse {
    var statusCode: int
    var bodyBuffer: Option<seq<byte>>
    var headers: map<string, string>
    ghost var endCalls: nat

    constructor ()
      ensures statusCode == HTTP_OK && bodyBuffer.None? && headers == map[] && endCalls == 0
    {
      statusCode := HTTP_OK;
      bodyBuffer := None;
      headers := map[];
      endCalls := 0;
    }

    method SetStatusCode(code: int)
      modifies this
      ensures statusCode == code
      ensures bodyBuffer == old(bodyBuffer) && headers == old(headers) && endCalls == old(endCalls)
    {
      statusCode := code;
    }

    method GetStatusCode() returns (code: int)
      ensures code == statusCode
    {
      code := statusCode;
    }

    /** `putHeader`: overwrites any earlier value for the key. */
    method PutHeader(key: string, value: string)
      modifies this
      ensures headers == old(headers)[key := value]
      ensures statusCode == old(statusCode) && bodyBuffer == old(bodyBuffer) && endCalls == old(endCalls)
    {
      headers := headers[key := value];
    }

    function BodyLength(): nat
      reads this
    {
      if bodyBuffer.Some? then |bodyBuffer.value| else 0
    }

    /** `end()`: changes nothing. */
    method End()
      modifies this
      ensures statusCode == old(statusCode) && bodyBuffer == old(bodyBuffer) && headers == old(headers)
      ensures endCalls == old(endCalls) + 1
    {
      endCalls := endCalls + 1;
    }

    /** `end(body)`: keeps the body and adds Content-Length where it is missing. */
    method EndBuffer(body: seq<byte>)
      modifies this
      ensures bodyBuffer == Some(body) && headers == WithContentLength(old(headers), body)
      ensures statusCode == old(statusCode) && endCalls == old(endCalls) + 1
    {
      bodyBuffer := Some(body);
      if CONTENT_LENGTH !in headers && BodyLength() > 0 {
        headers := headers[CONTENT_LENGTH := NatToString(BodyLength())];
      }
      endCalls := endCalls + 1;
    }

    /** `HttpResponse.end(String?)`, the interface's default: null is `end()`, a
        string is `end` of its UTF-8 buffer. */
    method EndString(body: Option<string>)
      modifies this
      ensures body.None? ==> bodyBuffer == old(bodyBuffer) && headers == old(headers)
      ensures body.Some? ==> bodyBuffer == Some(Utf8(body.value)) &&
                             headers == WithContentLength(old(headers), Utf8(body.value))
      ensures statusCode == old(statusCode) && endCalls == old(endCalls) + 1
    {
      if body.Some? {
        EndBuffer(Utf8(body.value));
      } else {
        End();
      }
    }
  }

  /** `acceptsMimeType`, shared by both exchange wrappers: exact membership in the
      accepted types, no wildcards. */
  predicate AcceptsType(acceptedMimeTypes: seq<string>, mimeType: string)
    ensures AcceptsType(acceptedMimeTypes, mimeType) <==>
              exists i :: 0 <= i < |acceptedMimeTypes| && acceptedMimeTypes[i] == mimeType
  {
    mimeType in acceptedMimeTypes
  }

  /** `LambdaHttpExchange`: the accepted MIME types, read from the Accept header by
      `HttpUtil.readAcceptedContentTypes` (not part of this model), are given. */
  class LambdaHttpExchange {
    const request: LambdaHttpRequest
    const response: LambdaHttpResponse
    const currentRoute: Option<HttpRoute>
    const acceptedMimeTypes: seq<string>
    const attributes: Attributes
    var phase: ExchangePhase
    var failureCause: Option<Failure>

    constructor (request: LambdaHttpRequest, response: LambdaHttpResponse, currentRoute: Option<HttpRoute>,
                 acceptedMimeTypes: seq<string>)
      ensures this.request == request && this.response == response && this.currentRoute == currentRoute
      ensures this.acceptedMimeTypes == acceptedMimeTypes
      ensures phase == RequestReceived && failureCause.None?
      ensures fresh(attributes) && attributes.entries == map[]
    {
      this.request := request;
      this.response := response;
      this.currentRoute := currentRoute;
      this.acceptedMimeTypes := acceptedMimeTypes;
      attributes := new Attributes();
      phase := RequestReceived;
      failureCause := None;
    }

    function CurrentRoutePath(): (r: Option<string>)
      ensures currentRoute.None? ==> r.None?
      ensures currentRoute.Some? ==> r == currentRoute.value.path
    {
      if currentRoute.Some? then currentRoute.value.path else None
    }

    /** `queryParams()`: empty when the event has none. */
    function QueryParams(): (r: map<string, string>)
      ensures request.event.queryStringParameters.None? ==> r == map[]
      ensures request.event.queryStringParameters.Some? ==> r == request.event.queryStringParameters.value
    {
      request.event.queryStringParameters.GetOr(map[])
    }

    function QueryParam(name: string): (r: Option<string>)
      ensures r.Some? <==> name in QueryParams()
      ensures r.Some? ==> r.value == QueryParams()[name]
    {
      var qs := QueryParams();
      if name in qs then Some(qs[name]) else None
    }

    function IsAcceptHeaderEmpty(): bool {
      request.AcceptHeaderEmpty()
    }

    function AcceptsMimeType(mimeType: string): bool {
      AcceptsType(acceptedMimeTypes, mimeType)
    }

    /** `fail(cause)`: status 500 and the cause. */
    method Fail(cause: Option<Failure>)
      modifies this, response
      ensures response.statusCode == HTTP_INTERNAL_ERROR && failureCause == cause
      ensures response.bodyBuffer == old(response.bodyBuffer) && response.headers == old(response.headers)
      ensures response.endCalls == old(response.endCalls) && phase == old(phase)
    {
      FailWith(HTTP_INTERNAL_ERROR, cause);
    }

    /** `fail(statusCode)`: only the status. */
    method FailStatus(statusCode: int)
      modifies response
      ensures response.statusCode == statusCode
      ensures response.bodyBuffer == old(response.bodyBuffer) && response.headers == old(response.headers)
      ensures response.endCalls == old(response.endCalls)
    {
      response.SetStatusCode(statusCode);
    }

    /** `fail(statusCode, cause)`. */
    method FailWith(statusCode: int, cause: Option<Failure>)
      modifies this, response
      ensures response.statusCode == statusCode && failureCause == cause
      ensures response.bodyBuffer == old(response.bodyBuffer) && response.headers == old(response.headers)
      ensures response.endCalls == old(response.endCalls) && phase == old(phase)
    {
      response.SetStatusCode(statusCode);
      failureCause := cause;
    }

    method Get(key: string) returns (value: Option<AttributeValue>)
      ensures value.Some? <==> key in attributes.entries
      ensures value.Some? ==> attributes.entries[key] == value.value
    {
      value := attributes.Get(key);
    }

    method Put(key: string, value: AttributeValue)
      modifies attributes
      ensures attributes.entries == old(attributes.entries)[key := value]
    {
      attributes.Put(key, value);
    }
  }

  /** `put(k, v)` then `get(k)` gives back v. */
  method PutThenGet(exchange: LambdaHttpExchange, key: string, value: AttributeValue)
    returns (got: Option<AttributeValue>)
    modifies exchange.attributes
    ensures got == Some(value)
  {
    exchange.Put(key, value);
    got := exchange.Get(key);
  }
}
