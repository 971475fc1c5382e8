/** The exchange the AWS Lambda adapter hands to the engine's router
    (`impl/model/LambdaHttpExchange.kt`): its attributes live in a map it is given, and
    its response runs the router's before-end handlers ahead of every `end`. */
module LambdaModelExchange {
  import opened Common
  import opened Http
  import opened HttpExchange
  import opened LambdaExchange

  /** The router, seen only through `invokeBeforeEndHandlers`. Each invocation is
      recorded with the body the response held at that moment; what the handlers do is
      not part of this model. */
  class HttpRouter {
    var beforeEndInvocations: seq<Option<seq<byte>>>

    constructor ()
      ensures beforeEndInvocations == []
    {
      beforeEndInvocations := [];
    }

    method InvokeBeforeEndHandlers(seenBody: Option<seq<byte>>)
      modifies this
      ensures beforeEndInvocations == old(beforeEndInvocations) + [seenBody]
    {
      beforeEndInvocations := beforeEndInvocations + [seenBody];
    }
  }

  class LambdaModelHttpExchange {
    const router: HttpRouter
    const currentRoute: Option<HttpRoute>
    const request: LambdaHttpRequest
    /** The response the wrapper delegates to. */
    const delegate: LambdaHttpResponse
    /** Externally managed, so that it outlives this exchange. */
    const attributes: Attributes
    const acceptedMimeTypes: seq<string>
    var phase: ExchangePhase
    var failureCause: Option<Failure>

    constructor (router: HttpRouter, currentRoute: Option<HttpRoute>, request: LambdaHttpRequest,
                 response: LambdaHttpResponse, attributes: Attributes, acceptedMimeTypes: seq<string>)
      ensures this.router == router && this.currentRoute == currentRoute && this.request == request
      ensures delegate == response && this.attributes == attributes
      ensures this.acceptedMimeTypes == acceptedMimeTypes
      ensures phase == RequestReceived && failureCause.None?
    {
      this.router := router;
      this.currentRoute := currentRoute;
      this.request := request;
      delegate := response;
      this.attributes := attributes;
      this.acceptedMimeTypes := acceptedMimeTypes;
      phase := RequestReceived;
      failureCause := None;
    }

    /** The wrapped response's `end()`: the handlers first, then the delegate. */
    method End()
      modifies router, delegate
      ensures router.beforeEndInvocations == old(router.beforeEndInvocations) + [old(delegate.bodyBuffer)]
      ensures delegate.statusCode == old(delegate.statusCode) && delegate.bodyBuffer == old(delegate.bodyBuffer)
      ensures delegate.headers == old(delegate.headers) && delegate.endCalls == old(delegate.endCalls) + 1
    {
      router.InvokeBeforeEndHandlers(delegate.bodyBuffer);
      delegate.End();
    }

    /** The wrapped response's `end(body)`: the handlers see the response before the body
        is written. */
    method EndBuffer(body: seq<byte>)
      modifies router, delegate
      ensures router.beforeEndInvocations == old(router.beforeEndInvocations) + [old(delegate.bodyBuffer)]
      ensures delegate.bodyBuffer == Some(body) && delegate.headers == WithContentLength(old(delegate.headers), body)
      ensures delegate.statusCode == old(delegate.statusCode) && delegate.endCalls == old(delegate.endCalls) + 1
    {
      router.InvokeBeforeEndHandlers(delegate.bodyBuffer);
      delegate.EndBuffer(body);
    }

    function IsAcceptHeaderEmpty(): bool {
      request.AcceptHeaderEmpty()
    }

    function AcceptsMimeType(mimeType: string): bool {
      AcceptsType(acceptedMimeTypes, mimeType)
    }

    /** `fail(cause)`: status 500 and the cause. */
    method Fail(cause: Option<Failure>)
      modifies this, delegate
      ensures delegate.statusCode == HTTP_INTERNAL_ERROR && failureCause == cause
      ensures delegate.bodyBuffer == old(delegate.bodyBuffer) && delegate.headers == old(delegate.headers)
      ensures phase == old(phase)
    {
      FailWith(HTTP_INTERNAL_ERROR, cause);
    }

    /** `fail(statusCode)`: the failure cause is left as it was. */
    method FailStatus(statusCode: int)
      modifies delegate
      ensures delegate.statusCode == statusCode
      ensures delegate.bodyBuffer == old(delegate.bodyBuffer) && delegate.headers == old(delegate.headers)
    {
      delegate.SetStatusCode(statusCode);
    }

    method FailWith(statusCode: int, cause: Option<Failure>)
      modifies this, delegate
      ensures delegate.statusCode == statusCode && failureCause == cause
      ensures delegate.bodyBuffer == old(delegate.bodyBuffer) && delegate.headers == old(delegate.headers)
      ensures phase == old(phase)
    {
      delegate.SetStatusCode(statusCode);
      failureCause := cause;
    }

    method Get(key: string) returns (value: Option<AttributeValue>)
      ensures value.Some? <==> key in attributes.entries
      ensures value.Some? ==> attributes.entries[key] == value.value
    {
      value := attributes.Get(key);
    }

    method Put(key: string, value: AttributeValue)
      modifies attributes
      ensures attributes.entries == old(attributes.entries)[key := value]
    {
      attributes.Put(key, value);
    }
  }

  /** Two exchanges built over the same attribute map see each other's writes. */
  method SharedAttributes(first: LambdaModelHttpExchange, second: LambdaModelHttpExchange,
                          key: string, value: AttributeValue)
    returns (seen: Option<AttributeValue>)
    requires first.attributes == second.attributes
    modifies first.attributes
    ensures seen == Some(value)
  {
    first.Put(key, value);
    seen := second.Get(key);
  }
}
