/** `OpenApiPluginImpl`: the routes an OpenAPI specification gives, the status code
    and specification response an operation answers with, and the content type taken
    from the specification.

    The specification is reduced to what the plugin reads: the paths with their
    operations, and each operation's responses keyed by status. Loading the
    specification, `determinePathFromSpec` and `convertPathFromOpenApi` are not part of
    this model; they are parameters. */
module OpenApiPlugin {
  import opened Common
  import opened Http
  import opened Config
  import opened ResponseBehaviour
  import opened LambdaExchange

  /** An `ApiResponse`; `content` lists its media types in order. */
  datatype ApiResponse = ApiResponse(description: string, content: Option<seq<string>>)

  /** An `Operation`; `responses` lists the `ApiResponses` entries in order. */
  datatype Operation = Operation(operationId: string, responses: Option<seq<(string, ApiResponse)>>)

  datatype PathItem = PathItem(path: string, operations: seq<(HttpMethod, Operation)>)

  datatype OpenApiSpec = OpenApiSpec(paths: seq<PathItem>)

  datatype OpenApiPluginConfig = OpenApiPluginConfig(path: Option<string>, stripServerPath: bool, specFile: string)

  datatype ParsedSpec = ParsedSpec(spec: OpenApiSpec, pathPrefix: string)

  /** A route bound to an operation's handler. */
  datatype Route = Route(httpMethod: HttpMethod, fullPath: string, operation: Operation, config: OpenApiPluginConfig)

  /** "default" is the response without a status code. */
  const DEFAULT_RESPONSE_KEY: string := "default"

  // ---------------------------------------------------------------------------
  // Paths

  /** `buildFullPath`: the prefix and the converted operation path, joined by exactly
      one '/' when either side has one at the junction, and by an inserted '/' when
      neither has. */
  function BuildFullPath(pathPrefix: string, specOperationPath: string,
                         convertPathFromOpenApi: string -> string): (r: string)
    ensures StartsWith(r, pathPrefix)
    ensures EndsWith(r, if StartsWith(convertPathFromOpenApi(specOperationPath), "/")
                        then convertPathFromOpenApi(specOperationPath)[1..]
                        else convertPathFromOpenApi(specOperationPath))
  {
    var operationPath := convertPathFromOpenApi(specOperationPath);
    if EndsWith(pathPrefix, "/") then
      if StartsWith(operationPath, "/") then pathPrefix + operationPath[1..]
      else pathPrefix + operationPath
    else
      if StartsWith(operationPath, "/") then pathPrefix + operationPath
      else pathPrefix + "/" + operationPath
  }

  /** Slashes at the junction do not matter: with or without a trailing '/' on the
      prefix and a leading '/' on the operation path, the result is prefix, one '/',
      operation path. */
  lemma FullPathSlashInsensitive(prefix: string, operationPath: string, spec: string,
                                 convertPathFromOpenApi: string -> string)
    requires !EndsWith(prefix, "/") && !StartsWith(operationPath, "/")
    requires convertPathFromOpenApi(spec) in {operationPath, "/" + operationPath}
    ensures BuildFullPath(prefix, spec, convertPathFromOpenApi) == prefix + "/" + operationPath
    ensures BuildFullPath(prefix + "/", spec, convertPathFromOpenApi) == prefix + "/" + operationPath
  {
    SlashAppended(prefix);
    if convertPathFromOpenApi(spec) == "/" + operationPath {
      SlashPrepended(operationPath);
    }
  }

  lemma SlashAppended(s: string)
    ensures EndsWith(s + "/", "/")
  {
    var p := s + "/";
    assert p[|p| - 1..] == "/";
  }

  lemma SlashPrepended(s: string)
    ensures StartsWith("/" + s, "/") && ("/" + s)[1..] == s
  {
    var p := "/" + s;
    assert p[..1] == "/";
  }

  /** The serving prefix: the configured root path, then the specification's server
      path unless `stripServerPath` is set. */
  function ServingPrefix(config: OpenApiPluginConfig, spec: OpenApiSpec,
                         determinePathFromSpec: OpenApiSpec -> string): (r: string)
    ensures StartsWith(r, config.path.GetOr(""))
    ensures config.stripServerPath ==> r == config.path.GetOr("")
    ensures !config.stripServerPath ==> r == config.path.GetOr("") + determinePathFromSpec(spec)
  {
    config.path.GetOr("") + if config.stripServerPath then "" else determinePathFromSpec(spec)
  }

  /** `handlePathOperations`: one route per operation of the path, in order. */
  function PathRoutes(config: OpenApiPluginConfig, servingPrefix: string, item: PathItem,
                      convertPathFromOpenApi: string -> string): (rs: seq<Route>)
    ensures |rs| == |item.operations|
    ensures forall i :: 0 <= i < |rs| ==>
              rs[i] == Route(item.operations[i].0, BuildFullPath(servingPrefix, item.path, convertPathFromOpenApi),
                             item.operations[i].1, config)
  {
    seq(|item.operations|, i requires 0 <= i < |item.operations| =>
      Route(item.operations[i].0, BuildFullPath(servingPrefix, item.path, convertPathFromOpenApi),
            item.operations[i].1, config))
  }

  /** The routes of all paths of a specification, in order. */
  function SpecRoutes(config: OpenApiPluginConfig, servingPrefix: string, paths: seq<PathItem>,
                      convertPathFromOpenApi: string -> string): seq<Route>
  {
    if paths == [] then []
    else PathRoutes(config, servingPrefix, paths[0], convertPathFromOpenApi)
         + SpecRoutes(config, servingPrefix, paths[1..], convertPathFromOpenApi)
  }

  function ConfigRoutes(config: OpenApiPluginConfig, parseSpecification: OpenApiPluginConfig -> OpenApiSpec,
                        determinePathFromSpec: OpenApiSpec -> string,
                        convertPathFromOpenApi: string -> string): seq<Route>
  {
    var spec := parseSpecification(config);
    SpecRoutes(config, ServingPrefix(config, spec, determinePathFromSpec), spec.paths, convertPathFromOpenApi)
  }

  function AllRoutes(configs: seq<OpenApiPluginConfig>, parseSpecification: OpenApiPluginConfig -> OpenApiSpec,
                     determinePathFromSpec: OpenApiSpec -> string,
                     convertPathFromOpenApi: string -> string): seq<Route>
  {
    if configs == [] then []
    else AllRoutes(configs[..|configs| - 1], parseSpecification, determinePathFromSpec, convertPathFromOpenApi)
         + ConfigRoutes(configs[|configs| - 1], parseSpecification, determinePathFromSpec, convertPathFromOpenApi)
  }

  /** `parseSpecs`: for each configuration in order, parse its specification, bind its
      operations, and keep the specification with its path prefix, which is the
      configured root path without the server path. */
  method ParseSpecs(configs: seq<OpenApiPluginConfig>, parseSpecification: OpenApiPluginConfig -> OpenApiSpec,
                    determinePathFromSpec: OpenApiSpec -> string, convertPathFromOpenApi: string -> string)
    returns (allSpecs: seq<ParsedSpec>, routes: seq<Route>)
    ensures |allSpecs| == |configs|
    ensures forall i :: 0 <= i < |configs| ==>
              allSpecs[i] == ParsedSpec(parseSpecification(configs[i]), configs[i].path.GetOr(""))
    ensures routes == AllRoutes(configs, parseSpecification, determinePathFromSpec, convertPathFromOpenApi)
  {
    allSpecs := [];
    routes := [];
    var i := 0;
    while i < |configs|
      invariant 0 <= i <= |configs|
      invariant |allSpecs| == i
      invariant forall k :: 0 <= k < i ==>
                  allSpecs[k] == ParsedSpec(parseSpecification(configs[k]), configs[k].path.GetOr(""))
      invariant routes == AllRoutes(configs[..i], parseSpecification, determinePathFromSpec, convertPathFromOpenApi)
    {
      var config := configs[i];
      var spec := parseSpecification(config);
      var pathPrefix := config.path.GetOr("");
      var servingPrefix := ServingPrefix(config, spec, determinePathFromSpec);
      AllRoutesStep(configs, i, parseSpecification, determinePathFromSpec, convertPathFromOpenApi);
      routes := routes + SpecRoutes(config, servingPrefix, spec.paths, convertPathFromOpenApi);
      allSpecs := allSpecs + [ParsedSpec(spec, pathPrefix)];
      i := i + 1;
    }
    assert configs[..i] == configs;
  }

  lemma AllRoutesStep(configs: seq<OpenApiPluginConfig>, i: nat,
                      parseSpecification: OpenApiPluginConfig -> OpenApiSpec,
                      determinePathFromSpec: OpenApiSpec -> string, convertPathFromOpenApi: string -> string)
    requires i < |configs|
    ensures AllRoutes(configs[..i + 1], parseSpecification, determinePathFromSpec, convertPathFromOpenApi)
            == AllRoutes(configs[..i], parseSpecification, determinePathFromSpec, convertPathFromOpenApi)
               + ConfigRoutes(configs[i], parseSpecification, determinePathFromSpec, convertPathFromOpenApi)
  {
    assert configs[..i + 1][..i] == configs[..i];
  }

  /** Every route of a specification lies under its serving prefix. */
  lemma {:induction false} SpecRoutesUnderPrefix(config: OpenApiPluginConfig, servingPrefix: string,
                                                 paths: seq<PathItem>, convertPathFromOpenApi: string -> string)
    ensures forall r :: r in SpecRoutes(config, servingPrefix, paths, convertPathFromOpenApi) ==>
              StartsWith(r.fullPath, servingPrefix) && r.config == config
  {
    if paths != [] {
      SpecRoutesUnderPrefix(config, servingPrefix, paths[1..], convertPathFromOpenApi);
    }
  }

  // ---------------------------------------------------------------------------
  // Status code and specification response

  /** The index of the first response key that is not "default", ignoring case. */
  function FirstNonDefault(responses: seq<(string, ApiResponse)>): (i: nat)
    ensures i <= |responses|
    ensures forall k :: 0 <= k < i ==> EqualsIgnoreCase(responses[k].0, DEFAULT_RESPONSE_KEY)
    ensures i < |responses| ==> !EqualsIgnoreCase(responses[i].0, DEFAULT_RESPONSE_KEY)
  {
    if responses == [] then 0
    else if !EqualsIgnoreCase(responses[0].0, DEFAULT_RESPONSE_KEY) then 0
    else 1 + FirstNonDefault(responses[1..])
  }

  /** `buildStatusCodeCalculator`: the configured status code; else the first response
      key other than "default", as an integer (a key that is not one raises
      `NumberFormatException`); else 200. */
  function StatusCodeFor(rc: ResourceConfig, operation: Operation): (r: Result<int>)
    ensures rc.responseConfig.Some? && rc.responseConfig.value.statusCode.Some? ==>
              r == Ok(rc.responseConfig.value.statusCode.value)
    ensures (rc.responseConfig.None? || rc.responseConfig.value.statusCode.None?) ==>
              if operation.responses.Some? && FirstNonDefault(operation.responses.value) < |operation.responses.value| then
                var key := operation.responses.value[FirstNonDefault(operation.responses.value)].0;
                (r.Ok? <==> ParseInt(key).Some?) && (r.Ok? ==> r.value == ParseInt(key).value)
              else r == Ok(HTTP_OK)
  {
    if rc.responseConfig.Some? && rc.responseConfig.value.statusCode.Some? then
      Ok(rc.responseConfig.value.statusCode.value)
    else if operation.responses.Some? && FirstNonDefault(operation.responses.value) < |operation.responses.value| then
      var key := operation.responses.value[FirstNonDefault(operation.responses.value)].0;
      match ParseInt(key)
      case Some(code) => Ok(code)
      case None => Err("For input string: \"" + key + "\"")
    else Ok(HTTP_OK)
  }

  /** An operation whose only responses are "default" answers 200 unless configured. */
  lemma OnlyDefaultResponses(rc: ResourceConfig, operation: Operation, response: ApiResponse)
    requires rc.responseConfig.Some? && rc.responseConfig.value.statusCode.None?
    requires operation.responses == Some([("default", response), ("DEFAULT", response)])
    ensures StatusCodeFor(rc, operation) == Ok(HTTP_OK)
  {
    assert EqualsIgnoreCase("DEFAULT", DEFAULT_RESPONSE_KEY) by {
      assert Lower("DEFAULT") == "default";
    }
  }

  /** A configured status code wins over the specification, and a status key after a
      "default" entry is the one used. */
  lemma StatusCodePrecedence(rc: ResourceConfig, operation: Operation, code: int, key: string,
                             response: ApiResponse, rest: seq<(string, ApiResponse)>)
    requires rc.responseConfig.Some? && rc.responseConfig.value.statusCode.None?
    requires !EqualsIgnoreCase(key, DEFAULT_RESPONSE_KEY) && ParseInt(key) == Some(code)
    requires operation.responses == Some([(DEFAULT_RESPONSE_KEY, response), (key, response)] + rest)
    ensures StatusCodeFor(rc, operation) == Ok(code)
    ensures StatusCodeFor(rc.(responseConfig := Some(rc.responseConfig.value.(statusCode := Some(HTTP_CREATED)))),
                          operation) == Ok(HTTP_CREATED)
  {
    var rs := operation.responses.value;
    assert EqualsIgnoreCase(rs[0].0, DEFAULT_RESPONSE_KEY);
    assert FirstNonDefault(rs[1..]) == 0;
  }

  /** The first entry under the key, as a lookup in the responses map. */
  function Lookup(responses: seq<(string, ApiResponse)>, key: string): (r: Option<ApiResponse>)
    ensures r.Some? <==> exists i :: 0 <= i < |responses| && responses[i].0 == key
    ensures r.Some? ==> exists i :: 0 <= i < |responses| && responses[i] == (key, r.value) &&
                                    forall k :: 0 <= k < i ==> responses[k].0 != key
  {
    if responses == [] then None
    else if responses[0].0 == key then Some(responses[0].1)
    else
      var r := Lookup(responses[1..], key);
      if r.Some? then
        ghost var i :| 0 <= i < |responses[1..]| && responses[1..][i] == (key, r.value) &&
                       forall k :: 0 <= k < i ==> responses[1..][k].0 != key;
        assert responses[i + 1] == (key, r.value);
        r
      else r
  }

  /** `findApiResponse`: the response keyed by the status code, written in decimal;
      otherwise the default response; nothing when the operation has no responses. */
  function FindApiResponse(operation: Operation, statusCode: int): (r: Option<ApiResponse>)
    ensures operation.responses.None? ==> r.None?
    ensures operation.responses.Some? && Lookup(operation.responses.value, IntToString(statusCode)).Some? ==>
              r == Lookup(operation.responses.value, IntToString(statusCode))
    ensures operation.responses.Some? && Lookup(operation.responses.value, IntToString(statusCode)).None? ==>
              r == Lookup(operation.responses.value, DEFAULT_RESPONSE_KEY)
  {
    match operation.responses
    case None => None
    case Some(responses) =>
      var byStatus := Lookup(responses, IntToString(statusCode));
      if byStatus.Some? then byStatus else Lookup(responses, DEFAULT_RESPONSE_KEY)
  }

  /** The status code's own response is preferred even when a default comes first; a
      status without its own response falls back to the default. */
  lemma StatusResponsePreferred(statusCode: int, byStatus: ApiResponse, fallback: ApiResponse)
    ensures FindApiResponse(Operation("op", Some([(DEFAULT_RESPONSE_KEY, fallback), (IntToString(statusCode), byStatus)])),
                            statusCode) == Some(byStatus)
    ensures FindApiResponse(Operation("op", Some([(DEFAULT_RESPONSE_KEY, fallback)])), statusCode) == Some(fallback)
  {
    var status := IntToString(statusCode);
    assert status != DEFAULT_RESPONSE_KEY by {
      if statusCode >= 0 {
        assert IsDigit(status[0]);
      } else {
        assert status[0] == '-';
      }
    }
    var rs := [(DEFAULT_RESPONSE_KEY, fallback), (status, byStatus)];
    assert rs[1..] == [(status, byStatus)];
    assert Lookup(rs, status) == Some(byStatus);
  }

  // ---------------------------------------------------------------------------
  // The default behaviour handler

  /** The content type the specification gives a response: its first media type. */
  function SpecContentType(response: ApiResponse): (r: Option<string>)
    ensures r.Some? <==> response.content.Some? && |response.content.value| > 0
    ensures r.Some? ==> r.value == response.content.value[0]
  {
    if response.content.Some? && |response.content.value| > 0 then Some(response.content.value[0]) else None
  }

  /** `setContentTypeFromSpec`: the first media type becomes the behaviour's Content-Type. */
  method SetContentTypeFromSpec(behaviour: ReadWriteResponseBehaviour, response: ApiResponse)
    modifies behaviour
    ensures SpecContentType(response).Some? ==>
              behaviour.State() == old(behaviour.State()).(responseHeaders :=
                old(behaviour.responseHeaders)[CONTENT_TYPE := SpecContentType(response).value])
    ensures SpecContentType(response).None? ==> behaviour.State() == old(behaviour.State())
  {
    if response.content.Some? && |response.content.value| > 0 {
      var firstContentType := response.content.value[0];
      behaviour.responseHeaders := behaviour.responseHeaders[CONTENT_TYPE := firstContentType];
    }
  }

  /** What the handler does after setting the status: serve from the specification
      response (by the response service, not part of this model), or end empty. */
  datatype HandlerOutcome = ServeFromSpec(specResponse: ApiResponse) | EndedEmpty

  /** `defaultBehaviourHandler`: the status is set whatever happens; the Content-Type
      comes from the specification only when the behaviour has none. */
  method DefaultBehaviourHandler(operation: Operation, behaviour: ReadWriteResponseBehaviour,
                                 response: LambdaHttpResponse)
    returns (outcome: HandlerOutcome)
    modifies behaviour, response
    ensures response.statusCode == old(behaviour.statusCode)
    ensures FindApiResponse(operation, old(behaviour.statusCode)).Some? ==>
              outcome == ServeFromSpec(FindApiResponse(operation, old(behaviour.statusCode)).value) &&
              response.endCalls == old(response.endCalls)
    ensures FindApiResponse(operation, old(behaviour.statusCode)).None? ==>
              outcome == EndedEmpty && response.endCalls == old(response.endCalls) + 1 &&
              behaviour.State() == old(behaviour.State())
    ensures CONTENT_TYPE in old(behaviour.responseHeaders) ==> behaviour.State() == old(behaviour.State())
    ensures FindApiResponse(operation, old(behaviour.statusCode)).Some? && CONTENT_TYPE !in old(behaviour.responseHeaders) ==>
              var contentType := SpecContentType(FindApiResponse(operation, old(behaviour.statusCode)).value);
              behaviour.State() == if contentType.Some? then
                                     old(behaviour.State()).(responseHeaders :=
                                       old(behaviour.responseHeaders)[CONTENT_TYPE := contentType.value])
                                   else old(behaviour.State())
    ensures response.bodyBuffer == old(response.bodyBuffer) && response.headers == old(response.headers)
  {
    response.SetStatusCode(behaviour.statusCode);
    var specResponse := FindApiResponse(operation, behaviour.statusCode);
    if specResponse.Some? {
      if CONTENT_TYPE !in behaviour.responseHeaders {
        SetContentTypeFromSpec(behaviour, specResponse.value);
      }
      outcome := ServeFromSpec(specResponse.value);
    } else {
      response.End();
      outcome := EndedEmpty;
    }
  }

  /** `fallback`: with no example, end the response empty and report it handled. */
  method Fallback(response: LambdaHttpResponse) returns (handled: bool)
    modifies response
    ensures handled
    ensures response.statusCode == old(response.statusCode) && response.bodyBuffer == old(response.bodyBuffer)
    ensures response.headers == old(response.headers) && response.endCalls == old(response.endCalls) + 1
  {
    response.End();
    handled := true;
  }
}
