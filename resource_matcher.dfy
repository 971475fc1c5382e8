/** `SingletonResourceMatcher`: the per-dimension checks of a request against one
    resolved resource. The path, body and eval dimensions and the aggregation of the
    eight results into a verdict belong to a base class that is not part of this
    model; their results are inputs here. */
module ResourceMatcher {
  import opened Common
  import opened Http
  import opened MatchUtil
  import opened Config
  import opened ResolvedResourceConfig

  datatype MatchResultType = NoConfig | ExactMatch | NotMatched

  datatype ResourceMatchResult = ResourceMatchResult(description: string, kind: MatchResultType)

  /** `matchMethod`: only a method configuration with a non-null method can match or fail. */
  function MatchMethod(config: ResourceConfig, request: HttpRequest): (r: ResourceMatchResult)
    ensures r.description == "method"
    ensures (config.resourceMethod.None? || config.resourceMethod.value.None?) ==> r.kind == NoConfig
    ensures config.resourceMethod == Some(Some(request.httpMethod)) ==> r.kind == ExactMatch
    ensures (config.resourceMethod.Some? && config.resourceMethod.value.Some? &&
             config.resourceMethod.value.value != request.httpMethod) ==> r.kind == NotMatched
  {
    match config.resourceMethod
    case Some(Some(m)) =>
      ResourceMatchResult("method", if request.httpMethod == m then ExactMatch else NotMatched)
    case _ => ResourceMatchResult("method", NoConfig)
  }

  /** The map the configured keys are looked up in: the request map itself, or the
      request map with lower-cased keys. */
  function ComparisonMap(requestMap: Entries, caseSensitive: bool): Entries {
    if caseSensitive then requestMap else LowerKeys(requestMap)
  }

  function ConfigKey(key: string, caseSensitive: bool): string {
    if caseSensitive then key else Lower(key)
  }

  /** The request value a configured key is tested against. */
  function RequestValue(requestMap: Entries, key: string, caseSensitive: bool): Option<string> {
    Get(ComparisonMap(requestMap, caseSensitive), ConfigKey(key, caseSensitive))
  }

  predicate AllConditionsMatch(rx: Regex, requestMap: Entries, resourceMap: ConditionMap, caseSensitive: bool) {
    forall key :: key in resourceMap ==>
      ConditionMatches(rx, resourceMap[key], RequestValue(requestMap, key, caseSensitive))
  }

  /** `matchPairs`: no configured pairs is NoConfig; otherwise every configured pair
      must hold of the request value under its key. */
  function MatchPairs(rx: Regex, description: string, requestMap: Entries, resourceMap: ConditionMap,
                      caseSensitive: bool): (r: ResourceMatchResult)
    ensures r.description == description
    ensures resourceMap == map[] ==> r.kind == NoConfig
    ensures resourceMap != map[] ==>
              (r.kind == ExactMatch <==> AllConditionsMatch(rx, requestMap, resourceMap, caseSensitive))
    ensures resourceMap != map[] ==> r.kind != NoConfig
  {
    if resourceMap == map[] then ResourceMatchResult(description, NoConfig)
    else if AllConditionsMatch(rx, requestMap, resourceMap, caseSensitive) then
      ResourceMatchResult(description, ExactMatch)
    else ResourceMatchResult(description, NotMatched)
  }

  /** `matchRequest`: the eight results handed to the aggregator, in order. */
  function MatchResults(rx: Regex, resource: Resolved, request: HttpRequest,
                        pathResult: ResourceMatchResult, bodyResult: ResourceMatchResult,
                        evalResult: ResourceMatchResult): (rs: seq<ResourceMatchResult>)
    ensures |rs| == 8
    ensures rs[0] == pathResult && rs[6] == bodyResult && rs[7] == evalResult
    ensures rs[1] == MatchMethod(resource.config, request)
    ensures rs[2] == MatchPairs(rx, "path params", request.pathParams, resource.pathParams, true)
    ensures rs[3] == MatchPairs(rx, "query params", request.queryParams, resource.queryParams, true)
    ensures rs[4] == MatchPairs(rx, "form params", request.formParams, resource.formParams, true)
    ensures rs[5] == MatchPairs(rx, "headers", request.headers, resource.requestHeaders, false)
  {
    [ pathResult,
      MatchMethod(resource.config, request),
      MatchPairs(rx, "path params", request.pathParams, resource.pathParams, true),
      MatchPairs(rx, "query params", request.queryParams, resource.queryParams, true),
      MatchPairs(rx, "form params", request.formParams, resource.formParams, true),
      MatchPairs(rx, "headers", request.headers, resource.requestHeaders, false),
      bodyResult,
      evalResult ]
  }

  // ---------------------------------------------------------------------------
  // Properties

  /** An empty configured map is NoConfig whatever the request holds. */
  lemma EmptyConfigIsNoConfig(rx: Regex, description: string, a: Entries, b: Entries, caseSensitive: bool)
    ensures MatchPairs(rx, description, a, map[], caseSensitive).kind == NoConfig
    ensures MatchPairs(rx, description, a, map[], caseSensitive) == MatchPairs(rx, description, b, map[], caseSensitive)
  {
  }

  /** Request parameters that are not configured never change the outcome: two request
      maps that give the same value under every configured key give the same result. */
  lemma ExtraParamsIrrelevant(rx: Regex, description: string, a: Entries, b: Entries,
                              resourceMap: ConditionMap, caseSensitive: bool)
    requires forall key :: key in resourceMap ==>
               RequestValue(a, key, caseSensitive) == RequestValue(b, key, caseSensitive)
    ensures MatchPairs(rx, description, a, resourceMap, caseSensitive)
            == MatchPairs(rx, description, b, resourceMap, caseSensitive)
  {
  }

  /** Dropping configured pairs (but not all of them) keeps an exact match. */
  lemma SubMapKeepsExactMatch(rx: Regex, description: string, requestMap: Entries,
                              resourceMap: ConditionMap, sub: ConditionMap, caseSensitive: bool)
    requires sub != map[]
    requires forall key :: key in sub ==> key in resourceMap && sub[key] == resourceMap[key]
    requires MatchPairs(rx, description, requestMap, resourceMap, caseSensitive).kind == ExactMatch
    ensures MatchPairs(rx, description, requestMap, sub, caseSensitive).kind == ExactMatch
  {
  }

  /** Case-sensitive keys: a configured key is tested against the last request entry
      with exactly that key, or against an absent value. */
  lemma CaseSensitiveLookup(requestMap: Entries, key: string)
    ensures RequestValue(requestMap, key, true).Some? <==>
            exists i :: 0 <= i < |requestMap| && requestMap[i].0 == key
  {
  }

  /** Case-insensitive keys (headers): a configured key is tested against the last
      request entry whose key equals it ignoring case, on both sides. */
  lemma {:induction false} HeaderKeysIgnoreCase(requestMap: Entries, key: string)
    ensures RequestValue(requestMap, key, false) ==
            (if HasKeyIgnoringCase(requestMap, key)
             then Some(requestMap[LastIgnoringCase(requestMap, key)].1) else None)
  {
    GetLowerKeys(requestMap, key);
  }

  /** A configured header key matches whatever the letter case in which it was written. */
  lemma ConfiguredHeaderCaseIrrelevant(requestMap: Entries, key: string, otherKey: string)
    requires EqualsIgnoreCase(key, otherKey)
    ensures RequestValue(requestMap, key, false) == RequestValue(requestMap, otherKey, false)
  {
  }

  /** The letter case of request header keys does not change the headers result. */
  lemma {:induction false} RequestHeaderCaseIrrelevant(rx: Regex, requestMap: Entries, resourceMap: ConditionMap)
    ensures MatchPairs(rx, "headers", LowerKeys(requestMap), resourceMap, false)
            == MatchPairs(rx, "headers", requestMap, resourceMap, false)
  {
    LowerKeysIdempotent(requestMap);
  }

  lemma LowerKeysIdempotent(es: Entries)
    ensures LowerKeys(LowerKeys(es)) == LowerKeys(es)
  {
    forall i | 0 <= i < |es| ensures LowerKeys(LowerKeys(es))[i] == LowerKeys(es)[i] {
      LowerIdempotent(es[i].0);
    }
  }
}
