/** `ResolvedResourceConfig`: a resource configuration flattened into its four
    condition maps, each empty when the configuration does not provide it. */
module ResolvedResourceConfig {
  import opened Common
  import opened Config

  datatype Resolved = Resolved(
    config: ResourceConfig,
    pathParams: ConditionMap,
    queryParams: ConditionMap,
    formParams: ConditionMap,
    requestHeaders: ConditionMap
  )

  /** The holder's map when the configuration is a holder whose map is set, else an
      empty map. */
  function OrEmpty(holder: Option<Option<ConditionMap>>): ConditionMap {
    match holder
    case Some(Some(m)) => m
    case _ => map[]
  }

  /** `ResolvedResourceConfig.parse`. */
  function Parse(config: ResourceConfig): (r: Resolved)
    ensures r.config == config
    // a holder with a non-null map has it copied unchanged
    ensures config.pathParams.Some? && config.pathParams.value.Some? ==> r.pathParams == config.pathParams.value.value
    ensures config.queryParams.Some? && config.queryParams.value.Some? ==> r.queryParams == config.queryParams.value.value
    ensures config.formParams.Some? && config.formParams.value.Some? ==> r.formParams == config.formParams.value.value
    ensures config.requestHeaders.Some? && config.requestHeaders.value.Some? ==>
              r.requestHeaders == config.requestHeaders.value.value
    // a configuration that is not a holder, or a holder whose map is null, gets an empty map
    ensures (config.pathParams.None? || config.pathParams.value.None?) ==> r.pathParams == map[]
    ensures (config.queryParams.None? || config.queryParams.value.None?) ==> r.queryParams == map[]
    ensures (config.formParams.None? || config.formParams.value.None?) ==> r.formParams == map[]
    ensures (config.requestHeaders.None? || config.requestHeaders.value.None?) ==> r.requestHeaders == map[]
  {
    Resolved(
      config,
      OrEmpty(config.pathParams),
      OrEmpty(config.queryParams),
      OrEmpty(config.formParams),
      OrEmpty(config.requestHeaders))
  }

  /** A configuration with no condition maps at all resolves to four empty maps. */
  lemma ParseBare()
    ensures Parse(BareConfig) == Resolved(BareConfig, map[], map[], map[], map[])
  {
  }
}
