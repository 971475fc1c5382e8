/** The typed configuration tree the engine consumes: resources, their condition maps,
    their response and security directives.

    The source gives each capability its own interface (`MethodResourceConfig`,
    `QueryParamsResourceConfig`, `SecurityConfigHolder`, ...). Here a capability the
    configuration class lacks is the outer `None`; a capability it has whose property
    is null is `Some(None)`. */
module Config {
  import opened Common
  import opened Http
  import opened MatchUtil

  /** A configured `Map<String, ConditionalNameValuePair>`. */
  type ConditionMap = map<string, Condition>

  datatype SecurityEffect = Permit | Deny {
    function Invert(): (r: SecurityEffect)
      ensures r != this
    {
      if Permit? then Deny else Permit
    }
  }

  datatype SecurityCondition = SecurityCondition(
    effect: SecurityEffect,
    queryParams: ConditionMap,
    formParams: ConditionMap,
    requestHeaders: ConditionMap
  )

  datatype SecurityConfig = SecurityConfig(
    defaultEffect: SecurityEffect,
    conditions: seq<SecurityCondition>
  )

  /** The response directive. `exampleName` is read by the OpenAPI plugin, `soapFault`
      by the SOAP plugin; `hasConfiguration` stands for `ResponseConfig.hasConfiguration()`. */
  datatype ResponseConfig = ResponseConfig(
    statusCode: Option<int>,
    dir: Option<string>,
    exampleName: Option<string>,
    soapFault: Option<bool>,
    hasConfiguration: bool
  )

  const EmptyResponseConfig: ResponseConfig := ResponseConfig(None, None, None, None, false)

  datatype ResourceConfig = ResourceConfig(
    path: Option<string>,
    /** MethodResourceConfig.method */
    resourceMethod: Option<Option<HttpMethod>>,
    /** PathParamsResourceConfig.pathParams, QueryParamsResourceConfig.queryParams, ... */
    pathParams: Option<Option<ConditionMap>>,
    queryParams: Option<Option<ConditionMap>>,
    formParams: Option<Option<ConditionMap>>,
    requestHeaders: Option<Option<ConditionMap>>,
    /** SecurityConfigHolder.securityConfig */
    security: Option<Option<SecurityConfig>>,
    /** ResponseConfigHolder.responseConfig */
    responseConfig: Option<ResponseConfig>,
    /** PassthroughResourceConfig.passthrough */
    passthrough: Option<Option<string>>,
    /** ResourcesHolder.resources */
    resources: Option<Option<seq<ResourceConfig>>>
  )

  /** A plugin's configuration file: its root is itself a resource configuration, with
      the plugin name beside it. */
  datatype PluginConfig = PluginConfig(plugin: string, root: ResourceConfig)

  /** A configuration that implements none of the capability interfaces. */
  const BareConfig: ResourceConfig :=
    ResourceConfig(None, None, None, None, None, None, None, None, None, None)
}
