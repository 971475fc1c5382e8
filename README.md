# Imposter request-decision core in Dafny

Imposter is a mock-server engine. It loads plugin configuration files, builds routes
from them (and from OpenAPI specifications), and for each incoming request decides:

- whether a configured resource matches (method, path/query/form parameters, headers);
- whether the security policy permits the request;
- which response behaviour to produce (script, remote call, OpenAPI example, SOAP fault).

This project models that decision logic in Dafny and proves what the code promises about it.
The model also covers:

- the small parsers and path converters around the decision logic;
- configuration discovery;
- the in-memory store REST API;
- the AWS Lambda exchange objects;
- two older-generation components: the Salesforce mock and the legacy start-up.

One Dafny module corresponds to one source file. Pure source code is modelled as
datatypes, functions and lemmas. Code that updates state in place is modelled as
classes with `modifies` clauses, or as methods with loops proved against specification
functions. The shared modules are:

- `Common`: Option/Result, ASCII string helpers, decimal conversion and UTF-8.
- `Http`: request methods, status codes and request maps.
- `Config`: the configuration records.

Collaborators whose code is not part of this model are function-typed parameters:

- the regex engine;
- the base response-behaviour factory;
- the remote HTTP call and the capture service;
- the script engine;
- the JSON serialiser;
- `UniqueRoute.fromResourceConfig`;
- OpenAPI path conversion and spec parsing;
- the file-path join;
- plugin class lookup.

## Model

| member | source | states |
|---|---|---|
| MatchUtil.SafeEquals | core/api/src/main/java/io/gatehill/imposter/util/MatchUtil.kt:60-66 | true exactly when both values are null or they are equal |
| MatchUtil.SafeRegexMatch | core/api/src/main/java/io/gatehill/imposter/util/MatchUtil.kt:71-72 | a null expression never matches; an absent actual value is matched as the empty string |
| MatchUtil.ConditionMatches | core/api/src/main/java/io/gatehill/imposter/util/MatchUtil.kt:74-93 | for each of the four operators, exactly when the condition holds (null-safe equality, negated equality, regex match, negated regex match) |
| MatchUtil.NegatedOperators | core/api/src/main/java/io/gatehill/imposter/util/MatchUtil.kt:76-90 | NotEqualTo is the exact negation of EqualTo and NotMatches of Matches, for every value including null |
| MatchUtil.NullConfiguredValue | core/api/src/main/java/io/gatehill/imposter/util/MatchUtil.kt:60-90 | EqualTo null matches exactly an absent value; Matches null never matches; NotMatches null always matches |
| MatchUtil.NameIrrelevant | core/api/src/main/java/io/gatehill/imposter/util/MatchUtil.kt:74-93 | the condition's name plays no part in the test |
| ResourceMatcher.MatchMethod | core/engine/src/main/java/io/gatehill/imposter/http/SingletonResourceMatcher.kt:85-100 | no method configured (or not a method config) gives NoConfig; the request's method gives ExactMatch; any other gives NotMatched |
| ResourceMatcher.MatchPairs | core/engine/src/main/java/io/gatehill/imposter/http/SingletonResourceMatcher.kt:112-136 | an empty condition map gives NoConfig; otherwise ExactMatch exactly when every configured condition matches the request value under its key, else NotMatched |
| ResourceMatcher.MatchResults | core/engine/src/main/java/io/gatehill/imposter/http/SingletonResourceMatcher.kt:64-83 | exactly eight results in the order path, method, path params, query, form, headers (case-insensitive), body, eval |
| ResourceMatcher.EmptyConfigIsNoConfig | core/engine/src/main/java/io/gatehill/imposter/http/SingletonResourceMatcher.kt:118-121 | an empty condition map gives NoConfig whatever the request map |
| ResourceMatcher.ExtraParamsIrrelevant | core/engine/src/main/java/io/gatehill/imposter/http/SingletonResourceMatcher.kt:102-136 | request maps that agree on the configured keys give the same result, so unconfigured parameters never matter |
| ResourceMatcher.SubMapKeepsExactMatch | core/engine/src/main/java/io/gatehill/imposter/http/SingletonResourceMatcher.kt:126-135 | every non-empty sub-map of a map that matches exactly also matches exactly |
| ResourceMatcher.CaseSensitiveLookup | core/engine/src/main/java/io/gatehill/imposter/http/SingletonResourceMatcher.kt:124-129 | with case-sensitive keys a value is found exactly when the request has that exact key |
| ResourceMatcher.HeaderKeysIgnoreCase | core/engine/src/main/java/io/gatehill/imposter/http/SingletonResourceMatcher.kt:124-129 | with case-insensitive keys the value found is the last request entry whose key equals the configured key ignoring case |
| ResourceMatcher.ConfiguredHeaderCaseIrrelevant | core/engine/src/main/java/io/gatehill/imposter/http/SingletonResourceMatcher.kt:128-129 | configured header names differing only in case find the same request value |
| ResourceMatcher.RequestHeaderCaseIrrelevant | core/engine/src/main/java/io/gatehill/imposter/http/SingletonResourceMatcher.kt:123-124 | lower-casing the request header keys beforehand does not change the header result |
| ResolvedResourceConfig.Parse | core/api/src/main/java/io/gatehill/imposter/config/ResolvedResourceConfig.kt:63-69 | keeps the original configuration; each dimension is the holder's map when present and non-null, and empty otherwise |
| ResolvedResourceConfig.ParseBare | core/api/src/main/java/io/gatehill/imposter/config/ResolvedResourceConfig.kt:55-69 | a configuration holding no condition maps resolves to four empty maps |
| ResourceUtil.ConvertPathParamsToBracketFormat | core/api/src/main/java/io/gatehill/imposter/util/ResourceUtil.kt:88-101 | null or empty paths are returned unchanged; otherwise the result is the reference bracket rewriting, and it contains no `:name` placeholder; the loop terminates because each pass removes one ':' |
| ResourceUtil.ReplaceFirstRemovesColon | core/api/src/main/java/io/gatehill/imposter/util/ResourceUtil.kt:91-98 | each rewriting pass removes exactly one ':' |
| ResourceUtil.ReplaceFirstKeepsBracketed | core/api/src/main/java/io/gatehill/imposter/util/ResourceUtil.kt:91-98 | one rewriting pass does not change the final rewriting result |
| ResourceUtil.BracketedHasNoColonParam | core/api/src/main/java/io/gatehill/imposter/util/ResourceUtil.kt:70-98 | the rewritten path has no ':' followed by a name character |
| ResourceUtil.NoColonParamBracketed | core/api/src/main/java/io/gatehill/imposter/util/ResourceUtil.kt:91-98 | a path without `:name` placeholders is left as it is |
| ResourceUtil.ExampleBracketed | core/api/src/main/java/io/gatehill/imposter/util/ResourceUtil.kt:73-98 | "/example/:foo" becomes "/example/{foo}" |
| ResourceUtil.ExtractResourceMethod | core/api/src/main/java/io/gatehill/imposter/util/ResourceUtil.kt:106-112 | GET for a non-method configuration; the configured method; otherwise the given default |
| ResourceUtil.IsStaticContentRoute | core/api/src/main/java/io/gatehill/imposter/util/ResourceUtil.kt:117-118 | true exactly when the resource has a response configuration whose directory is set and not blank |
| ResourceUtil.CountPlaceholders | core/api/src/main/java/io/gatehill/imposter/util/ResourceUtil.kt:123-127 | with a path, exactly the number of '{' in it (zero exactly when it has none); a regex-only route weighs 1000; neither gives 0 |
| ResourceUtil.PlaceholdersOfAppendedParam | core/api/src/main/java/io/gatehill/imposter/util/ResourceUtil.kt:123-127 | appending "/{id}" to the path adds exactly one placeholder |
| Security.FindConfigPreferringSecurityPolicy | core/engine/src/main/java/io/gatehill/imposter/service/security/SecurityServiceImpl.kt:73-92 | an empty list is an error; the result is one of the configurations; with no security holder it is the first; a security holder is selected only when it is the only one |
| Security.UniqueRootPolicySelected | core/engine/src/main/java/io/gatehill/imposter/service/security/SecurityServiceImpl.kt:84-87 | exactly one configuration with a security block is the one selected |
| Security.DuplicateRootPolicyFails | core/engine/src/main/java/io/gatehill/imposter/service/security/SecurityServiceImpl.kt:86-90 | two configurations with a security block make loading fail |
| Security.PairEffect | core/engine/src/main/java/io/gatehill/imposter/service/security/SecurityServiceImpl.kt:182-191 | a pair yields the condition's effect exactly when its condition matches the request value under the pair's name |
| Security.PairPermitsIff | core/engine/src/main/java/io/gatehill/imposter/service/security/SecurityServiceImpl.kt:181-191 | a pair yields Permit exactly when "the condition matches" and "the effect is Permit" are both true or both false |
| Security.PairEffects | core/engine/src/main/java/io/gatehill/imposter/service/security/SecurityServiceImpl.kt:175-206 | one effect per configured pair, all Permit exactly when every pair of the map permits |
| Security.CheckCondition | core/engine/src/main/java/io/gatehill/imposter/service/security/SecurityServiceImpl.kt:126-162 | true exactly when every query, form and header pair permits, with header keys compared ignoring case |
| Security.EmptyConditionPermits | core/engine/src/main/java/io/gatehill/imposter/service/security/SecurityServiceImpl.kt:160-161 | a condition without pairs permits |
| Security.HeaderPairIgnoresCase | core/engine/src/main/java/io/gatehill/imposter/service/security/SecurityServiceImpl.kt:181-191 | a header pair is judged on the last request header whose name equals the pair's name ignoring case |
| Security.EvaluatePolicy | core/engine/src/main/java/io/gatehill/imposter/service/security/SecurityServiceImpl.kt:106-117 | Permit (source "all conditions") exactly when no condition fails, otherwise Deny |
| Security.Enforce | core/engine/src/main/java/io/gatehill/imposter/service/security/SecurityServiceImpl.kt:97-104 | permits exactly when the policy's effect is Permit; a denial fails the exchange with 401 |
| Security.NoConditionsDefaultEffect | core/engine/src/main/java/io/gatehill/imposter/service/security/SecurityServiceImpl.kt:98-99 | with no conditions the outcome is the default effect |
| Security.DenyIffSomeConditionFails | core/engine/src/main/java/io/gatehill/imposter/service/security/SecurityServiceImpl.kt:100-116 | with conditions, Deny exactly when some condition fails, and the default effect is ignored |
| Security.DescriptionIgnoresForm | core/engine/src/main/java/io/gatehill/imposter/service/security/SecurityServiceImpl.kt:225-243 | the denial description does not depend on form conditions |
| SecurityListener.SelectPolicy | core/engine/src/main/java/io/gatehill/imposter/service/security/SecurityLifecycleListenerImpl.kt:92-108 | the resource's own policy when it has one, else the root's |
| SecurityListener.IsRequestPermitted | core/engine/src/main/java/io/gatehill/imposter/service/security/SecurityLifecycleListenerImpl.kt:64-90 | with no policy at either level the request is permitted; otherwise the decision is that of enforcing the selected policy; the resolved resource configurations play no part |
| SecurityListener.ResourcePolicyWins | core/engine/src/main/java/io/gatehill/imposter/service/security/SecurityLifecycleListenerImpl.kt:96-101 | a resource-level policy is used instead of the root policy |
| SecurityListener.RootPolicyFallback | core/engine/src/main/java/io/gatehill/imposter/service/security/SecurityLifecycleListenerImpl.kt:97-108 | a missing resource, a non-holder or a holder without a policy falls back to the root policy |
| SecurityListener.ResourcePermitOverridesRootDeny | core/engine/src/main/java/io/gatehill/imposter/service/security/SecurityLifecycleListenerImpl.kt:92-102 | a permitting resource policy permits under a denying root policy, which still denies elsewhere |
| ResponseBehaviour.Populate | mock/soap/src/main/java/io/gatehill/imposter/plugin/soap/http/SoapResponseBehaviourFactory.kt:58-70 | the behaviour afterwards is the factory's populated state of the old one |
| ResponseBehaviour.Merge | mock/soap/src/main/java/io/gatehill/imposter/plugin/soap/http/SoapResponseBehaviourFactory.kt:72-80 | the target afterwards is the factory's merged state of the source and the old target |
| ResponseBehaviour.OpenApiKeepsExistingName | mock/openapi/src/main/java/io/gatehill/imposter/plugin/openapi/http/OpenApiResponseBehaviourFactory.kt:58-68 | the base populate runs first; a non-empty example name it leaves is never overwritten, and nothing but the example name differs from the base result |
| ResponseBehaviour.OpenApiFillsEmptyName | mock/openapi/src/main/java/io/gatehill/imposter/plugin/openapi/http/OpenApiResponseBehaviourFactory.kt:64-67 | an empty name is filled with a non-empty configured name; an empty configured name leaves the base result as it is |
| ResponseBehaviour.OpenApiNameEmptyIff | mock/openapi/src/main/java/io/gatehill/imposter/plugin/openapi/http/OpenApiResponseBehaviourFactory.kt:63-67 | the example name ends empty exactly when both the base result's and the configured names are empty |
| ResponseBehaviour.SoapPopulateOrder | mock/soap/src/main/java/io/gatehill/imposter/plugin/soap/http/SoapResponseBehaviourFactory.kt:58-70 | a configured soapFault of true marks the fault before the base populate runs; false or null never does |
| ResponseBehaviour.SoapMergeFault | mock/soap/src/main/java/io/gatehill/imposter/plugin/soap/http/SoapResponseBehaviourFactory.kt:72-80 | a faulted source leaves the target faulted with status 500; a non-faulted source gives exactly the base merge |
| ResponseBehaviour.Faulted | mock/soap/src/main/java/io/gatehill/imposter/plugin/soap/http/SoapResponseBehaviourFactory.kt:63-65 | marking a fault sets the fault flag and status 500 and changes nothing else |
| ScriptStep.InlineExtension | core/engine/src/main/java/io/gatehill/imposter/model/steps/ScriptProcessingStep.kt:90-94 | "groovy" gives groovy; absent, "js" or "javascript" give js; any other language is rejected with its name |
| ScriptStep.ParseScriptSource | core/engine/src/main/java/io/gatehill/imposter/model/steps/ScriptProcessingStep.kt:89-107 | inline code gives source id step id + "_inline." + extension; a file gives its resolved path as both id and file; neither is an error |
| ScriptStep.Execute | core/engine/src/main/java/io/gatehill/imposter/model/steps/ScriptProcessingStep.kt:63-86 | a bad script source is an error; otherwise the script's own behaviour, populated exactly when its type is absent or DEFAULT |
| ScriptStep.InlinePrecedence | core/engine/src/main/java/io/gatehill/imposter/model/steps/ScriptProcessingStep.kt:89-100 | inline code takes precedence over a script file |
| ScriptStep.FileLanguageUnchecked | core/engine/src/main/java/io/gatehill/imposter/model/steps/ScriptProcessingStep.kt:100-106 | the language does not matter for a file-based script |
| ScriptStep.InlineSourceIdsDistinct | core/engine/src/main/java/io/gatehill/imposter/model/steps/ScriptProcessingStep.kt:95-98 | distinct steps get distinct inline source ids |
| ScriptStep.ShortCircuitUntouched | core/engine/src/main/java/io/gatehill/imposter/model/steps/ScriptProcessingStep.kt:73-85 | a short-circuit behaviour from the script is returned without populating it |
| RemoteStep.Evaluators | core/engine/src/main/java/io/gatehill/imposter/model/steps/RemoteProcessingStep.kt:69-72 | the default evaluators plus a "remote" entry, the others kept |
| RemoteStep.Execute | core/engine/src/main/java/io/gatehill/imposter/model/steps/RemoteProcessingStep.kt:74-103 | a failed remote call gives a 500 behaviour with an empty response config and no captures; otherwise captures run in order until one fails, and the behaviour is the incoming status and resource config only when all succeed |
| RemoteStep.FirstFailure | core/engine/src/main/java/io/gatehill/imposter/model/steps/RemoteProcessingStep.kt:83-94 | the captures before the first failing one all succeed |
| RemoteStep.AllCapturesRun | core/engine/src/main/java/io/gatehill/imposter/model/steps/RemoteProcessingStep.kt:83-95 | no capture fails exactly when every capture succeeds, and then every configured key is captured once |
| OpenApiPlugin.BuildFullPath | mock/openapi/src/main/java/io/gatehill/imposter/plugin/openapi/OpenApiPluginImpl.kt:249-265 | the full path begins with the prefix and ends with the converted operation path without its leading slash |
| OpenApiPlugin.FullPathSlashInsensitive | mock/openapi/src/main/java/io/gatehill/imposter/plugin/openapi/OpenApiPluginImpl.kt:252-264 | with or without a slash on either side of the junction, exactly one slash joins prefix and path |
| OpenApiPlugin.ServingPrefix | mock/openapi/src/main/java/io/gatehill/imposter/plugin/openapi/OpenApiPluginImpl.kt:166-181 | the configured path, followed by the spec's server path unless stripServerPath is set |
| OpenApiPlugin.ParseSpecs | mock/openapi/src/main/java/io/gatehill/imposter/plugin/openapi/OpenApiPluginImpl.kt:153-190 | one parsed spec per configuration in order; the routes are each configuration's operations under its serving prefix |
| OpenApiPlugin.SpecRoutesUnderPrefix | mock/openapi/src/main/java/io/gatehill/imposter/plugin/openapi/OpenApiPluginImpl.kt:224-240 | every route of a spec lies under the serving prefix and belongs to its configuration |
| OpenApiPlugin.StatusCodeFor | mock/openapi/src/main/java/io/gatehill/imposter/plugin/openapi/OpenApiPluginImpl.kt:387-394 | the configured status code; else the first response key other than "default" (ignoring case), as an integer; else 200 |
| OpenApiPlugin.StatusCodePrecedence | mock/openapi/src/main/java/io/gatehill/imposter/plugin/openapi/OpenApiPluginImpl.kt:387-394 | a "default" key is skipped for the next key, and a configured code wins over both |
| OpenApiPlugin.OnlyDefaultResponses | mock/openapi/src/main/java/io/gatehill/imposter/plugin/openapi/OpenApiPluginImpl.kt:387-394 | responses keyed only "default" in any case give 200 |
| OpenApiPlugin.FindApiResponse | mock/openapi/src/main/java/io/gatehill/imposter/plugin/openapi/OpenApiPluginImpl.kt:399-416 | no responses give null; the response under the status code is preferred; otherwise the default response |
| OpenApiPlugin.StatusResponsePreferred | mock/openapi/src/main/java/io/gatehill/imposter/plugin/openapi/OpenApiPluginImpl.kt:399-416 | the status-code response beats the default, and the default is used when it is alone |
| OpenApiPlugin.SpecContentType | mock/openapi/src/main/java/io/gatehill/imposter/plugin/openapi/OpenApiPluginImpl.kt:367-383 | the first content key of the response, present exactly when the response has content |
| OpenApiPlugin.SetContentTypeFromSpec | mock/openapi/src/main/java/io/gatehill/imposter/plugin/openapi/OpenApiPluginImpl.kt:362-385 | only the Content-Type header is set, to the spec's content type when there is one; otherwise nothing changes |
| OpenApiPlugin.DefaultBehaviourHandler | mock/openapi/src/main/java/io/gatehill/imposter/plugin/openapi/OpenApiPluginImpl.kt:309-348 | the status is the behaviour's; a spec response is served from the spec, and when the behaviour has no Content-Type it gets the response's first content type (nothing else changes); without a spec response the response is ended empty; an existing Content-Type is kept |
| OpenApiPlugin.Fallback | mock/openapi/src/main/java/io/gatehill/imposter/plugin/openapi/OpenApiPluginImpl.kt:424-431 | ends the response once with no body and reports the request handled |
| VertxResourceUtil.MethodRoundTrip | adapter/vertxweb/src/main/java/io/gatehill/imposter/server/vertxweb/util/VertxResourceUtil.kt:65-84 | converting a method to Vert.x and back gives the same method, for all nine methods |
| VertxResourceUtil.MethodsInjective | adapter/vertxweb/src/main/java/io/gatehill/imposter/server/vertxweb/util/VertxResourceUtil.kt:55-75 | distinct methods map to distinct Vert.x methods |
| VertxResourceUtil.ConvertMethodFromVertx | adapter/vertxweb/src/main/java/io/gatehill/imposter/server/vertxweb/util/VertxResourceUtil.kt:83-84 | a Vert.x method outside the map has no Imposter method |
| VertxResourceUtil.ConvertPath | adapter/vertxweb/src/main/java/io/gatehill/imposter/server/vertxweb/util/VertxResourceUtil.kt:99-119 | an empty path is unchanged; with escaping every ':' becomes "%3A" first; the result is the reference colon rewriting, with no `{name}` placeholder left |
| VertxResourceUtil.ReplaceFirstRemovesBrace | adapter/vertxweb/src/main/java/io/gatehill/imposter/server/vertxweb/util/VertxResourceUtil.kt:107-116 | each pass removes exactly one '{' |
| VertxResourceUtil.ReplaceFirstKeepsColonFormat | adapter/vertxweb/src/main/java/io/gatehill/imposter/server/vertxweb/util/VertxResourceUtil.kt:107-116 | one pass does not change the final rewriting result |
| VertxResourceUtil.ExampleColonFormat | adapter/vertxweb/src/main/java/io/gatehill/imposter/server/vertxweb/util/VertxResourceUtil.kt:86-98 | "/{pathParam}/notParam" becomes "/:pathParam/notParam" |
| VertxResourceUtil.ColonFormatOfBracketed | adapter/vertxweb/src/main/java/io/gatehill/imposter/server/vertxweb/util/VertxResourceUtil.kt:99-119 | rewriting a colon-free path's `{name}` form back gives the `:name` form: the two conversions are inverse |
| ConfiguredPlugin.ValidateConfig | core/engine/src/main/java/io/gatehill/imposter/plugin/config/ConfiguredPlugin.kt:91-103 | rejected exactly when a resource has both response configuration and a non-blank passthrough, naming the file |
| ConfiguredPlugin.LoadOne | core/engine/src/main/java/io/gatehill/imposter/plugin/config/ConfiguredPlugin.kt:72-87 | a configuration is kept exactly when it loads and validates |
| ConfiguredPlugin.FirstFailing | core/engine/src/main/java/io/gatehill/imposter/plugin/config/ConfiguredPlugin.kt:79-85 | every configuration before the first failing one loads and validates |
| ConfiguredPlugin.ConfiguredPlugin.LoadConfiguration | core/engine/src/main/java/io/gatehill/imposter/plugin/config/ConfiguredPlugin.kt:71-89 | ignoring errors keeps exactly the good configurations in order; otherwise the first failure aborts and leaves the field as it was |
| ConfiguredPlugin.ConfiguredPlugin.FindUniqueRoutes | core/engine/src/main/java/io/gatehill/imposter/plugin/config/ConfiguredPlugin.kt:121-141 | the map built is the reference route map of the loaded configurations |
| ConfiguredPlugin.UniqueRoutesOwned | core/engine/src/main/java/io/gatehill/imposter/plugin/config/ConfiguredPlugin.kt:121-141 | every value is a loaded configuration that declares the route, never a static-content route |
| ConfiguredPlugin.RootRouteAssigned | core/engine/src/main/java/io/gatehill/imposter/plugin/config/ConfiguredPlugin.kt:125-128 | a root resource with a path is assigned to its configuration even over an earlier entry |
| ConfiguredPlugin.SubResourceNeverReplaces | core/engine/src/main/java/io/gatehill/imposter/plugin/config/ConfiguredPlugin.kt:129-137 | a route already present keeps its owner unless the new root claims it |
| ConfigUtil.IsConfigFileIff | core/config/src/main/java/io/gatehill/imposter/config/util/ConfigUtil.kt:216-218 | a config file is one ending "-config.json", "-config.yaml" or "-config.yml" |
| ConfigUtil.LookupMapper | core/config/src/main/java/io/gatehill/imposter/config/util/ConfigUtil.kt:272-276 | the extension is taken from the last '.'; JSON for .json, YAML for .yaml and .yml; anything else is an error naming the file |
| ConfigUtil.ConfigFileHasMapper | core/config/src/main/java/io/gatehill/imposter/config/util/ConfigUtil.kt:216-218 | every config file has a mapper |
| ConfigUtil.ParseExclusionsKeeps | core/config/src/main/java/io/gatehill/imposter/config/util/ConfigUtil.kt:153-154 | the result holds exactly the non-blank lines not starting with '#' |
| ConfigUtil.ParseExclusionsAppend | core/config/src/main/java/io/gatehill/imposter/config/util/ConfigUtil.kt:153-154 | lines are filtered one by one, keeping their order |
| ConfigUtil.BuildExclusions | core/config/src/main/java/io/gatehill/imposter/config/util/ConfigUtil.kt:139-151 | the ignore files' exclusions; the default list only when those are empty |
| ConfigUtil.ListConfigFiles | core/config/src/main/java/io/gatehill/imposter/config/util/ConfigUtil.kt:190-205 | the config files of the directory tree, as the reference listing gives them |
| ConfigUtil.FoundFilesAllowed | core/config/src/main/java/io/gatehill/imposter/config/util/ConfigUtil.kt:190-205 | every file listed is a config file whose name is not excluded |
| ConfigUtil.ExcludedEntryIgnored | core/config/src/main/java/io/gatehill/imposter/config/util/ConfigUtil.kt:193 | an excluded entry, file or directory, contributes nothing |
| ConfigUtil.NonRecursiveDirectChildren | core/config/src/main/java/io/gatehill/imposter/config/util/ConfigUtil.kt:193-201 | a non-recursive listing returns only direct children |
| ConfigUtil.DiscoverConfigFiles | core/config/src/main/java/io/gatehill/imposter/config/util/ConfigUtil.kt:124-137 | the files of every configuration directory under the exclusions built for them |
| ConfigUtil.DiscoveredFilesAllowed | core/config/src/main/java/io/gatehill/imposter/config/util/ConfigUtil.kt:124-137 | every discovered file is a config file that is not excluded |
| ConfigUtil.LoadPluginConfigs | core/config/src/main/java/io/gatehill/imposter/config/util/ConfigUtil.kt:156-188 | the files grouped under their plugin class, or the first lookup error |
| ConfigUtil.GroupsPreserveOrder | core/config/src/main/java/io/gatehill/imposter/config/util/ConfigUtil.kt:164-182 | each group holds exactly its plugin's files in file order |
| ConfigUtil.GroupedErrPersists | core/config/src/main/java/io/gatehill/imposter/config/util/ConfigUtil.kt:164-182 | a file whose plugin cannot be determined fails the whole grouping |
| ConfigUtil.EnvironmentVars | core/config/src/main/java/io/gatehill/imposter/config/util/ConfigUtil.kt:111-116 | every variable K is available as "env.K" with its value, and nothing else is |
| ConfigUtil.PlaceholderSubstitution.InitInterpolators | core/config/src/main/java/io/gatehill/imposter/config/util/ConfigUtil.kt:111-117 | the substitutor's variables become the prefixed environment |
| SystemEvaluator.SplitDot | core/config/src/main/java/io/gatehill/imposter/config/expression/SystemEvaluator.kt:76-80 | a split with a limit: at most that many parts, rejoining to the input, with extra dots left in the last part |
| SystemEvaluator.Eval | core/config/src/main/java/io/gatehill/imposter/config/expression/SystemEvaluator.kt:74-110 | fewer than three parts evaluate to null |
| SystemEvaluator.ServerProperties | core/config/src/main/java/io/gatehill/imposter/config/expression/SystemEvaluator.kt:85-93 | "system.server.port" is the decimal listen port, "system.server.url" the server URL, and anything else after "system.server." (such as "port.x") is null |
| SystemEvaluator.OtherPrefixesNull | core/config/src/main/java/io/gatehill/imposter/config/expression/SystemEvaluator.kt:90-103 | any first part other than "system" or second other than "server" gives null |
| SystemEvaluator.ContextIgnored | core/config/src/main/java/io/gatehill/imposter/config/expression/SystemEvaluator.kt:72-74 | the context does not affect the result |
| StoreRestApi.LoadAllReply | store/common/src/main/java/io/gatehill/imposter/store/service/StoreRestApiServiceImpl.kt:105-122 | a client not accepting JSON gets 406 with a text message; otherwise the JSON of all items, or of those under keyPrefix |
| StoreRestApi.ByKeyPrefix | store/common/src/main/java/io/gatehill/imposter/store/service/StoreRestApiServiceImpl.kt:106-108 | exactly the items whose key starts with the prefix, with their values |
| StoreRestApi.LoadSingleReply | store/common/src/main/java/io/gatehill/imposter/store/service/StoreRestApiServiceImpl.kt:153-170 | 404 with no body exactly when the key is absent or null; a string as text/plain; another value as JSON |
| StoreRestApi.SaveSingleStatus | store/common/src/main/java/io/gatehill/imposter/store/service/StoreRestApiServiceImpl.kt:187-191 | 201 exactly when the key was absent, 200 exactly when it existed |
| StoreRestApi.SerialiseBodyAsJson | store/common/src/main/java/io/gatehill/imposter/store/service/StoreRestApiServiceImpl.kt:252-260 | the JSON content type and body, or a failed exchange when serialisation fails |
| StoreRestApi.PutThenGet | store/common/src/main/java/io/gatehill/imposter/store/service/StoreRestApiServiceImpl.kt:154-194 | a stored body reads back as the same text |
| StoreRestApi.SecondPutReplaces | store/common/src/main/java/io/gatehill/imposter/store/service/StoreRestApiServiceImpl.kt:191 | a second PUT of a key answers 200 |
| StoreRestApi.DeleteThenGet | store/common/src/main/java/io/gatehill/imposter/store/service/StoreRestApiServiceImpl.kt:165-170 | a deleted item reads back as 404 |
| StoreRestApi.SaveAllEffect | store/common/src/main/java/io/gatehill/imposter/store/service/StoreRestApiServiceImpl.kt:215-216 | saving entries adds exactly their keys, leaves other items alone, and the last entry for a key wins |
| StoreRestApi.HandleLoadAll | store/common/src/main/java/io/gatehill/imposter/store/service/StoreRestApiServiceImpl.kt:93-124 | the store is opened (created empty if new) and the response is the list-all reply |
| StoreRestApi.HandleDeleteStore | store/common/src/main/java/io/gatehill/imposter/store/service/StoreRestApiServiceImpl.kt:126-139 | the store is removed and 204 is sent |
| StoreRestApi.HandleLoadSingle | store/common/src/main/java/io/gatehill/imposter/store/service/StoreRestApiServiceImpl.kt:141-172 | the response is the single-item reply for the store's items |
| StoreRestApi.HandleSaveSingle | store/common/src/main/java/io/gatehill/imposter/store/service/StoreRestApiServiceImpl.kt:174-201 | the body (or null) is stored under the key and 201 or 200 is sent by whether the key was new |
| StoreRestApi.HandleSaveMultiple | store/common/src/main/java/io/gatehill/imposter/store/service/StoreRestApiServiceImpl.kt:203-224 | every entry of the body is saved in order, none without a body, and 200 is sent |
| StoreRestApi.HandleDeleteSingle | store/common/src/main/java/io/gatehill/imposter/store/service/StoreRestApiServiceImpl.kt:226-246 | the key is removed whether or not present, and 204 is sent |
| HttpExchange.GetOrPut | core/api/src/main/java/io/gatehill/imposter/http/HttpExchange.kt:96-102 | a present key gives its value without calling the supplier or changing the bag; an absent key calls the supplier once and stores its value |
| HttpExchange.GetOrPutTwice | core/api/src/main/java/io/gatehill/imposter/http/HttpExchange.kt:96-102 | a second getOrPut returns the first one's value without calling its supplier |
| LambdaExchange.LambdaHttpResponse.EndString | core/api/src/main/java/io/gatehill/imposter/http/HttpExchange.kt:157-159 | a null body is `end()`; a string is `end` of its UTF-8 bytes |
| LambdaExchange.LambdaHttpResponse.constructor | adapter/awslambda/src/main/java/io/gatehill/imposter/awslambda/impl/LambdaHttpExchange.kt:188-191 | a new response has status 200, no body and no headers |
| LambdaExchange.LambdaHttpResponse.EndBuffer | adapter/awslambda/src/main/java/io/gatehill/imposter/awslambda/impl/LambdaHttpExchange.kt:215-220 | keeps the body and adds Content-Length only when missing and the body is non-empty |
| LambdaExchange.WithContentLength | adapter/awslambda/src/main/java/io/gatehill/imposter/awslambda/impl/LambdaHttpExchange.kt:217-218 | only Content-Length may be added, for a non-empty body, and no existing header changes |
| LambdaExchange.ContentLengthReadsBack | adapter/awslambda/src/main/java/io/gatehill/imposter/awslambda/impl/LambdaHttpExchange.kt:217-223 | the Content-Length written is the decimal of the body's length in bytes |
| LambdaExchange.LambdaHttpResponse.PutHeader | adapter/awslambda/src/main/java/io/gatehill/imposter/awslambda/impl/LambdaHttpExchange.kt:202-205 | overwrites any earlier value for the key and changes nothing else |
| LambdaExchange.LambdaHttpResponse.End | adapter/awslambda/src/main/java/io/gatehill/imposter/awslambda/impl/LambdaHttpExchange.kt:211-213 | changes nothing in the response |
| LambdaExchange.LambdaHttpExchange.Fail | adapter/awslambda/src/main/java/io/gatehill/imposter/awslambda/impl/LambdaHttpExchange.kt:127-129 | status 500 and the cause recorded |
| LambdaExchange.LambdaHttpExchange.FailStatus | adapter/awslambda/src/main/java/io/gatehill/imposter/awslambda/impl/LambdaHttpExchange.kt:131-133 | only the status is set |
| LambdaExchange.LambdaHttpExchange.QueryParams | adapter/awslambda/src/main/java/io/gatehill/imposter/awslambda/impl/LambdaHttpExchange.kt:95-97 | empty when the event has no query parameters |
| LambdaExchange.AcceptsType | adapter/awslambda/src/main/java/io/gatehill/imposter/awslambda/impl/LambdaHttpExchange.kt:111-114 | exact membership in the accepted types, no wildcards; both exchange wrappers use it |
| LambdaExchange.LambdaHttpRequest.AcceptHeaderEmpty | adapter/awslambda/src/main/java/io/gatehill/imposter/awslambda/impl/LambdaHttpExchange.kt:107-109 | true exactly when the Accept header is missing or empty; both exchange wrappers use it |
| LambdaExchange.LambdaHttpRequest.AbsoluteURI | adapter/awslambda/src/main/java/io/gatehill/imposter/awslambda/impl/LambdaHttpExchange.kt:160-174 | "http://", then the Host header or "0.0.0.0", then the path (empty when absent) |
| LambdaExchange.LambdaHttpRequest.Method | adapter/awslambda/src/main/java/io/gatehill/imposter/awslambda/impl/LambdaHttpExchange.kt:168-170 | the method whose name is the event's method; a null or unknown name is an error |
| LambdaExchange.PutThenGet | adapter/awslambda/src/main/java/io/gatehill/imposter/awslambda/impl/LambdaHttpExchange.kt:144-151 | put then get of a key gives back the value |
| LambdaModelExchange.LambdaModelHttpExchange.constructor | adapter/awslambda/src/main/java/io/gatehill/imposter/awslambda/impl/model/LambdaHttpExchange.kt:55-69 | the phase starts at REQUEST_RECEIVED and the failure cause null |
| LambdaModelExchange.LambdaModelHttpExchange.End | adapter/awslambda/src/main/java/io/gatehill/imposter/awslambda/impl/model/LambdaHttpExchange.kt:72-75 | the before-end handlers run once, on the response as it was, then the delegate ends |
| LambdaModelExchange.LambdaModelHttpExchange.EndBuffer | adapter/awslambda/src/main/java/io/gatehill/imposter/awslambda/impl/model/LambdaHttpExchange.kt:77-80 | the before-end handlers run once before the body is written, then the delegate writes it |
| LambdaModelExchange.LambdaModelHttpExchange.Fail | adapter/awslambda/src/main/java/io/gatehill/imposter/awslambda/impl/model/LambdaHttpExchange.kt:96-98 | status 500 and the cause recorded |
| LambdaModelExchange.LambdaModelHttpExchange.FailStatus | adapter/awslambda/src/main/java/io/gatehill/imposter/awslambda/impl/model/LambdaHttpExchange.kt:100-102 | only the status is set; the failure cause is untouched |
| LambdaModelExchange.SharedAttributes | adapter/awslambda/src/main/java/io/gatehill/imposter/awslambda/impl/model/LambdaHttpExchange.kt:60-64 | two exchanges over the same attribute map see each other's writes |
| InterceptingMap.InterceptingMap.GetMember | scripting/graalvm/src/main/java/io/gatehill/imposter/scripting/graalvm/proxy/InterceptingMap.kt:54-57 | the value under the key, null when absent |
| InterceptingMap.InterceptingMap.GetMemberKeys | scripting/graalvm/src/main/java/io/gatehill/imposter/scripting/graalvm/proxy/InterceptingMap.kt:59-61 | exactly the map's keys, each once |
| InterceptingMap.InterceptingMap.HasMember | scripting/graalvm/src/main/java/io/gatehill/imposter/scripting/graalvm/proxy/InterceptingMap.kt:63-65 | false for a null key; otherwise exactly when the key is present |
| InterceptingMap.InterceptingMap.PutMember | scripting/graalvm/src/main/java/io/gatehill/imposter/scripting/graalvm/proxy/InterceptingMap.kt:67-73 | fails on an immutable map; a null value changes nothing; a value is stored unwrapped under the key, other keys untouched |
| InterceptingMap.InterceptingMap.RemoveMember | scripting/graalvm/src/main/java/io/gatehill/imposter/scripting/graalvm/proxy/InterceptingMap.kt:75-84 | fails on an immutable map; otherwise true exactly when the key was present, which is gone afterwards |
| InterceptingMap.Unwrapped | scripting/graalvm/src/main/java/io/gatehill/imposter/scripting/graalvm/proxy/InterceptingMap.kt:71 | a host value is stored as its host object, a guest value as itself |
| InterceptingMap.PutThenGet | scripting/graalvm/src/main/java/io/gatehill/imposter/scripting/graalvm/proxy/InterceptingMap.kt:67-73 | a value put reads back unwrapped and the key is a member |
| InterceptingMap.RemoveTwice | scripting/graalvm/src/main/java/io/gatehill/imposter/scripting/graalvm/proxy/InterceptingMap.kt:75-84 | after a remove the key is absent and a second remove reports false |
| RuntimeContext.RuntimeContext.AsMap | core/api/src/main/java/io/gatehill/imposter/script/RuntimeContext.kt:64-74 | the keys are config, context, env, logger and the additional names; an additional binding wins on a clash |
| RuntimeContext.NoAdditionalBindings | core/api/src/main/java/io/gatehill/imposter/script/RuntimeContext.kt:64-73 | with null or empty additional bindings there are exactly four bindings |
| RuntimeContext.EmptyContextBindings | core/api/src/main/java/io/gatehill/imposter/script/RuntimeContext.kt:76-84 | the empty context binds only the four built-in names, with an empty environment |
| XmlMapUtil.Xmlify | mock/openapi/src/main/java/io/gatehill/imposter/plugin/openapi/util/XmlMapUtil.kt:59-86 | "" exactly for null; a list's wrapper is rootName or "items"; any other value's root is rootName or "root" |
| XmlMapUtil.ListItemsNamed | mock/openapi/src/main/java/io/gatehill/imposter/plugin/openapi/util/XmlMapUtil.kt:71-76 | a list's items are the wrapper's children, one per item, each named itemName or "item" |
| XmlMapUtil.NullItemKept | mock/openapi/src/main/java/io/gatehill/imposter/plugin/openapi/util/XmlMapUtil.kt:54-56 | the null-omitting inclusion drops null fields but not list items: a null item keeps its place as an empty element |
| XmlMapUtil.ItemNameIgnored | mock/openapi/src/main/java/io/gatehill/imposter/plugin/openapi/util/XmlMapUtil.kt:77-80 | itemName does not matter for a value that is not a list |
| XmlMapUtil.NullIgnoresNames | mock/openapi/src/main/java/io/gatehill/imposter/plugin/openapi/util/XmlMapUtil.kt:59-63 | null gives "" whatever names are asked for |
| XmlMapUtil.NullFieldsOmitted | mock/openapi/src/main/java/io/gatehill/imposter/plugin/openapi/util/XmlMapUtil.kt:53-57 | every element of a map comes from a non-null field of that name |
| XmlMapUtil.NonNullFieldsPresent | mock/openapi/src/main/java/io/gatehill/imposter/plugin/openapi/util/XmlMapUtil.kt:53-57 | every non-null scalar or map field has its element |
| ValidationReportUtil.ReportFor | mock/openapi/src/main/java/io/gatehill/imposter/plugin/openapi/util/ValidationReportUtil.kt:52-60 | HTML type and report for a client accepting HTML, else text/plain and the plain report |
| ValidationReportUtil.ReportsContainMessages | mock/openapi/src/main/java/io/gatehill/imposter/plugin/openapi/util/ValidationReportUtil.kt:62-74 | the plain report is "Request validation failed:\n", the messages verbatim, then "\n"; the HTML report contains the messages verbatim when they have no line breaks |
| ValidationReportUtil.SendValidationReport | mock/openapi/src/main/java/io/gatehill/imposter/plugin/openapi/util/ValidationReportUtil.kt:52-60 | sets the chosen Content-Type and ends the response exactly once with the chosen report |
| SfdcPlugin.ToBase62 | plugin/sfdc/src/main/java/com/gatehill/imposter/plugin/sfdc/SfdcPluginImpl.java:199-205 | the loop's output is the reference base-62 digits of its start value |
| SfdcPlugin.Base62Correct | plugin/sfdc/src/main/java/com/gatehill/imposter/plugin/sfdc/SfdcPluginImpl.java:197-205 | for n > 0 the digits use only the 62-character alphabet, decode back to n and do not start with '0' |
| SfdcPlugin.JavaIntAbs | plugin/sfdc/src/main/java/com/gatehill/imposter/plugin/sfdc/SfdcPluginImpl.java:199 | Java's int absolute value, under which the most negative int stays negative |
| SfdcPlugin.GenerateBase62Id | plugin/sfdc/src/main/java/com/gatehill/imposter/plugin/sfdc/SfdcPluginImpl.java:196-206 | as written: the base-62 digits of the int absolute value of the hash |
| SfdcPlugin.MinHashGivesEmptyId | plugin/sfdc/src/main/java/com/gatehill/imposter/plugin/sfdc/SfdcPluginImpl.java:199-205 | a hash of the most negative int gives the empty identifier |
| SfdcPlugin.GenerateBase62IdCorrected | plugin/sfdc/src/main/java/com/gatehill/imposter/plugin/sfdc/SfdcPluginImpl.java:196-206 | corrected: the base-62 digits of the hash's true magnitude |
| SfdcPlugin.CorrectedIdNonEmpty | plugin/sfdc/src/main/java/com/gatehill/imposter/plugin/sfdc/SfdcPluginImpl.java:199-205 | corrected: every non-zero hash gives a non-empty identifier decoding to its magnitude |
| SfdcPlugin.GetSObjectName | plugin/sfdc/src/main/java/com/gatehill/imposter/plugin/sfdc/SfdcPluginImpl.java:208-216 | a query without tokens is an error; otherwise the token after the first "FROM" (ignoring case) that is not last, or empty |
| SfdcPlugin.FirstFromDecides | plugin/sfdc/src/main/java/com/gatehill/imposter/plugin/sfdc/SfdcPluginImpl.java:210-213 | the first FROM followed by a token decides the name |
| SfdcPlugin.NoFromNoName | plugin/sfdc/src/main/java/com/gatehill/imposter/plugin/sfdc/SfdcPluginImpl.java:215 | with no FROM before the last token there is no name |
| SfdcPlugin.JoinedTokens | plugin/sfdc/src/main/java/com/gatehill/imposter/plugin/sfdc/SfdcPluginImpl.java:209 | the space tokenizer gives back any space-free, non-empty words that were joined by single spaces |
| SfdcPlugin.QueryExample | plugin/sfdc/src/main/java/com/gatehill/imposter/plugin/sfdc/SfdcPluginImpl.java:73 | the query "SELECT Name, Id from Account LIMIT 100" tokenizes to its seven words and names "Account" |
| SfdcPlugin.AddRecordAttributes | plugin/sfdc/src/main/java/com/gatehill/imposter/plugin/sfdc/SfdcPluginImpl.java:218-229 | a record without a string "Id" is an error and unchanged; otherwise only "attributes" is set, with the type and the record URL, and the same record is returned |
| SfdcPlugin.RecordUrlParts | plugin/sfdc/src/main/java/com/gatehill/imposter/plugin/sfdc/SfdcPluginImpl.java:224 | the record URL begins with the API version's sobjects path and ends with the type and id |
| SfdcPlugin.HandleUpdateRequest | plugin/sfdc/src/main/java/com/gatehill/imposter/plugin/sfdc/SfdcPluginImpl.java:180-192 | accepted with 204 exactly when the method is PATCH or _HttpMethod is "PATCH"; otherwise 405 |
| ImposterLegacy.BuildServerUrl | core/src/main/groovy/com/gatehill/imposter/Imposter.java:75-95 | the explicit URL, or scheme, display host and port suffix, accepted exactly when it is a URI; otherwise start-up fails naming the rejected text |
| ImposterLegacy.ServerUrlText | core/src/main/groovy/com/gatehill/imposter/Imposter.java:77-94 | the text handed to the URI parser: an explicit URL is kept; otherwise scheme, display host and port suffix |
| ImposterLegacy.PortSuffix | core/src/main/groovy/com/gatehill/imposter/Imposter.java:86-92 | empty exactly for 443 with TLS and 80 without; otherwise ":" and the port |
| ImposterLegacy.DisplayHost | core/src/main/groovy/com/gatehill/imposter/Imposter.java:84 | the bind-all host shows as "localhost"; any other host as itself |
| ImposterLegacy.BuiltSchemeFollowsTls | core/src/main/groovy/com/gatehill/imposter/Imposter.java:83 | a built URL starts with https exactly when TLS is on |
| ImposterLegacy.DefaultPortOmitted | core/src/main/groovy/com/gatehill/imposter/Imposter.java:84-92 | bind-all host on the scheme's default port gives the bare "localhost" URL |
| ImposterLegacy.OtherPortShown | core/src/main/groovy/com/gatehill/imposter/Imposter.java:90-92 | any other port is written after a colon at the end |
| ImposterLegacy.ProcessConfiguration | core/src/main/groovy/com/gatehill/imposter/Imposter.java:62-73 | a URL that is not a URI aborts with nothing changed; otherwise sets the server URL and rewrites each configuration directory starting "./" under the working directory, leaving the others |
| ImposterLegacy.ResolveIdempotent | core/src/main/groovy/com/gatehill/imposter/Imposter.java:68-71 | resolving twice is resolving once when the joined paths are absolute |
| ImposterLegacy.CheckPluginCount | core/src/main/groovy/com/gatehill/imposter/Imposter.java:101-106 | loading zero plugins is the error "No plugins were loaded" |

## Left out

- Regex matching is a parameter `(pattern, input) -> bool`. Regex compilation errors are not modelled.
- Locale-dependent lower-casing is modelled as ASCII lower-casing.
- Common.IsWhitespace follows the Unicode tables of current JVMs. U+180E, a space separator only under Unicode versions before 6.3 (as in Java 8), is not whitespace in the model.
- ImposterLegacy.BuildServerUrl takes the URI grammar as a parameter (`isUri`), and the exception's own message is modelled as the rejected text.
- Request maps are association lists, and a lookup takes the last entry for a key. After lower-casing, colliding header keys therefore resolve to the last one; the source's map iteration order decides this.
- `HttpRoute.PATH_PARAM_PLACEHOLDER` is not part of this model. `VertxResourceUtil.ConvertPath` assumes it matches `{` followed by a run of letters, digits, '.', '_' or '-' and then `}`.
- `AbstractResourceMatcher` (`determineMatch`, `matchPath`, `matchRequestBody`, `matchEval`) is not part of this model. Their results are inputs to `ResourceMatcher.MatchResults`.
- The base `DefaultResponseBehaviourFactory` (populate, merge, build) is not part of this model. It is a record of functions given to the factories.
- Security.Enforce returns the decision and the status to fail with (401); it does not call `fail` on an exchange.
- Security.EvaluatePolicy and Security.DescribeCondition take the order of a condition map's keys as a parameter, because the source uses the map's own iteration order. The description text depends on that order.
- ScriptStep.Execute: the script engine (`determineResponseFromScript`) and `resolveScriptPath` are parameters.
- RemoteStep.Execute: the remote HTTP call and `captureItem` are parameters; exceptions become error results.
- The OpenAPI handlers use the AWS Lambda response class as their response. The swagger model is reduced to paths, operations, response keys and content keys. Spec parsing, `determinePathFromSpec` and `convertPathFromOpenApi` are parameters. Example serving is left out.
- The other route handlers of the OpenAPI plugin are Vert.x wiring and are left out.
- ConfiguredPlugin.ConfiguredPlugin.LoadConfiguration: the error message names the file string rather than the loaded configuration object. Configuration loading itself (`load`) is a parameter.
- ConfigUtil: the file system is a tree value. `loadPluginConfig`, `resolveToLocal`, resolver instantiation and StringSubstitutor interpolation are left out. `determinePluginClass` and reading a file's plugin name are parameters.
- Store backend: a map from store name to items. JSON serialisation and body parsing are parameters or inputs. Request routing (`handleRouteAndWrap`) is left out.
- LambdaModelExchange: what the before-end handlers do is left out; only each call and the body at that moment are recorded.
- XmlMapUtil: the XML text (indentation, escaping, number formats) is left out. Only element names, nesting, the omission of null fields and the empty elements of null list items are modelled.
- StoreRestApi handlers answer through the AWS Lambda response class, standing in for the server's own response type, which is not part of this model.
- InterceptingMap.InterceptingMap.GetMember returns the stored value itself. The `DeepProxy` wrapping of retrieved values is not part of this model.
- ValidationReportUtil.ReportFor, ValidationReportUtil.ReportsContainMessages and ValidationReportUtil.SendValidationReport: the HTML template is taken after `trimIndent` for messages without line breaks. A message whose continuation lines all share an indent loses that indent in the source's HTML report, and the model does not capture this.
- Logging, clocks, UUID generation and environment variables are left out. The UUID hash and the environment are inputs.
- SfdcPlugin: the login, query, get-by-id and create handlers are Vert.x wiring and are left out. JSON records are a small JSON datatype.
- ImposterLegacy: plugin instantiation and its configuration-file loop are left out. Only the resulting plugin count is checked.
- Concurrency, sockets and asynchronous futures are left out.

## Findings

| source | as written | input that shows it | evidently intended | confidence | as-written member | corrected member |
|---|---|---|---|---|---|---|
| plugin/sfdc/src/main/java/com/gatehill/imposter/plugin/sfdc/SfdcPluginImpl.java:199 | `Math.abs` is applied to the `int` hash before it is widened to `long`, so `Math.abs(Integer.MIN_VALUE)` stays negative and the loop never runs | a UUID whose `hashCode()` is -2147483648 gives the identifier "" | the absolute value of the widened hash, so every non-zero hash gives a non-empty base-62 identifier | not executed | SfdcPlugin.GenerateBase62Id, SfdcPlugin.MinHashGivesEmptyId | SfdcPlugin.GenerateBase62IdCorrected, SfdcPlugin.CorrectedIdNonEmpty |
