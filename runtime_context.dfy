/** `RuntimeContext`: the bindings a script sees. */
module RuntimeContext {
  import opened Common
  import opened Config

  /** A binding's value: one of the four built-in objects, or an additional one. */
  datatype Binding =
    | PluginConfigBinding(config: PluginConfig)
    | ExecutionContextBinding(executionContext: nat)
    | EnvBinding(env: map<string, string>)
    | LoggerBinding(logger: string)
    | AdditionalBinding(id: nat)

  const RESERVED_NAMES: set<string> := {"config", "context", "env", "logger"}

  datatype RuntimeContext = RuntimeContext(
    env: map<string, string>,
    logger: string,
    pluginConfig: PluginConfig,
    additionalBindings: Option<map<string, nat>>,
    executionContext: nat
  ) {
    /** `asMap()`: the four built-in bindings, then the additional ones, which win
        on a clash. */
    function AsMap(): (bindings: map<string, Binding>)
      ensures bindings.Keys == RESERVED_NAMES + Additional().Keys
      ensures forall name :: name in Additional() ==> bindings[name] == AdditionalBinding(Additional()[name])
      ensures "config" !in Additional() ==> bindings["config"] == PluginConfigBinding(pluginConfig)
      ensures "context" !in Additional() ==> bindings["context"] == ExecutionContextBinding(executionContext)
      ensures "env" !in Additional() ==> bindings["env"] == EnvBinding(env)
      ensures "logger" !in Additional() ==> bindings["logger"] == LoggerBinding(logger)
    {
      var builtIn := map["config" := PluginConfigBinding(pluginConfig),
                         "context" := ExecutionContextBinding(executionContext),
                         "env" := EnvBinding(env),
                         "logger" := LoggerBinding(logger)];
      builtIn + map name | name in Additional() :: AdditionalBinding(Additional()[name])
    }

    function Additional(): map<string, nat> {
      if additionalBindings.Some? then additionalBindings.value else map[]
    }
  }

  /** `RuntimeContext.empty`, over a default plugin configuration (its unset plugin
      name is the empty string here). */
  const EMPTY: RuntimeContext := RuntimeContext(map[], "noop", PluginConfig("", BareConfig), Some(map[]), 0)

  /** With no additional bindings there are exactly the four built-in ones. */
  lemma NoAdditionalBindings(context: RuntimeContext)
    requires context.additionalBindings.None? || context.additionalBindings == Some(map[])
    ensures context.AsMap().Keys == RESERVED_NAMES
    ensures |context.AsMap()| == 4
  {
    assert context.AsMap().Keys == {"config", "context", "env", "logger"};
  }

  /** The empty context binds nothing but the four built-in objects. */
  lemma EmptyContextBindings()
    ensures EMPTY.AsMap().Keys == RESERVED_NAMES
    ensures EMPTY.AsMap()["env"] == EnvBinding(map[])
  {
    NoAdditionalBindings(EMPTY);
  }
}
