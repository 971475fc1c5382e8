/** `ConfiguredPlugin`: loading and validating a plugin's configuration files, and the
    unique routes they declare. `ConfigUtil.loadPluginConfig` and
    `UniqueRoute.fromResourceConfig` are not part of this model; they are parameters. */
module ConfiguredPlugin {
  import opened Common
  import opened Config
  import opened ResourceUtil

  /** A configuration file found on disk, known by its path. */
  datatype LoadedConfig = LoadedConfig(file: string, plugin: string)

  /** A resource that would both pass the request through and answer it itself. */
  predicate PassthroughConflict(resource: ResourceConfig) {
    resource.passthrough.Some? &&
    resource.responseConfig.Some? && resource.responseConfig.value.hasConfiguration &&
    !IsNullOrBlank(resource.passthrough.value)
  }

  function Resources(config: PluginConfig): seq<ResourceConfig> {
    if config.root.resources.Some? && config.root.resources.value.Some? then config.root.resources.value.value else []
  }

  /** `validateConfig`: passthrough and response configuration are mutually exclusive. */
  function ValidateConfig(file: string, config: PluginConfig): (r: Option<string>)
    ensures r.Some? <==> exists i :: 0 <= i < |Resources(config)| && PassthroughConflict(Resources(config)[i])
    ensures r.Some? ==> r.value == "Invalid configuration in file: " + file
  {
    if exists i :: 0 <= i < |Resources(config)| && PassthroughConflict(Resources(config)[i])
    then Some("Invalid configuration in file: " + file) else None
  }

  /** One file: loaded, then validated. */
  function LoadOne(loaded: LoadedConfig, load: LoadedConfig -> Result<PluginConfig>): (r: Result<PluginConfig>)
    ensures r.Ok? <==> load(loaded).Ok? && ValidateConfig(loaded.file, load(loaded).value).None?
    ensures r.Ok? ==> r.value == load(loaded).value
  {
    match load(loaded)
    case Err(m) => Err(m)
    case Ok(config) =>
      match ValidateConfig(loaded.file, config)
      case Some(m) => Err(m)
      case None => Ok(config)
  }

  /** The configurations that load and validate, in input order. */
  function Kept(loaded: seq<LoadedConfig>, load: LoadedConfig -> Result<PluginConfig>): (r: seq<PluginConfig>)
    ensures |r| <= |loaded|
  {
    if loaded == [] then []
    else
      var init := loaded[..|loaded| - 1];
      var last := LoadOne(loaded[|loaded| - 1], load);
      Kept(init, load) + (if last.Ok? then [last.value] else [])
  }

  /** The first file that fails, if any. */
  function FirstFailing(loaded: seq<LoadedConfig>, load: LoadedConfig -> Result<PluginConfig>): (n: nat)
    ensures n <= |loaded|
    ensures forall i :: 0 <= i < n ==> LoadOne(loaded[i], load).Ok?
    ensures n < |loaded| ==> LoadOne(loaded[n], load).Err?
  {
    if loaded == [] then 0
    else if LoadOne(loaded[0], load).Err? then 0
    else 1 + FirstFailing(loaded[1..], load)
  }

  function LoadError(loaded: LoadedConfig): string {
    "Error loading plugin config: " + loaded.file
  }

  class ConfiguredPlugin {
    var configs: seq<PluginConfig>

    constructor ()
      ensures configs == []
    {
      configs := [];
    }

    /** `loadConfiguration`: with `ignoreConfigErrors` the files that fail are skipped;
        without it the first failure aborts the load and `configs` is not assigned. */
    method LoadConfiguration(loadedConfigs: seq<LoadedConfig>, load: LoadedConfig -> Result<PluginConfig>,
                             ignoreConfigErrors: bool)
      returns (r: Result<seq<PluginConfig>>)
      modifies this
      ensures ignoreConfigErrors ==> r == Ok(Kept(loadedConfigs, load)) && configs == Kept(loadedConfigs, load)
      ensures !ignoreConfigErrors && FirstFailing(loadedConfigs, load) == |loadedConfigs| ==>
                r == Ok(Kept(loadedConfigs, load)) && configs == Kept(loadedConfigs, load)
      ensures !ignoreConfigErrors && FirstFailing(loadedConfigs, load) < |loadedConfigs| ==>
                r == Err(LoadError(loadedConfigs[FirstFailing(loadedConfigs, load)])) && configs == old(configs)
    {
      var result: seq<PluginConfig> := [];
      var i := 0;
      while i < |loadedConfigs|
        invariant 0 <= i <= |loadedConfigs|
        invariant result == Kept(loadedConfigs[..i], load)
        invariant !ignoreConfigErrors ==> i <= FirstFailing(loadedConfigs, load)
      {
        var attempt := LoadOne(loadedConfigs[i], load);
        assert loadedConfigs[..i + 1][..i] == loadedConfigs[..i];
        if attempt.Ok? {
          result := result + [attempt.value];
        } else if !ignoreConfigErrors {
          return Err(LoadError(loadedConfigs[i]));
        }
        i := i + 1;
      }
      assert loadedConfigs[..i] == loadedConfigs;
      configs := result;
      r := Ok(result);
    }

    /** `findUniqueRoutes`: each configuration's root route, unless static, replaces any
        earlier entry; its non-static sub-resources are added only where absent. Every
        value is an owning configuration. */
    method FindUniqueRoutes<R(==)>(fromResourceConfig: ResourceConfig -> R) returns (unique: map<R, PluginConfig>)
      ensures unique == UniqueRoutes(configs, fromResourceConfig)
    {
      unique := map[];
      var i := 0;
      while i < |configs|
        invariant 0 <= i <= |configs|
        invariant unique == UniqueRoutes(configs[..i], fromResourceConfig)
      {
        var config := configs[i];
        var start := unique;
        if !IsStaticContentRoute(config.root) && config.root.path.Some? {
          unique := unique[fromResourceConfig(config.root) := config];
        }
        var withRoot := unique;
        var resources := Resources(config);
        var j := 0;
        while j < |resources|
          invariant 0 <= j <= |resources|
          invariant unique == AddResources(withRoot, resources[..j], config, fromResourceConfig)
        {
          var resource := resources[j];
          assert resources[..j + 1][..j] == resources[..j];
          if !IsStaticContentRoute(resource) {
            var uniqueRoute := fromResourceConfig(resource);
            if uniqueRoute !in unique {
              unique := unique[uniqueRoute := config];
            }
          }
          j := j + 1;
        }
        assert resources[..j] == resources;
        assert unique == AddConfig(start, config, fromResourceConfig);
        assert configs[..i + 1][..i] == configs[..i];
        i := i + 1;
      }
      assert configs[..i] == configs;
    }
  }

  // ---------------------------------------------------------------------------
  // The route map, as a function

  /** Sub-resources in order: each non-static one is added if its route is absent. */
  function AddResources<R(==)>(unique: map<R, PluginConfig>, resources: seq<ResourceConfig>, owner: PluginConfig,
                               fromResourceConfig: ResourceConfig -> R): map<R, PluginConfig>
  {
    if resources == [] then unique
    else
      var before := AddResources(unique, resources[..|resources| - 1], owner, fromResourceConfig);
      var resource := resources[|resources| - 1];
      if !IsStaticContentRoute(resource) && fromResourceConfig(resource) !in before
      then before[fromResourceConfig(resource) := owner] else before
  }

  function AddConfig<R(==)>(unique: map<R, PluginConfig>, config: PluginConfig,
                            fromResourceConfig: ResourceConfig -> R): map<R, PluginConfig>
  {
    var withRoot := if !IsStaticContentRoute(config.root) && config.root.path.Some?
                    then unique[fromResourceConfig(config.root) := config] else unique;
    AddResources(withRoot, Resources(config), config, fromResourceConfig)
  }

  function UniqueRoutes<R(==)>(configs: seq<PluginConfig>, fromResourceConfig: ResourceConfig -> R): map<R, PluginConfig>
  {
    if configs == [] then map[]
    else AddConfig(UniqueRoutes(configs[..|configs| - 1], fromResourceConfig), configs[|configs| - 1], fromResourceConfig)
  }

  /** A route declared by a configuration: its root (with a path) or a sub-resource. */
  ghost predicate Declares<R>(config: PluginConfig, route: R, fromResourceConfig: ResourceConfig -> R) {
    (!IsStaticContentRoute(config.root) && config.root.path.Some? && fromResourceConfig(config.root) == route) ||
    (exists j :: 0 <= j < |Resources(config)| && !IsStaticContentRoute(Resources(config)[j]) &&
                 fromResourceConfig(Resources(config)[j]) == route)
  }

  /** Sub-resources never replace an entry, and each route they add belongs to a
      non-static sub-resource of the owner. */
  lemma {:induction false} AddResourcesKeeps<R>(unique: map<R, PluginConfig>, resources: seq<ResourceConfig>,
                                                owner: PluginConfig, fromResourceConfig: ResourceConfig -> R)
    ensures forall k :: k in unique ==> k in AddResources(unique, resources, owner, fromResourceConfig) &&
                                        AddResources(unique, resources, owner, fromResourceConfig)[k] == unique[k]
    ensures forall k :: k in AddResources(unique, resources, owner, fromResourceConfig) && k !in unique ==>
              AddResources(unique, resources, owner, fromResourceConfig)[k] == owner &&
              exists j :: 0 <= j < |resources| && !IsStaticContentRoute(resources[j]) && fromResourceConfig(resources[j]) == k
  {
    if resources != [] {
      var init := resources[..|resources| - 1];
      AddResourcesKeeps(unique, init, owner, fromResourceConfig);
      forall k | k in AddResources(unique, resources, owner, fromResourceConfig) && k !in unique
        ensures exists j :: 0 <= j < |resources| && !IsStaticContentRoute(resources[j]) && fromResourceConfig(resources[j]) == k
      {
        if k in AddResources(unique, init, owner, fromResourceConfig) {
          var j :| 0 <= j < |init| && !IsStaticContentRoute(init[j]) && fromResourceConfig(init[j]) == k;
          assert resources[j] == init[j];
        }
      }
    }
  }

  /** Every value in the route map is one of the configurations, and every route is
      declared, outside static content, by the configuration it maps to. */
  lemma {:induction false} UniqueRoutesOwned<R>(configs: seq<PluginConfig>, fromResourceConfig: ResourceConfig -> R)
    ensures forall k :: k in UniqueRoutes(configs, fromResourceConfig) ==>
              UniqueRoutes(configs, fromResourceConfig)[k] in configs &&
              Declares(UniqueRoutes(configs, fromResourceConfig)[k], k, fromResourceConfig)
  {
    if configs != [] {
      var init := configs[..|configs| - 1];
      var config := configs[|configs| - 1];
      UniqueRoutesOwned(init, fromResourceConfig);
      var before := UniqueRoutes(init, fromResourceConfig);
      var withRoot := if !IsStaticContentRoute(config.root) && config.root.path.Some?
                      then before[fromResourceConfig(config.root) := config] else before;
      AddResourcesKeeps(withRoot, Resources(config), config, fromResourceConfig);
      forall k | k in UniqueRoutes(configs, fromResourceConfig)
        ensures UniqueRoutes(configs, fromResourceConfig)[k] in configs
        ensures Declares(UniqueRoutes(configs, fromResourceConfig)[k], k, fromResourceConfig)
      {
        if k in withRoot && !(withRoot == before[fromResourceConfig(config.root) := config] && k == fromResourceConfig(config.root)) {
          assert k in before && withRoot[k] == before[k];
          assert before[k] in init;
        }
      }
    }
  }

  /** A later configuration's root route replaces an earlier entry for the same route. */
  lemma RootRouteAssigned<R>(configs: seq<PluginConfig>, config: PluginConfig, fromResourceConfig: ResourceConfig -> R)
    requires !IsStaticContentRoute(config.root) && config.root.path.Some?
    ensures fromResourceConfig(config.root) in UniqueRoutes(configs + [config], fromResourceConfig)
    ensures UniqueRoutes(configs + [config], fromResourceConfig)[fromResourceConfig(config.root)] == config
  {
    var all := configs + [config];
    assert all[..|all| - 1] == configs;
    var before := UniqueRoutes(configs, fromResourceConfig);
    AddResourcesKeeps(before[fromResourceConfig(config.root) := config], Resources(config), config, fromResourceConfig);
  }

  /** A route already present is never taken over by a later configuration's sub-resource. */
  lemma SubResourceNeverReplaces<R>(configs: seq<PluginConfig>, config: PluginConfig, fromResourceConfig: ResourceConfig -> R,
                                  route: R)
    requires route in UniqueRoutes(configs, fromResourceConfig)
    requires config.root.path.None? || IsStaticContentRoute(config.root) || fromResourceConfig(config.root) != route
    ensures route in UniqueRoutes(configs + [config], fromResourceConfig)
    ensures UniqueRoutes(configs + [config], fromResourceConfig)[route] == UniqueRoutes(configs, fromResourceConfig)[route]
  {
    var all := configs + [config];
    assert all[..|all| - 1] == configs;
    var before := UniqueRoutes(configs, fromResourceConfig);
    var withRoot := if !IsStaticContentRoute(config.root) && config.root.path.Some?
                    then before[fromResourceConfig(config.root) := config] else before;
    AddResourcesKeeps(withRoot, Resources(config), config, fromResourceConfig);
  }
}
