/** The start-up steps of the earlier engine generation (`com.gatehill.imposter.Imposter`):
    the server URL, relative configuration directories, and the plugin count. */
module ImposterLegacy {
  import opened Common

  /** The host that means "every interface"; shown as localhost in the URL. */
  const BIND_ALL_HOSTS: string := "0.0.0.0"

  /** The mutable engine configuration of the earlier generation. */
  class ImposterConfig {
    var serverUrl: Option<string>
    const configDirs: array<string>
    const tlsEnabled: bool
    const host: string
    const listenPort: int

    constructor (configDirs: array<string>, tlsEnabled: bool, host: string, listenPort: int, serverUrl: Option<string>)
      ensures this.configDirs == configDirs && this.tlsEnabled == tlsEnabled
      ensures this.host == host && this.listenPort == listenPort && this.serverUrl == serverUrl
    {
      this.configDirs := configDirs;
      this.tlsEnabled := tlsEnabled;
      this.host := host;
      this.listenPort := listenPort;
      this.serverUrl := serverUrl;
    }
  }

  function Scheme(tlsEnabled: bool): string {
    (if tlsEnabled then "https" else "http") + "://"
  }

  function DisplayHost(host: string): (h: string)
    ensures host == BIND_ALL_HOSTS ==> h == "localhost"
    ensures host != BIND_ALL_HOSTS ==> h == host
  {
    if BIND_ALL_HOSTS == host then "localhost" else host
  }

  /** The port part of the URL: empty exactly for the scheme's default port. */
  function PortSuffix(tlsEnabled: bool, listenPort: int): (p: string)
    ensures p == "" <==> (tlsEnabled && listenPort == 443) || (!tlsEnabled && listenPort == 80)
    ensures p != "" ==> p == ":" + IntToString(listenPort)
  {
    if (tlsEnabled && 443 == listenPort) || (!tlsEnabled && 80 == listenPort) then ""
    else ":" + IntToString(listenPort)
  }

  /** The text `buildServerUrl` hands to `URI.create`: an explicit URL wins;
      otherwise scheme, host and port. */
  function ServerUrlText(serverUrl: Option<string>, tlsEnabled: bool, host: string, listenPort: int): (url: string)
    ensures serverUrl.Some? ==> url == serverUrl.value
    ensures serverUrl.None? ==> url == Scheme(tlsEnabled) + DisplayHost(host) + PortSuffix(tlsEnabled, listenPort)
  {
    if serverUrl.Some? then serverUrl.value
    else Scheme(tlsEnabled) + DisplayHost(host) + PortSuffix(tlsEnabled, listenPort)
  }

  /** `buildServerUrl`: the URL text, accepted only when `URI.create` parses it
      (`isUri`, the URI grammar, is a parameter); otherwise start-up fails with the
      rejected text. A parsed URI renders as the text it was created from. */
  function BuildServerUrl(serverUrl: Option<string>, tlsEnabled: bool, host: string, listenPort: int,
                          isUri: string -> bool): (r: Result<string>)
    ensures serverUrl.Some? ==> (r.Ok? <==> isUri(serverUrl.value)) && (r.Ok? ==> r.value == serverUrl.value)
    ensures serverUrl.None? ==>
              var built := Scheme(tlsEnabled) + DisplayHost(host) + PortSuffix(tlsEnabled, listenPort);
              (r.Ok? <==> isUri(built)) && (r.Ok? ==> r.value == built) && (r.Err? ==> r.message == built)
  {
    var url := ServerUrlText(serverUrl, tlsEnabled, host, listenPort);
    if isUri(url) then Ok(url) else Err(url)
  }

  /** A built URL is https exactly when TLS is on. */
  lemma BuiltSchemeFollowsTls(tlsEnabled: bool, host: string, listenPort: int)
    ensures StartsWith(ServerUrlText(None, tlsEnabled, host, listenPort), "https://") <==> tlsEnabled
    ensures StartsWith(ServerUrlText(None, tlsEnabled, host, listenPort), Scheme(tlsEnabled))
  {
    var url := ServerUrlText(None, tlsEnabled, host, listenPort);
    var scheme := Scheme(tlsEnabled);
    assert url[..|scheme|] == scheme;
    if !tlsEnabled {
      assert url[4] == ':';
    }
  }

  /** The bind-all host and a default port give the bare host name. */
  lemma DefaultPortOmitted(tlsEnabled: bool)
    ensures ServerUrlText(None, tlsEnabled, BIND_ALL_HOSTS, if tlsEnabled then 443 else 80) ==
            Scheme(tlsEnabled) + "localhost"
  {
  }

  /** Any other port is written after a colon. */
  lemma OtherPortShown(tlsEnabled: bool, host: string, listenPort: int)
    requires listenPort != (if tlsEnabled then 443 else 80)
    ensures EndsWith(ServerUrlText(None, tlsEnabled, host, listenPort), ":" + IntToString(listenPort))
  {
    var suffix := ":" + IntToString(listenPort);
    var url := ServerUrlText(None, tlsEnabled, host, listenPort);
    assert url == Scheme(tlsEnabled) + DisplayHost(host) + suffix;
    assert url[|url| - |suffix|..] == suffix;
  }

  /** A configuration directory after resolution: one starting "./" is joined to the
      working directory by `pathsGet`; any other is kept. */
  function ResolveConfigDir(dir: string, userDir: string, pathsGet: (string, string) -> string): (r: string)
    ensures !StartsWith(dir, "./") ==> r == dir
    ensures StartsWith(dir, "./") ==> r == pathsGet(userDir, dir[2..])
  {
    if StartsWith(dir, "./") then pathsGet(userDir, dir[2..]) else dir
  }

  /** `processConfiguration`: sets the server URL and resolves the configuration
      directories in place; a URL that is not a URI aborts before either happens. */
  method ProcessConfiguration(config: ImposterConfig, userDir: string, pathsGet: (string, string) -> string,
                              isUri: string -> bool)
    returns (r: Result<string>)
    modifies config, config.configDirs
    ensures r == BuildServerUrl(old(config.serverUrl), config.tlsEnabled, config.host, config.listenPort, isUri)
    ensures r.Err? ==> config.serverUrl == old(config.serverUrl) && config.configDirs[..] == old(config.configDirs[..])
    ensures r.Ok? ==> config.serverUrl == Some(r.value)
    ensures r.Ok? ==> forall i :: 0 <= i < config.configDirs.Length ==>
              config.configDirs[i] == ResolveConfigDir(old(config.configDirs[i]), userDir, pathsGet)
  {
    r := BuildServerUrl(config.serverUrl, config.tlsEnabled, config.host, config.listenPort, isUri);
    if r.Err? {
      return;
    }
    config.serverUrl := Some(r.value);
    var configDirs := config.configDirs;
    for i := 0 to configDirs.Length
      invariant config.serverUrl == Some(r.value)
      invariant forall j :: 0 <= j < i ==> configDirs[j] == ResolveConfigDir(old(configDirs[j]), userDir, pathsGet)
      invariant forall j :: i <= j < configDirs.Length ==> configDirs[j] == old(configDirs[j])
    {
      if StartsWith(configDirs[i], "./") {
        configDirs[i] := pathsGet(userDir, configDirs[i][2..]);
      }
    }
  }

  /** Resolving twice changes nothing more when the joined paths are absolute. */
  lemma ResolveIdempotent(dir: string, userDir: string, pathsGet: (string, string) -> string)
    requires forall a, b :: !StartsWith(pathsGet(a, b), "./")
    ensures ResolveConfigDir(ResolveConfigDir(dir, userDir, pathsGet), userDir, pathsGet) ==
            ResolveConfigDir(dir, userDir, pathsGet)
  {
  }

  /** The check after instantiating plugins: at least one must have loaded. */
  function CheckPluginCount(pluginCount: nat): (r: Result<nat>)
    ensures r.Ok? <==> pluginCount > 0
    ensures r.Ok? ==> r.value == pluginCount
    ensures r.Err? ==> r.message == "No plugins were loaded"
  {
    if pluginCount > 0 then Ok(pluginCount) else Err("No plugins were loaded")
  }
}
