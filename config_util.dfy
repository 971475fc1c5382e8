/** `ConfigUtil`: finding configuration files in a directory tree, the ignore lists
    that exclude entries from the search, choosing a parser by file extension,
    grouping files by plugin, and the environment variables offered to placeholders.

    The file system is a value: a directory tree whose files carry their lines.
    Resolving configuration directories, reading a file's configuration and
    `determinePluginClass` are not part of this model; they are parameters. */
module ConfigUtil {
  import opened Common

  const CONFIG_FILE_SUFFIX: string := "-config"
  const IGNORE_FILE_NAME: string := ".imposterignore"

  /** An entry of a directory; a file carries its lines. */
  datatype FsEntry = FsFile(name: string, lines: seq<string>) | FsDir(name: string, children: seq<FsEntry>)

  /** A `java.io.File`: a parent path and a name. */
  datatype File = File(parent: string, name: string) {
    function Path(): string { parent + "/" + name }
  }

  // ---------------------------------------------------------------------------
  // File names

  datatype Mapper = JsonMapper | YamlMapper

  /** The keys of `CONFIG_FILE_MAPPERS`. */
  const CONFIG_FILE_EXTENSIONS: seq<string> := [".json", ".yaml", ".yml"]

  /** `CONFIG_FILE_MAPPERS[extension]`: JSON for ".json", YAML for ".yaml" and ".yml". */
  function MapperFor(extension: string): (r: Option<Mapper>)
    ensures r.Some? <==> extension in CONFIG_FILE_EXTENSIONS
  {
    if extension == ".json" then Some(JsonMapper)
    else if extension == ".yaml" || extension == ".yml" then Some(YamlMapper)
    else None
  }

  /** `isConfigFile`: the name ends with "-config" and one of the mapped extensions. */
  predicate IsConfigFile(name: string) {
    exists i :: 0 <= i < |CONFIG_FILE_EXTENSIONS| && EndsWith(name, CONFIG_FILE_SUFFIX + CONFIG_FILE_EXTENSIONS[i])
  }

  lemma IsConfigFileIff(name: string)
    ensures IsConfigFile(name) <==>
            EndsWith(name, "-config.json") || EndsWith(name, "-config.yaml") || EndsWith(name, "-config.yml")
  {
    assert CONFIG_FILE_SUFFIX + CONFIG_FILE_EXTENSIONS[0] == "-config.json";
    assert CONFIG_FILE_SUFFIX + CONFIG_FILE_EXTENSIONS[1] == "-config.yaml";
    assert CONFIG_FILE_SUFFIX + CONFIG_FILE_EXTENSIONS[2] == "-config.yml";
  }

  /** `lastIndexOf(c)`, -1 when absent. */
  function LastIndexOf(s: string, c: char): (i: int)
    ensures -1 <= i < |s|
    ensures i >= 0 ==> s[i] == c
    ensures forall k :: i < k < |s| ==> s[k] != c
  {
    if s == [] then -1
    else if s[|s| - 1] == c then |s| - 1
    else LastIndexOf(s[..|s| - 1], c)
  }

  /** `lookupMapper`: the extension runs from the last '.'. A name without '.' fails
      on the substring; an extension without a mapper fails on the lookup. */
  function LookupMapper(file: File): (r: Result<Mapper>)
    ensures LastIndexOf(file.name, '.') == -1 ==> r.Err?
    ensures LastIndexOf(file.name, '.') >= 0 ==>
              var extension := file.name[LastIndexOf(file.name, '.')..];
              (r.Ok? <==> extension in CONFIG_FILE_EXTENSIONS) &&
              (r.Ok? ==> Some(r.value) == MapperFor(extension)) &&
              (r.Err? ==> r.message == "Unable to locate mapper for config file: " + file.Path())
  {
    var i := LastIndexOf(file.name, '.');
    if i < 0 then Err("String index out of range: -1")
    else
      var extension := file.name[i..];
      match MapperFor(extension)
      case Some(mapper) => Ok(mapper)
      case None => Err("Unable to locate mapper for config file: " + file.Path())
  }

  /** Every file the search accepts has a mapper. */
  lemma ConfigFileHasMapper(file: File)
    requires IsConfigFile(file.name)
    ensures LookupMapper(file).Ok?
  {
    var name := file.name;
    var n :| 0 <= n < |CONFIG_FILE_EXTENSIONS| && EndsWith(name, CONFIG_FILE_SUFFIX + CONFIG_FILE_EXTENSIONS[n]);
    var extension := CONFIG_FILE_EXTENSIONS[n];
    ExtensionHasOneDot(n);
    SuffixOfSuffix(name, CONFIG_FILE_SUFFIX, extension);
    ExtensionFromLastDot(name, extension);
    assert extension in CONFIG_FILE_EXTENSIONS;
  }

  /** Each mapped extension is a '.' followed by letters. */
  lemma ExtensionHasOneDot(n: nat)
    requires n < |CONFIG_FILE_EXTENSIONS|
    ensures |CONFIG_FILE_EXTENSIONS[n]| >= 1 && CONFIG_FILE_EXTENSIONS[n][0] == '.'
    ensures forall k :: 0 < k < |CONFIG_FILE_EXTENSIONS[n]| ==> CONFIG_FILE_EXTENSIONS[n][k] != '.'
  {
    if n == 0 {
      assert CONFIG_FILE_EXTENSIONS[n] == ".json";
    } else if n == 1 {
      assert CONFIG_FILE_EXTENSIONS[n] == ".yaml";
    } else {
      assert CONFIG_FILE_EXTENSIONS[n] == ".yml";
    }
  }

  lemma SuffixOfSuffix(s: string, a: string, b: string)
    requires EndsWith(s, a + b)
    ensures EndsWith(s, b)
  {
    assert s[|s| - |b|..] == s[|s| - |a + b|..][|a|..];
  }

  /** A name ending in an extension with one leading '.' has that extension from its last '.'. */
  lemma ExtensionFromLastDot(name: string, extension: string)
    requires |extension| >= 1 && extension[0] == '.'
    requires forall k :: 0 < k < |extension| ==> extension[k] != '.'
    requires EndsWith(name, extension)
    ensures LastIndexOf(name, '.') == |name| - |extension|
    ensures name[|name| - |extension|..] == extension
  {
    var dot := |name| - |extension|;
    forall k | dot < k < |name|
      ensures name[k] != '.'
    {
      assert name[k] == name[dot..][k - dot];
    }
    assert name[dot] == name[dot..][0];
    LastIndexOfIs(name, '.', dot);
  }

  lemma LastIndexOfIs(s: string, c: char, i: nat)
    requires i < |s| && s[i] == c
    requires forall k :: i < k < |s| ==> s[k] != c
    ensures LastIndexOf(s, c) == i
  {
  }

  // ---------------------------------------------------------------------------
  // Ignore lists

  /** `parseExclusionsFile`: the lines that are not blank and not comments, in order. */
  function ParseExclusionsFile(rawEntries: seq<string>): (r: seq<string>)
    ensures |r| <= |rawEntries|
  {
    if rawEntries == [] then []
    else
      ParseExclusionsFile(rawEntries[..|rawEntries| - 1])
      + (if IsExclusion(rawEntries[|rawEntries| - 1]) then [rawEntries[|rawEntries| - 1]] else [])
  }

  /** Exactly the entry lines are kept. */
  lemma {:induction false} ParseExclusionsKeeps(rawEntries: seq<string>)
    ensures forall e :: e in ParseExclusionsFile(rawEntries) <==> e in rawEntries && IsExclusion(e)
  {
    if rawEntries != [] {
      var init := rawEntries[..|rawEntries| - 1];
      ParseExclusionsKeeps(init);
      assert rawEntries == init + [rawEntries[|rawEntries| - 1]];
    }
  }

  /** A line of an ignore file that names an entry: not blank and not a comment. */
  predicate IsExclusion(line: string) {
    !IsBlank(line) && !StartsWith(line, "#")
  }

  /** Kept entries stay in order: parsing two files one after the other is parsing
      their concatenation. */
  lemma {:induction false} ParseExclusionsAppend(a: seq<string>, b: seq<string>)
    ensures ParseExclusionsFile(a + b) == ParseExclusionsFile(a) + ParseExclusionsFile(b)
    decreases |b|
  {
    if b == [] {
      assert a + b == a;
    } else {
      var init := b[..|b| - 1];
      var ab := a + b;
      ParseExclusionsAppend(a, init);
      assert ab[..|ab| - 1] == a + init;
      assert ab[|ab| - 1] == b[|b| - 1];
      assert ParseExclusionsFile(ab) == ParseExclusionsFile(a + init)
        + (if IsExclusion(b[|b| - 1]) then [b[|b| - 1]] else []);
    }
  }

  /** The ignore file in a directory, if there is one: a file gives its lines; a
      directory of that name cannot be read. */
  function IgnoreFileLines(dir: FsEntry): Result<seq<string>> {
    match dir
    case FsFile(_, _) => Ok([])
    case FsDir(_, children) => IgnoreFileIn(children)
  }

  function IgnoreFileIn(children: seq<FsEntry>): Result<seq<string>> {
    if children == [] then Ok([])
    else if children[0].name == IGNORE_FILE_NAME then
      if children[0].FsFile? then Ok(children[0].lines) else Err("Is a directory: " + IGNORE_FILE_NAME)
    else IgnoreFileIn(children[1..])
  }

  /** The exclusions of all directories, in order. */
  function DirExclusions(configDirs: seq<FsEntry>): Result<seq<string>> {
    if configDirs == [] then Ok([])
    else
      match IgnoreFileLines(configDirs[0])
      case Err(m) => Err(m)
      case Ok(lines) =>
        match DirExclusions(configDirs[1..])
        case Err(m) => Err(m)
        case Ok(rest) => Ok(ParseExclusionsFile(lines) + rest)
  }

  /** `buildExclusions`: the directories' ignore files, or the default list (the
      classpath ignore file, or nothing) only when they give no entry at all. */
  function BuildExclusions(configDirs: seq<FsEntry>, defaultIgnoreFile: Option<seq<string>>): (r: Result<seq<string>>)
    ensures DirExclusions(configDirs).Ok? && DirExclusions(configDirs).value != [] ==> r == DirExclusions(configDirs)
    ensures DirExclusions(configDirs) == Ok([]) ==>
              r == Ok(if defaultIgnoreFile.Some? then ParseExclusionsFile(defaultIgnoreFile.value) else [])
    ensures DirExclusions(configDirs).Err? ==> r.Err?
  {
    match DirExclusions(configDirs)
    case Err(m) => Err(m)
    case Ok(exclusions) =>
      if exclusions != [] then Ok(exclusions)
      else Ok(if defaultIgnoreFile.Some? then ParseExclusionsFile(defaultIgnoreFile.value) else [])
  }

  // ---------------------------------------------------------------------------
  // Listing

  /** The configuration files of a directory's entries, in order: a config file by
      name is taken whatever its kind; other directories are searched when recursive. */
  function ConfigFilesIn(dirPath: string, children: seq<FsEntry>, scanRecursive: bool, exclusions: seq<string>): seq<File>
    decreases children, 1
  {
    if children == [] then []
    else
      ConfigFilesIn(dirPath, children[..|children| - 1], scanRecursive, exclusions)
      + EntryFiles(dirPath, children[|children| - 1], scanRecursive, exclusions)
  }

  function EntryFiles(dirPath: string, entry: FsEntry, scanRecursive: bool, exclusions: seq<string>): seq<File>
    decreases entry, 0
  {
    if entry.name in exclusions then []
    else if IsConfigFile(entry.name) then [File(dirPath, entry.name)]
    else if scanRecursive && entry.FsDir? then ConfigFilesIn(dirPath + "/" + entry.name, entry.children, scanRecursive, exclusions)
    else []
  }

  /** `listConfigFiles(configDir, …)`: `listFiles()` of a file is null, which lists nothing. */
  method ListConfigFiles(dirPath: string, configDir: FsEntry, scanRecursive: bool, exclusions: seq<string>)
    returns (configFiles: seq<File>)
    ensures configDir.FsFile? ==> configFiles == []
    ensures configDir.FsDir? ==> configFiles == ConfigFilesIn(dirPath, configDir.children, scanRecursive, exclusions)
    decreases configDir
  {
    configFiles := [];
    if configDir.FsFile? {
      return;
    }
    var children := configDir.children;
    var i := 0;
    while i < |children|
      invariant 0 <= i <= |children|
      invariant configFiles == ConfigFilesIn(dirPath, children[..i], scanRecursive, exclusions)
    {
      var file := children[i];
      assert children[..i + 1][..i] == children[..i];
      if file.name !in exclusions {
        if IsConfigFile(file.name) {
          configFiles := configFiles + [File(dirPath, file.name)];
        } else if scanRecursive && file.FsDir? {
          var nested := ListConfigFiles(dirPath + "/" + file.name, file, scanRecursive, exclusions);
          configFiles := configFiles + nested;
        }
      }
      i := i + 1;
    }
    assert children[..i] == children;
  }

  /** Every file found is a config file by name, and is not excluded. */
  lemma {:induction false} FoundFilesAllowed(dirPath: string, children: seq<FsEntry>, scanRecursive: bool,
                                             exclusions: seq<string>)
    ensures forall f :: f in ConfigFilesIn(dirPath, children, scanRecursive, exclusions) ==>
              IsConfigFile(f.name) && f.name !in exclusions
    decreases children, 1
  {
    if children != [] {
      FoundFilesAllowed(dirPath, children[..|children| - 1], scanRecursive, exclusions);
      EntryFilesAllowed(dirPath, children[|children| - 1], scanRecursive, exclusions);
    }
  }

  lemma {:induction false} EntryFilesAllowed(dirPath: string, entry: FsEntry, scanRecursive: bool, exclusions: seq<string>)
    ensures forall f :: f in EntryFiles(dirPath, entry, scanRecursive, exclusions) ==>
              IsConfigFile(f.name) && f.name !in exclusions
    decreases entry, 0
  {
    if entry.name !in exclusions && !IsConfigFile(entry.name) && scanRecursive && entry.FsDir? {
      FoundFilesAllowed(dirPath + "/" + entry.name, entry.children, scanRecursive, exclusions);
    }
  }

  /** An excluded entry adds nothing, and its contents are never searched. */
  lemma ExcludedEntryIgnored(dirPath: string, children: seq<FsEntry>, entry: FsEntry, scanRecursive: bool,
                             exclusions: seq<string>)
    requires entry.name in exclusions
    ensures ConfigFilesIn(dirPath, children + [entry], scanRecursive, exclusions)
            == ConfigFilesIn(dirPath, children, scanRecursive, exclusions)
  {
    assert (children + [entry])[..|children|] == children;
  }

  /** Without recursion only direct children are returned. */
  lemma {:induction false} NonRecursiveDirectChildren(dirPath: string, children: seq<FsEntry>, exclusions: seq<string>)
    ensures forall f :: f in ConfigFilesIn(dirPath, children, false, exclusions) ==>
              f.parent == dirPath && exists i :: 0 <= i < |children| && children[i].name == f.name
  {
    if children != [] {
      var init := children[..|children| - 1];
      NonRecursiveDirectChildren(dirPath, init, exclusions);
      forall f | f in ConfigFilesIn(dirPath, children, false, exclusions)
        ensures f.parent == dirPath && exists i :: 0 <= i < |children| && children[i].name == f.name
      {
        var last := children[|children| - 1];
        assert ConfigFilesIn(dirPath, children, false, exclusions)
          == ConfigFilesIn(dirPath, init, false, exclusions) + EntryFiles(dirPath, last, false, exclusions);
        if f in ConfigFilesIn(dirPath, init, false, exclusions) {
          var i :| 0 <= i < |init| && init[i].name == f.name;
          assert children[i] == init[i];
        } else {
          assert f == File(dirPath, last.name);
          assert children[|children| - 1].name == f.name;
        }
      }
    }
  }

  /** A local configuration directory: its path and its tree. */
  datatype ConfigDir = ConfigDir(path: string, tree: FsEntry)

  function Trees(configDirs: seq<ConfigDir>): (r: seq<FsEntry>)
    ensures |r| == |configDirs| && forall i :: 0 <= i < |r| ==> r[i] == configDirs[i].tree
  {
    if configDirs == [] then [] else [configDirs[0].tree] + Trees(configDirs[1..])
  }

  /** The configuration files of each directory, directory after directory. */
  function FilesOfDirs(configDirs: seq<ConfigDir>, scanRecursive: bool, exclusions: seq<string>): seq<File> {
    if configDirs == [] then []
    else
      var dir := configDirs[|configDirs| - 1];
      FilesOfDirs(configDirs[..|configDirs| - 1], scanRecursive, exclusions)
      + (if dir.tree.FsDir? then ConfigFilesIn(dir.path, dir.tree.children, scanRecursive, exclusions) else [])
  }

  /** `discoverConfigFiles`, after the directories are resolved to local ones: one set
      of exclusions for every directory, then each directory's files in turn. */
  method DiscoverConfigFiles(configDirs: seq<ConfigDir>, scanRecursive: bool, defaultIgnoreFile: Option<seq<string>>)
    returns (r: Result<seq<File>>)
    ensures BuildExclusions(Trees(configDirs), defaultIgnoreFile).Err? ==> r.Err?
    ensures BuildExclusions(Trees(configDirs), defaultIgnoreFile).Ok? ==>
              r == Ok(FilesOfDirs(configDirs, scanRecursive, BuildExclusions(Trees(configDirs), defaultIgnoreFile).value))
  {
    var built := BuildExclusions(Trees(configDirs), defaultIgnoreFile);
    if built.Err? {
      return Err(built.message);
    }
    var exclusions := built.value;
    var configFiles: seq<File> := [];
    for i := 0 to |configDirs|
      invariant configFiles == FilesOfDirs(configDirs[..i], scanRecursive, exclusions)
    {
      assert configDirs[..i + 1][..i] == configDirs[..i];
      var listed := ListConfigFiles(configDirs[i].path, configDirs[i].tree, scanRecursive, exclusions);
      configFiles := configFiles + listed;
    }
    assert configDirs[..|configDirs|] == configDirs;
    r := Ok(configFiles);
  }

  /** Every discovered file is a config file by name that no exclusion names. */
  lemma {:induction false} DiscoveredFilesAllowed(configDirs: seq<ConfigDir>, scanRecursive: bool, exclusions: seq<string>)
    ensures forall f :: f in FilesOfDirs(configDirs, scanRecursive, exclusions) ==>
              IsConfigFile(f.name) && f.name !in exclusions
  {
    if configDirs != [] {
      var dir := configDirs[|configDirs| - 1];
      DiscoveredFilesAllowed(configDirs[..|configDirs| - 1], scanRecursive, exclusions);
      if dir.tree.FsDir? {
        FoundFilesAllowed(dir.path, dir.tree.children, scanRecursive, exclusions);
      }
    }
  }

  // ---------------------------------------------------------------------------
  // Grouping by plugin

  /** The plugin class a file's configuration names; loading or resolving can fail. */
  function PluginClassOf(file: File, pluginOf: File -> Result<string>,
                         determinePluginClass: string -> Result<string>): Result<string>
  {
    match pluginOf(file)
    case Err(m) => Err(m)
    case Ok(plugin) => determinePluginClass(plugin)
  }

  /** The files grouped by plugin class, each group in file order. A failure anywhere
      fails the whole grouping. */
  function Grouped(files: seq<File>, classOf: File -> Result<string>): Result<map<string, seq<File>>> {
    if files == [] then Ok(map[])
    else
      match Grouped(files[..|files| - 1], classOf)
      case Err(m) => Err(m)
      case Ok(groups) =>
        var file := files[|files| - 1];
        match classOf(file)
        case Err(m) => Err(m)
        case Ok(pluginClass) =>
          Ok(groups[pluginClass := (if pluginClass in groups then groups[pluginClass] else []) + [file]])
  }

  /** The files whose class is the given one, in order. */
  function FilesOfClass(files: seq<File>, classOf: File -> Result<string>, pluginClass: string): seq<File> {
    if files == [] then []
    else
      var file := files[|files| - 1];
      FilesOfClass(files[..|files| - 1], classOf, pluginClass)
      + (if classOf(file) == Ok(pluginClass) then [file] else [])
  }

  /** `loadPluginConfigs`: each file is loaded to find its plugin, then appended to
      that plugin's group. */
  method LoadPluginConfigs(configFiles: seq<File>, pluginOf: File -> Result<string>,
                           determinePluginClass: string -> Result<string>)
    returns (r: Result<map<string, seq<File>>>)
    ensures r == Grouped(configFiles, f => PluginClassOf(f, pluginOf, determinePluginClass))
  {
    ghost var classOf := f => PluginClassOf(f, pluginOf, determinePluginClass);
    var allPluginConfigs: map<string, seq<File>> := map[];
    var configCount := 0;
    var i := 0;
    while i < |configFiles|
      invariant 0 <= i <= |configFiles|
      invariant Grouped(configFiles[..i], classOf) == Ok(allPluginConfigs)
    {
      var configFile := configFiles[i];
      configCount := configCount + 1;
      assert configFiles[..i + 1][..i] == configFiles[..i];
      var config := pluginOf(configFile);
      if config.Err? {
        GroupedErrPersists(configFiles, i + 1, classOf);
        return Err(config.message);
      }
      var pluginClass := determinePluginClass(config.value);
      if pluginClass.Err? {
        GroupedErrPersists(configFiles, i + 1, classOf);
        return Err(pluginClass.message);
      }
      var pluginConfigs := if pluginClass.value in allPluginConfigs then allPluginConfigs[pluginClass.value] else [];
      allPluginConfigs := allPluginConfigs[pluginClass.value := pluginConfigs + [configFile]];
      i := i + 1;
    }
    assert configFiles[..i] == configFiles;
    r := Ok(allPluginConfigs);
  }

  /** The first failure is the grouping's failure. */
  lemma {:induction false} GroupedErrPersists(files: seq<File>, n: nat, classOf: File -> Result<string>)
    requires n <= |files| && Grouped(files[..n], classOf).Err?
    ensures Grouped(files, classOf) == Grouped(files[..n], classOf)
    decreases |files| - n
  {
    if n < |files| {
      assert files[..n + 1][..n] == files[..n];
      GroupedErrPersists(files, n + 1, classOf);
    } else {
      assert files[..n] == files;
    }
  }

  /** Each group holds exactly the files of its plugin class, in file order. */
  lemma {:induction false} GroupsPreserveOrder(files: seq<File>, classOf: File -> Result<string>, pluginClass: string)
    requires Grouped(files, classOf).Ok?
    ensures pluginClass in Grouped(files, classOf).value ==>
              Grouped(files, classOf).value[pluginClass] == FilesOfClass(files, classOf, pluginClass)
    ensures pluginClass !in Grouped(files, classOf).value ==> FilesOfClass(files, classOf, pluginClass) == []
  {
    if files != [] {
      GroupsPreserveOrder(files[..|files| - 1], classOf, pluginClass);
    }
  }

  // ---------------------------------------------------------------------------
  // Placeholders

  /** The variables offered to placeholder substitution: every environment variable
      under "env." and its own name. */
  function EnvironmentVars(environment: map<string, string>): (r: map<string, string>)
    ensures forall key :: key in environment ==> "env." + key in r && r["env." + key] == environment[key]
    ensures forall name :: name in r ==> StartsWith(name, "env.") && name[4..] in environment
  {
    map name | name in PrefixedKeys(environment) :: environment[name[4..]]
  }

  function PrefixedKeys(environment: map<string, string>): (keys: set<string>)
    ensures forall key :: key in environment ==> "env." + key in keys
    ensures forall name :: name in keys ==> StartsWith(name, "env.") && name[4..] in environment
  {
    set key | key in environment :: PrefixKey(key)
  }

  function PrefixKey(key: string): (name: string)
    ensures StartsWith(name, "env.") && name[4..] == key
  {
    var name := "env." + key;
    assert name[..4] == "env.";
    name
  }

  /** `ConfigUtil`'s substitutor, which `initInterpolators` replaces. */
  class PlaceholderSubstitution {
    var variables: Option<map<string, string>>

    constructor ()
      ensures variables.None?
    {
      variables := None;
    }

    method InitInterpolators(environment: map<string, string>)
      modifies this
      ensures variables == Some(EnvironmentVars(environment))
    {
      variables := Some(EnvironmentVars(environment));
    }
  }
}
