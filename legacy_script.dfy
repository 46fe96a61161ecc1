/**
 * `BuildScript` of the older tree: where the config files live, how a config
 * is loaded from the environment and folded with the platform file, the
 * shared file and the GitVersion output, and where the build goes.
 *
 * The file system is a map from path to the document an XML file holds; the
 * GitVersion tool is a map from its path to the text it prints. The two maps
 * stand for disjoint sets of files.
 */
module LegacyScript {
  import opened Common
  import opened DotNet
  import opened UnityEditor
  import opened Coalesce
  import opened BuildHelpers
  import opened AppVersion
  import opened LegacyConfig
  import LegacyUtility

  // ---------------------------------------------------------------- store-aware config path

  /** The part the store-aware `GetConfigPath` adds for a store that is not the target's default. */
  function StoreSuffix(target: BuildTarget, store: AppStore): string {
    if store != NotSpecified && store != LegacyUtility.GetDefaultStore(target) then "." + StoreName(store) else ""
  }

  /** `GetConfigPath(basePath, name, target, store)`. */
  function GetStoreConfigPath(basePath: Option<string>, name: Option<string>, target: BuildTarget, store: AppStore): (r: Result<string>)
    ensures r.Success? <==> basePath.Some? && name.Some?
  {
    var path :- PathCombine(basePath, name);
    Success(path + TargetSuffix(target) + StoreSuffix(target, store) + ConfigExtension)
  }

  /**
   * The store-aware path is the plain platform path exactly when the store
   * is unspecified or the target's default store.
   */
  lemma StoreConfigPathIsPlatformPath(basePath: string, name: string, target: BuildTarget, store: AppStore)
    ensures GetStoreConfigPath(Some(basePath), Some(name), target, store) == GetConfigPath(Some(basePath), Some(name), target)
      <==> store == NotSpecified || store == LegacyUtility.GetDefaultStore(target)
  {
    var path := CombinePaths(basePath, name) + TargetSuffix(target);
    if store == NotSpecified || store == LegacyUtility.GetDefaultStore(target) {
      assert path + "" + ConfigExtension == path + ConfigExtension;
    } else {
      assert |path + StoreSuffix(target, store) + ConfigExtension| > |path + ConfigExtension|;
    }
  }

  // ---------------------------------------------------------------- build path

  /** `GetBuildPath(config)`: `BuildPath / (ProductId + "_v" + BundleVersion) / target`. */
  function GetBuildPath(c: Config): (r: Result<string>)
    ensures r.Success? <==> c.buildPath.Some?
    ensures r.Failure? ==> r.error == ArgumentNull("path1")
  {
    BuildHelpers.GetBuildPath(c.app.productId, c.version.bundleVersion, c.buildPath, c.buildTarget)
  }

  // ---------------------------------------------------------------- the load fold

  /** The config after `config = config.Combine(FromXml(path))` when the file exists. */
  function FileCombined(c: Config, files: map<string, XmlFile>, path: string): Config {
    if path in files then Combined(c, Deserialized(files[path])) else c
  }

  /** Whether `File.Exists(config.GitVersionPath)`. */
  predicate HasTool(c: Config, tools: map<string, string>) {
    c.gitVersionPath.Some? && c.gitVersionPath.value in tools
  }

  /** The config after the GitVersion step: its output read with the config's build number, then combined. */
  function VersionCombined(c: Config, tools: map<string, string>): Result<Config> {
    if HasTool(c, tools) then
      var info :- Parse(tools[c.gitVersionPath.value], c.version.buildNumber);
      Success(CombinedVersion(c, AsVersionConfig(info)))
    else
      Success(c)
  }

  /** What `LoadConfig(config)` returns for a config with value `c`, or the exception it throws. */
  function Loaded(c: Config, files: map<string, XmlFile>, tools: map<string, string>): Result<Config> {
    var platformPath :- GetConfigPath(c.buildConfigPath, c.buildConfigName, c.buildTarget);
    var sharedPath :- GetSharedConfigPath(c.buildConfigPath, c.buildConfigName);
    VersionCombined(FileCombined(FileCombined(c, files, platformPath), files, sharedPath), tools)
  }

  /** The config `LoadConfig(target, developmentBuild, configType)` passes on. */
  function Flagged(c: Config, target: BuildTarget, developmentBuild: bool): Config {
    c.(buildTarget := target, buildOptions := if developmentBuild then c.buildOptions + DevelopmentOptions else c.buildOptions)
  }

  /** What `LoadConfig(target, developmentBuild, configType)` returns, or the exception it throws. */
  function LoadedFor(target: BuildTarget, developmentBuild: bool, configType: Option<ConfigType>, env: Environment,
    active: BuildTarget, files: map<string, XmlFile>, tools: map<string, string>): Result<Config>
  {
    if configType.None? then Failure(ArgumentNull("configType"))
    else
      var c :- EnvironmentLoaded(Empty, env, active);
      Loaded(Flagged(c, target, developmentBuild), files, tools)
  }

  // ---------------------------------------------------------------- properties of the fold

  /** The sources of a load after the config itself, in precedence order: the files that exist. */
  function FileSources(c: Config, files: map<string, XmlFile>): seq<Config>
    requires c.buildConfigPath.Some? && c.buildConfigName.Some?
  {
    var platformPath := GetConfigPath(c.buildConfigPath, c.buildConfigName, c.buildTarget).value;
    var sharedPath := GetSharedConfigPath(c.buildConfigPath, c.buildConfigName).value;
    (if platformPath in files then [Deserialized(files[platformPath])] else []) +
    (if sharedPath in files then [Deserialized(files[sharedPath])] else [])
  }

  function Apps(configs: seq<Config>): seq<AppFields> {
    seq(|configs|, k requires 0 <= k < |configs| => configs[k].app)
  }

  function Versions(configs: seq<Config>): seq<VersionFields> {
    seq(|configs|, k requires 0 <= k < |configs| => configs[k].version)
  }

  /**
   * A load fails exactly when the config location is null (`Path.Combine`
   * throws) or the GitVersion output cannot be read.
   */
  lemma LoadedFails(c: Config, files: map<string, XmlFile>, tools: map<string, string>)
    ensures c.buildConfigPath.None? ==> Loaded(c, files, tools) == Failure(ArgumentNull("path1"))
    ensures c.buildConfigPath.Some? && c.buildConfigName.None? ==> Loaded(c, files, tools) == Failure(ArgumentNull("path2"))
    ensures c.buildConfigPath.Some? && c.buildConfigName.Some? && !HasTool(c, tools) ==> Loaded(c, files, tools).Success?
    ensures Loaded(c, files, tools).Failure? ==>
      Loaded(c, files, tools).error in {ArgumentNull("path1"), ArgumentNull("path2"), ArgumentOutOfRange, Format, Overflow}
  {
    if c.buildConfigPath.Some? && c.buildConfigName.Some? {
      var platformPath := GetConfigPath(c.buildConfigPath, c.buildConfigName, c.buildTarget).value;
      var sharedPath := GetSharedConfigPath(c.buildConfigPath, c.buildConfigName).value;
      var pre := FileCombined(FileCombined(c, files, platformPath), files, sharedPath);
      assert pre.gitVersionPath == c.gitVersionPath;
    }
  }

  /** With no file and no tool present, the config comes back as it was. */
  lemma LoadedWithoutSources(c: Config, files: map<string, XmlFile>, tools: map<string, string>)
    requires c.buildConfigPath.Some? && c.buildConfigName.Some?
    requires FileSources(c, files) == [] && !HasTool(c, tools)
    ensures Loaded(c, files, tools) == Success(c)
  {
    var platformPath := GetConfigPath(c.buildConfigPath, c.buildConfigName, c.buildTarget).value;
    var sharedPath := GetSharedConfigPath(c.buildConfigPath, c.buildConfigName).value;
    assert platformPath !in files && sharedPath !in files;
  }

  /** The GitVersion output as a further version source, when the tool exists and its output reads. */
  function ToolSource(c: Config, tools: map<string, string>): seq<VersionFields> {
    if HasTool(c, tools) then
      var info := Parse(tools[c.gitVersionPath.value], c.version.buildNumber);
      if info.Success? then [AsVersionConfig(info.value)] else []
    else []
  }

  /** One more source at the end of a fold is one more `Combine`. */
  lemma FoldSnoc(configs: seq<Config>, next: Config)
    requires |configs| >= 1
    ensures MergeApps(Apps(configs + [next])) == MergeApp(MergeApps(Apps(configs)), next.app)
    ensures MergeVersions(Versions(configs + [next])) == MergeVersion(MergeVersions(Versions(configs)), next.version)
  {
    assert Apps(configs + [next])[..|configs|] == Apps(configs);
    assert Versions(configs + [next])[..|configs|] == Versions(configs);
  }

  /**
   * The files step of the fold: the app and version settings are the config's
   * merged with the files that exist, in order; everything but the defines
   * and scenes is the config's own.
   */
  lemma FilesFold(c: Config, files: map<string, XmlFile>)
    requires c.buildConfigPath.Some? && c.buildConfigName.Some?
    ensures var platformPath := GetConfigPath(c.buildConfigPath, c.buildConfigName, c.buildTarget).value;
      var sharedPath := GetSharedConfigPath(c.buildConfigPath, c.buildConfigName).value;
      var r := FileCombined(FileCombined(c, files, platformPath), files, sharedPath);
      var sources := [c] + FileSources(c, files);
      r.app == MergeApps(Apps(sources)) &&
      r.version == MergeVersions(Versions(sources)) &&
      r.(defines := c.defines, scenes := c.scenes, app := c.app, version := c.version) == c
  {
    var platformPath := GetConfigPath(c.buildConfigPath, c.buildConfigName, c.buildTarget).value;
    var sharedPath := GetSharedConfigPath(c.buildConfigPath, c.buildConfigName).value;
    var s1 := [c] + (if platformPath in files then [Deserialized(files[platformPath])] else []);
    var sources := [c] + FileSources(c, files);
    assert sources == s1 + (if sharedPath in files then [Deserialized(files[sharedPath])] else []);
    if platformPath in files {
      FoldSnoc([c], Deserialized(files[platformPath]));
    }
    if sharedPath in files {
      FoldSnoc(s1, Deserialized(files[sharedPath]));
    }
  }

  /**
   * The fold: the app settings are the config's merged with the files that
   * exist, in order; the version settings in addition with the GitVersion
   * output last; the location, target, options, paths and keystore are the
   * config's own.
   */
  lemma LoadedFold(c: Config, files: map<string, XmlFile>, tools: map<string, string>)
    requires Loaded(c, files, tools).Success?
    ensures c.buildConfigPath.Some? && c.buildConfigName.Some?
    ensures var r := Loaded(c, files, tools).value;
      var sources := [c] + FileSources(c, files);
      var pre := sources[0].(app := MergeApps(Apps(sources)), version := MergeVersions(Versions(sources)));
      r.app == MergeApps(Apps(sources)) &&
      (HasTool(c, tools) ==> |ToolSource(pre, tools)| == 1) &&
      r.version == MergeVersions(Versions(sources) + ToolSource(pre, tools)) &&
      r.(defines := c.defines, scenes := c.scenes, app := c.app, version := c.version) == c
  {
    FilesFold(c, files);
    var sources := [c] + FileSources(c, files);
    var pre := sources[0].(app := MergeApps(Apps(sources)), version := MergeVersions(Versions(sources)));
    if HasTool(c, tools) {
      var info := Parse(tools[c.gitVersionPath.value], pre.version.buildNumber);
      assert info.Success?;
      var all := Versions(sources) + ToolSource(pre, tools);
      assert all[..|all| - 1] == Versions(sources);
    } else {
      assert Versions(sources) + ToolSource(pre, tools) == Versions(sources);
    }
  }

  /**
   * Precedence: every app setting takes the value of the first of the config,
   * the platform file and the shared file that sets it, and a setting the
   * config already has is never overridden.
   */
  lemma LoadedPrecedence(c: Config, files: map<string, XmlFile>, tools: map<string, string>, setting: AppSetting)
    requires Loaded(c, files, tools).Success?
    ensures c.buildConfigPath.Some? && c.buildConfigName.Some?
    ensures var r := Loaded(c, files, tools).value;
      var sources := [c] + FileSources(c, files);
      AppGet(r.app, setting) == Coalesced(AppColumn(Apps(sources), setting)) &&
      (!IsNullOrEmpty(AppGet(c.app, setting)) ==> AppGet(r.app, setting) == AppGet(c.app, setting))
  {
    LoadedFold(c, files, tools);
    var sources := [c] + FileSources(c, files);
    MergeAppsPrecedence(Apps(sources), setting);
    CoalescedKeepsFirst(AppColumn(Apps(sources), setting));
  }

  /**
   * The version settings take the first set value of the config, the files and
   * the GitVersion output, in that order: in particular the output's bundle
   * version is used only when no config file sets one.
   */
  lemma LoadedVersionPrecedence(c: Config, files: map<string, XmlFile>, tools: map<string, string>)
    requires Loaded(c, files, tools).Success?
    ensures c.buildConfigPath.Some? && c.buildConfigName.Some?
    ensures var r := Loaded(c, files, tools).value;
      var sources := [c] + FileSources(c, files);
      var pre := sources[0].(app := MergeApps(Apps(sources)), version := MergeVersions(Versions(sources)));
      var all := Versions(sources) + ToolSource(pre, tools);
      r.version.bundleVersion == Coalesced(seq(|all|, k requires 0 <= k < |all| => all[k].bundleVersion)) &&
      r.version.bundleVersionCode == CoalescedInt(seq(|all|, k requires 0 <= k < |all| => all[k].bundleVersionCode)) &&
      r.version.buildNumber == CoalescedInt(seq(|all|, k requires 0 <= k < |all| => all[k].buildNumber))
  {
    LoadedFold(c, files, tools);
    var sources := [c] + FileSources(c, files);
    var pre := sources[0].(app := MergeApps(Apps(sources)), version := MergeVersions(Versions(sources)));
    MergeVersionsPrecedence(Versions(sources) + ToolSource(pre, tools));
  }

  /**
   * With `NoTarget` the platform path is the shared path, so the shared file
   * is combined twice; the second time changes nothing.
   */
  lemma NoTargetReadsSharedOnce(c: Config, files: map<string, XmlFile>, tools: map<string, string>)
    requires c.buildTarget == NoTarget && c.buildConfigPath.Some? && c.buildConfigName.Some?
    ensures var sharedPath := GetSharedConfigPath(c.buildConfigPath, c.buildConfigName).value;
      Loaded(c, files, tools) == VersionCombined(FileCombined(c, files, sharedPath), tools)
  {
    NoTargetPathIsShared(c.buildConfigPath, c.buildConfigName);
    var sharedPath := GetSharedConfigPath(c.buildConfigPath, c.buildConfigName).value;
    if sharedPath in files {
      CombinedIdempotent(c, Deserialized(files[sharedPath]));
    }
  }

  /**
   * `LoadConfig(target, developmentBuild, configType)` builds for the target it
   * is given, keeps the options the environment asked for and adds the
   * development flags for a development build; a config it returns always has
   * a build folder.
   */
  lemma LoadedForTargetAndOptions(target: BuildTarget, developmentBuild: bool, configType: Option<ConfigType>, env: Environment,
    active: BuildTarget, files: map<string, XmlFile>, tools: map<string, string>)
    requires LoadedFor(target, developmentBuild, configType, env, active, files, tools).Success?
    ensures var r := LoadedFor(target, developmentBuild, configType, env, active, files, tools).value;
      var c := EnvironmentLoaded(Empty, env, active).value;
      r.buildTarget == target &&
      (developmentBuild ==> r.buildOptions == c.buildOptions + DevelopmentOptions) &&
      (!developmentBuild ==> r.buildOptions == c.buildOptions) &&
      GetBuildPath(r).Success?
  {
    var c := EnvironmentLoaded(Empty, env, active).value;
    EnvironmentLoadedValues(Empty, env, active);
    LoadedFold(Flagged(c, target, developmentBuild), files, tools);
  }

  // ---------------------------------------------------------------- the methods

  /** `LoadConfig(target, developmentBuild, configType)`. */
  method LoadConfigFor(target: BuildTarget, developmentBuild: bool, configType: Option<ConfigType>, env: Environment,
    active: BuildTarget, files: map<string, XmlFile>, tools: map<string, string>) returns (r: Result<BuildConfig>)
    ensures var spec := LoadedFor(target, developmentBuild, configType, env, active, files, tools);
      (r.Success? <==> spec.Success?) &&
      (r.Failure? ==> r.error == spec.error) &&
      (r.Success? ==> r.value.Value() == spec.value)
  {
    var fromEnvironment := BuildConfig.FromEnvironment(configType, env, active);
    if fromEnvironment.Failure? {
      return Failure(fromEnvironment.error);
    }
    var config := fromEnvironment.value;
    Flag(config, target, developmentBuild);
    r := LoadConfig(config, files, tools);
  }

  /** Sets the target and raises the development flags of a development build. */
  method Flag(config: BuildConfig, target: BuildTarget, developmentBuild: bool)
    modifies config
    ensures config.Value() == Flagged(old(config.Value()), target, developmentBuild)
  {
    config.buildTarget := target;
    if developmentBuild {
      config.buildOptions := config.buildOptions + DevelopmentOptions;
    }
  }

  /** `LoadConfig(IBuildConfig config)`: the argument object itself is not changed. */
  method LoadConfig(config: BuildConfig?, files: map<string, XmlFile>, tools: map<string, string>) returns (r: Result<BuildConfig>)
    ensures config == null ==> r == Failure(ArgumentNull("config"))
    ensures config != null ==>
      var spec := Loaded(config.Value(), files, tools);
      (r.Success? <==> spec.Success?) &&
      (r.Failure? ==> r.error == spec.error) &&
      (r.Success? ==> r.value.Value() == spec.value)
  {
    if config == null {
      return Failure(ArgumentNull("config"));
    }
    var platformPath := GetConfigPath(config.buildConfigPath, config.buildConfigName, config.buildTarget);
    if platformPath.Failure? {
      return Failure(platformPath.error);
    }
    var sharedPath := GetSharedConfigPath(config.buildConfigPath, config.buildConfigName);
    var current := CombineFile(config, files, platformPath.value);
    current := CombineFile(current, files, sharedPath.value);
    r := CombineVersionInfo(current, tools);
  }

  /** One `if (File.Exists(path)) config = config.Combine(BuildConfig.FromXml(config.GetType(), path));` step. */
  method CombineFile(config: BuildConfig, files: map<string, XmlFile>, path: string) returns (r: BuildConfig)
    ensures r.Value() == FileCombined(config.Value(), files, path)
  {
    if path in files {
      var file := BuildConfig.FromXml(Some(BuildConfigType), files, path);
      assert file.Success?;
      var combined := config.Combine(file.value);
      assert combined.Success?;
      r := combined.value;
    } else {
      r := config;
    }
  }

  /** The GitVersion step of `LoadConfig`. */
  method CombineVersionInfo(config: BuildConfig, tools: map<string, string>) returns (r: Result<BuildConfig>)
    ensures var spec := VersionCombined(config.Value(), tools);
      (r.Success? <==> spec.Success?) &&
      (r.Failure? ==> r.error == spec.error) &&
      (r.Success? ==> r.value.Value() == spec.value)
  {
    if config.gitVersionPath.Some? && config.gitVersionPath.value in tools {
      var info := Parse(tools[config.gitVersionPath.value], config.buildNumber);
      if info.Failure? {
        return Failure(info.error);
      }
      var combined := config.CombineVersion(Some(AsVersionConfig(info.value)));
      assert combined.Success?;
      r := combined;
    } else {
      r := Success(config);
    }
  }
}
