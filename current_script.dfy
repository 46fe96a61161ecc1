/**
 * `BuildScript` of the newer tree: the `Settings` object with its defaults and
 * `Validate`, and `LoadConfig(settings, target, configType, config)`, which
 * folds the caller's config, the environment, the platform file, the shared
 * file and the GitVersion output.
 *
 * As in the older tree, the file system is a map from path to the config an
 * XML file holds and the GitVersion tool a map from its path to its output.
 */
module CurrentScript {
  import opened Common
  import opened DotNet
  import opened UnityEditor
  import opened Coalesce
  import opened BuildHelpers
  import opened AppVersion
  import opened CurrentConfig

  const DefaultGitVersionPath: string := "../../Tools/GitVersion/GitVersion.exe"
  const DefaultBuildPath: string := "../../Builds"
  const DefaultEnvPrefix: string := "ENV_"
  const DefaultBuildConfigPath: string := "../"
  const DefaultBuildConfigName: string := "BuildConfig"

  // ---------------------------------------------------------------- Settings

  /** The value of every property of a `Settings` object. */
  datatype SettingsValue = SettingsValue(
    gitVersionPath: Option<string>,
    buildPath: Option<string>,
    envNamePrefix: Option<string>,
    buildConfigPath: Option<string>,
    buildConfigName: Option<string>)

  /** `new Settings()`. */
  const Defaults: SettingsValue :=
    SettingsValue(Some(DefaultGitVersionPath), Some(DefaultBuildPath), Some(DefaultEnvPrefix),
      Some(DefaultBuildConfigPath), Some(DefaultBuildConfigName))

  /** Settings `LoadConfig` can use: four non-empty paths and a non-null (possibly empty) prefix. */
  predicate Valid(s: SettingsValue) {
    !IsNullOrEmpty(s.gitVersionPath) && !IsNullOrEmpty(s.buildPath) && s.envNamePrefix.Some? &&
    !IsNullOrEmpty(s.buildConfigPath) && !IsNullOrEmpty(s.buildConfigName)
  }

  /** The settings after `Validate()`. */
  function Validated(s: SettingsValue): (r: SettingsValue)
    ensures Valid(r)
  {
    SettingsValue(
      if IsNullOrEmpty(s.gitVersionPath) then Some(DefaultGitVersionPath) else s.gitVersionPath,
      if IsNullOrEmpty(s.buildPath) then Some(DefaultBuildPath) else s.buildPath,
      if s.envNamePrefix.None? then Some(DefaultEnvPrefix) else s.envNamePrefix,
      if IsNullOrEmpty(s.buildConfigPath) then Some(DefaultBuildConfigPath) else s.buildConfigPath,
      if IsNullOrEmpty(s.buildConfigName) then Some(DefaultBuildConfigName) else s.buildConfigName)
  }

  /** The defaults are valid. */
  lemma DefaultsValid()
    ensures Valid(Defaults)
    ensures Validated(Defaults) == Defaults
  {
  }

  /** `Validate` changes nothing exactly on valid settings; so it is idempotent. */
  lemma ValidatedFixesExactlyInvalid(s: SettingsValue)
    ensures Validated(s) == s <==> Valid(s)
    ensures Validated(Validated(s)) == Validated(s)
  {
  }

  /**
   * `Validate` keeps every path that is set and resets the rest to its
   * default; an empty prefix is kept and only a null one is reset.
   */
  lemma ValidatedKeepsSet(s: SettingsValue)
    ensures var r := Validated(s);
      (!IsNullOrEmpty(s.buildConfigPath) ==> r.buildConfigPath == s.buildConfigPath) &&
      (IsNullOrEmpty(s.buildConfigPath) ==> r.buildConfigPath == Defaults.buildConfigPath) &&
      (!IsNullOrEmpty(s.buildPath) ==> r.buildPath == s.buildPath) &&
      (IsNullOrEmpty(s.buildPath) ==> r.buildPath == Defaults.buildPath) &&
      (s.envNamePrefix == Some("") ==> r.envNamePrefix == Some("")) &&
      (s.envNamePrefix.None? ==> r.envNamePrefix == Defaults.envNamePrefix)
  {
  }

  /** After `Validate`, `GetBuildPath` with the settings' build folder always succeeds. */
  lemma ValidatedBuildPath(s: SettingsValue, appName: Option<string>, appVersion: Option<string>, target: BuildTarget)
    ensures GetBuildPath(appName, appVersion, Validated(s).buildPath, target).Success?
  {
  }

  /** `BuildScript.Settings`. */
  class Settings {
    var gitVersionPath: Option<string>
    var buildPath: Option<string>
    var envNamePrefix: Option<string>
    var buildConfigPath: Option<string>
    var buildConfigName: Option<string>

    function Value(): SettingsValue
      reads this
    {
      SettingsValue(gitVersionPath, buildPath, envNamePrefix, buildConfigPath, buildConfigName)
    }

    /** `new Settings()`: the five defaults. */
    constructor ()
      ensures Value() == Defaults
    {
      envNamePrefix := Some(DefaultEnvPrefix);
      buildConfigPath := Some(DefaultBuildConfigPath);
      buildConfigName := Some(DefaultBuildConfigName);
      gitVersionPath := Some(DefaultGitVersionPath);
      buildPath := Some(DefaultBuildPath);
    }

    /** `Validate()`. */
    method Validate()
      modifies this
      ensures Value() == Validated(old(Value()))
    {
      if envNamePrefix.None? {
        envNamePrefix := Some(DefaultEnvPrefix);
      }
      if IsNullOrEmpty(buildConfigPath) {
        buildConfigPath := Some(DefaultBuildConfigPath);
      }
      if IsNullOrEmpty(buildConfigName) {
        buildConfigName := Some(DefaultBuildConfigName);
      }
      if IsNullOrEmpty(gitVersionPath) {
        gitVersionPath := Some(DefaultGitVersionPath);
      }
      if IsNullOrEmpty(buildPath) {
        buildPath := Some(DefaultBuildPath);
      }
    }
  }

  // ---------------------------------------------------------------- the load fold, as written

  /** The working config after `if (config != null) config = config.Combine(envConfig);`. */
  function Started(config: Option<Config>): Option<Config> {
    if config.Some? then Some(Combined(config.value, Empty)) else None
  }

  /** After the platform step: `envConfig.Combine(platformConfig)` when the file exists. */
  function PlatformCombined(c: Option<Config>, files: map<string, Config>, path: string): Option<Config> {
    if path in files then Some(Combined(Empty, files[path])) else c
  }

  /** After the shared step: `config.Combine(sharedConfig)`, which throws on a null config. */
  function SharedCombined(c: Option<Config>, files: map<string, Config>, path: string): Result<Option<Config>> {
    if path !in files then Success(c)
    else if c.None? then Failure(NullReference)
    else Success(Some(Combined(c.value, files[path])))
  }

  /** After the GitVersion step: the output is read (build number 0) before the null config is used. */
  function VersionCombined(c: Option<Config>, tools: map<string, string>, gitVersionPath: Option<string>): Result<Option<Config>> {
    if gitVersionPath.Some? && gitVersionPath.value in tools then
      var info :- Parse(tools[gitVersionPath.value], 0);
      if c.None? then Failure(NullReference) else Success(Some(CombinedVersion(c.value, AsVersionConfig(info))))
    else
      Success(c)
  }

  /** What `LoadConfig(settings, target, configType, config)` returns (null as `None`), or the exception it throws. */
  function Loaded(settings: Option<SettingsValue>, target: BuildTarget, configType: Option<ConfigType>,
    config: Option<Config>, files: map<string, Config>, tools: map<string, string>): Result<Option<Config>>
  {
    if target == NoTarget then Failure(Argument("target"))
    else if settings.None? then Failure(ArgumentNull("settings"))
    else if configType.None? then Failure(ArgumentNull("configType"))
    else
      var s := Validated(settings.value);
      var platformPath :- GetConfigPath(s.buildConfigPath, s.buildConfigName, target);
      var sharedPath :- GetConfigPath(s.buildConfigPath, s.buildConfigName, NoTarget);
      var c :- SharedCombined(PlatformCombined(Started(config), files, platformPath), files, sharedPath);
      VersionCombined(c, tools, s.gitVersionPath)
  }

  /** The platform config path `LoadConfig` looks at. */
  function PlatformPath(s: SettingsValue, target: BuildTarget): string {
    var v := Validated(s);
    GetConfigPath(v.buildConfigPath, v.buildConfigName, target).value
  }

  /** The shared config path `LoadConfig` looks at. */
  function SharedPath(s: SettingsValue): string {
    var v := Validated(s);
    GetConfigPath(v.buildConfigPath, v.buildConfigName, NoTarget).value
  }

  /** Whether `File.Exists(settings.GitVersionPath)` after `Validate`. */
  predicate HasTool(s: SettingsValue, tools: map<string, string>) {
    Validated(s).gitVersionPath.value in tools
  }

  // ---------------------------------------------------------------- properties

  /** The arguments are checked in order: the target, then the settings, then the config type. */
  lemma LoadedArgumentChecks(settings: Option<SettingsValue>, target: BuildTarget, configType: Option<ConfigType>,
    config: Option<Config>, files: map<string, Config>, tools: map<string, string>)
    ensures var r := Loaded(settings, target, configType, config, files, tools);
      (target == NoTarget ==> r == Failure(Argument("target"))) &&
      (target != NoTarget && settings.None? ==> r == Failure(ArgumentNull("settings"))) &&
      (target != NoTarget && settings.Some? && configType.None? ==> r == Failure(ArgumentNull("configType"))) &&
      (r.Failure? ==> r.error in {Argument("target"), ArgumentNull("settings"), ArgumentNull("configType"),
        NullReference, ArgumentOutOfRange, Format, Overflow})
  {
  }

  /** With no caller config and no file or tool present, `LoadConfig` returns null. */
  lemma LoadedNothing(s: SettingsValue, target: BuildTarget, files: map<string, Config>, tools: map<string, string>)
    requires target != NoTarget
    requires PlatformPath(s, target) !in files && SharedPath(s) !in files && !HasTool(s, tools)
    ensures Loaded(Some(s), target, Some(BuildConfigType), None, files, tools) == Success(None)
  {
  }

  /**
   * Without a caller config and without the platform file, an existing shared
   * file makes `LoadConfig` dereference null.
   */
  lemma NullConfigSharedFileThrows(s: SettingsValue, target: BuildTarget, files: map<string, Config>, tools: map<string, string>)
    requires target != NoTarget
    requires PlatformPath(s, target) !in files && SharedPath(s) in files
    ensures Loaded(Some(s), target, Some(BuildConfigType), None, files, tools) == Failure(NullReference)
  {
  }

  /**
   * When the platform file exists the caller's config has no effect: any two
   * caller configs, or none, load the same result.
   */
  lemma CallerConfigDiscarded(s: SettingsValue, target: BuildTarget, config1: Option<Config>, config2: Option<Config>,
    files: map<string, Config>, tools: map<string, string>)
    requires target != NoTarget && PlatformPath(s, target) in files
    ensures Loaded(Some(s), target, Some(BuildConfigType), config1, files, tools)
      == Loaded(Some(s), target, Some(BuildConfigType), config2, files, tools)
  {
  }

  /**
   * A concrete case: the build number a caller passes (as Cloud Build's
   * `PreExport` does) is lost once a platform file exists.
   */
  lemma CallerBuildNumberLost()
    ensures var target := BuildTarget.Android;
      var files := map[PlatformPath(Defaults, target) := Empty];
      var r := Loaded(Some(Defaults), target, Some(BuildConfigType), Some(Empty.(version := NoVersion.(buildNumber := 7))), files, map[]);
      r.Success? && r.value.Some? && r.value.value.version.buildNumber == 0
  {
    var target := BuildTarget.Android;
    var platformPath := PlatformPath(Defaults, target);
    var files := map[platformPath := Empty];
    var caller := Empty.(version := NoVersion.(buildNumber := 7));
    assert platformPath != SharedPath(Defaults) by {
      ConfigPathsDistinct(DefaultBuildConfigPath, DefaultBuildConfigName, target, NoTarget);
    }
    assert !HasTool(Defaults, map[]);
    CallerConfigDiscarded(Defaults, target, Some(caller), None, files, map[]);
    LoadedPlatformOnly(Defaults, target, files, map[]);
  }

  /** With only the platform file and no tool, a load without caller config gives that file combined with nothing. */
  lemma LoadedPlatformOnly(s: SettingsValue, target: BuildTarget, files: map<string, Config>, tools: map<string, string>)
    requires target != NoTarget && PlatformPath(s, target) in files
    requires SharedPath(s) !in files && !HasTool(s, tools)
    ensures Loaded(Some(s), target, Some(BuildConfigType), None, files, tools) == Success(Some(Combined(Empty, files[PlatformPath(s, target)])))
  {
  }

  // ---------------------------------------------------------------- the load fold, as intended

  /**
   * The evident intent of `LoadConfig`: start from the caller's config combined
   * with the environment (or from the environment alone), then fold in the
   * platform file, the shared file and the GitVersion output.
   */
  function LoadedIntended(settings: Option<SettingsValue>, target: BuildTarget, configType: Option<ConfigType>,
    config: Option<Config>, files: map<string, Config>, tools: map<string, string>): Result<Config>
  {
    if target == NoTarget then Failure(Argument("target"))
    else if settings.None? then Failure(ArgumentNull("settings"))
    else if configType.None? then Failure(ArgumentNull("configType"))
    else
      var s := Validated(settings.value);
      var platformPath :- GetConfigPath(s.buildConfigPath, s.buildConfigName, target);
      var sharedPath :- GetConfigPath(s.buildConfigPath, s.buildConfigName, NoTarget);
      var start := if config.Some? then Combined(config.value, Empty) else Empty;
      var c1 := if platformPath in files then Combined(start, files[platformPath]) else start;
      var c2 := if sharedPath in files then Combined(c1, files[sharedPath]) else c1;
      if HasTool(settings.value, tools) then
        var info :- Parse(tools[s.gitVersionPath.value], 0);
        Success(CombinedVersion(c2, AsVersionConfig(info)))
      else
        Success(c2)
  }

  /**
   * The intended fold never dereferences null: once the arguments are valid
   * it fails only when the GitVersion output cannot be read.
   */
  lemma IntendedFailsOnlyOnTool(s: SettingsValue, target: BuildTarget, config: Option<Config>,
    files: map<string, Config>, tools: map<string, string>)
    requires target != NoTarget
    ensures var r := LoadedIntended(Some(s), target, Some(BuildConfigType), config, files, tools);
      r.Failure? ==> HasTool(s, tools) && r.error in {ArgumentOutOfRange, Format, Overflow}
  {
  }

  /**
   * The intended fold keeps every app setting and every positive version
   * number the caller's config sets, whatever the files hold.
   */
  lemma IntendedKeepsCaller(s: SettingsValue, target: BuildTarget, config: Config,
    files: map<string, Config>, tools: map<string, string>, setting: AppSetting)
    requires target != NoTarget
    requires LoadedIntended(Some(s), target, Some(BuildConfigType), Some(config), files, tools).Success?
    ensures var r := LoadedIntended(Some(s), target, Some(BuildConfigType), Some(config), files, tools).value;
      (!IsNullOrEmpty(AppGet(config.app, setting)) ==> AppGet(r.app, setting) == AppGet(config.app, setting)) &&
      (!IsNullOrEmpty(config.version.bundleVersion) ==> r.version.bundleVersion == config.version.bundleVersion) &&
      (config.version.buildNumber > 0 ==> r.version.buildNumber == config.version.buildNumber) &&
      (config.version.bundleVersionCode > 0 ==> r.version.bundleVersionCode == config.version.bundleVersionCode)
  {
  }

  /**
   * Where the code as written works, it agrees with the intended fold: with
   * no caller config and the platform file present, both give the same config.
   */
  lemma IntendedAgreesWithoutCaller(s: SettingsValue, target: BuildTarget, files: map<string, Config>, tools: map<string, string>)
    requires target != NoTarget && PlatformPath(s, target) in files
    ensures var written := Loaded(Some(s), target, Some(BuildConfigType), None, files, tools);
      var intended := LoadedIntended(Some(s), target, Some(BuildConfigType), None, files, tools);
      (written.Success? <==> intended.Success?) &&
      (written.Failure? ==> written.error == intended.error) &&
      (written.Success? ==> written.value == Some(intended.value))
  {
    var v := Validated(s);
    var platformPath := PlatformPath(s, target);
    var sharedPath := SharedPath(s);
    var c1 := Combined(Empty, files[platformPath]);
    var c2 := if sharedPath in files then Combined(c1, files[sharedPath]) else c1;
    assert SharedCombined(PlatformCombined(Started(None), files, platformPath), files, sharedPath) == Success(Some(c2));
    assert Loaded(Some(s), target, Some(BuildConfigType), None, files, tools) == VersionCombined(Some(c2), tools, v.gitVersionPath);
  }

  // ---------------------------------------------------------------- the method

  /** The value a possibly-null config object stands for. */
  function ValueOf(config: BuildConfig?): Option<Config>
    reads config
  {
    if config == null then None else Some(config.Value())
  }

  /** `LoadConfig(settings, target, configType, config)`: validates the settings in place; the caller's config is not changed. */
  method LoadConfig(settings: Settings?, target: BuildTarget, configType: Option<ConfigType>, config: BuildConfig?,
    files: map<string, Config>, tools: map<string, string>) returns (r: Result<BuildConfig?>)
    modifies settings
    ensures settings != null ==>
      settings.Value() == if target != NoTarget && configType.Some? then Validated(old(settings.Value())) else old(settings.Value())
    ensures var spec := Loaded(if settings == null then None else Some(old(settings.Value())), target, configType, old(ValueOf(config)), files, tools);
      (r.Success? <==> spec.Success?) &&
      (r.Failure? ==> r.error == spec.error) &&
      (r.Success? ==> ValueOf(r.value) == spec.value)
  {
    if target == NoTarget {
      return Failure(Argument("target"));
    }
    if settings == null {
      return Failure(ArgumentNull("settings"));
    }
    if configType.None? {
      return Failure(ArgumentNull("configType"));
    }
    settings.Validate();
    var envConfig := BuildConfig.FromEnvironment(configType, settings.envNamePrefix);
    var platformPath := GetConfigPath(settings.buildConfigPath, settings.buildConfigName, target);
    var sharedPath := GetConfigPath(settings.buildConfigPath, settings.buildConfigName, NoTarget);
    var current := StartStep(config, envConfig);
    current := PlatformStep(current, envConfig, configType, files, platformPath.value);
    var shared := SharedStep(current, configType, files, sharedPath.value);
    if shared.Failure? {
      return shared;
    }
    r := VersionStep(shared.value, tools, settings.gitVersionPath);
  }

  /** `if (config != null) config = config.Combine(envConfig);` */
  method StartStep(config: BuildConfig?, envConfig: BuildConfig) returns (r: BuildConfig?)
    requires envConfig.Value() == Empty
    ensures ValueOf(r) == Started(ValueOf(config))
  {
    r := config;
    if config != null {
      var combined := config.Combine(envConfig);
      assert combined.Success?;
      r := combined.value;
    }
  }

  /** `if (File.Exists(platformConfigPath)) config = envConfig.Combine(FromXml(configType, platformConfigPath));` */
  method PlatformStep(config: BuildConfig?, envConfig: BuildConfig, configType: Option<ConfigType>,
    files: map<string, Config>, path: string) returns (r: BuildConfig?)
    requires envConfig.Value() == Empty
    ensures ValueOf(r) == PlatformCombined(ValueOf(config), files, path)
  {
    r := config;
    if path in files {
      var platformConfig := BuildConfig.FromXml(configType, files, path);
      assert platformConfig.Success?;
      var combined := envConfig.Combine(platformConfig.value);
      assert combined.Success?;
      r := combined.value;
    }
  }

  /** `if (File.Exists(sharedConfigPath)) config = config.Combine(FromXml(configType, sharedConfigPath));` */
  method SharedStep(config: BuildConfig?, configType: Option<ConfigType>, files: map<string, Config>, path: string)
    returns (r: Result<BuildConfig?>)
    ensures var spec := SharedCombined(ValueOf(config), files, path);
      (r.Success? <==> spec.Success?) &&
      (r.Failure? ==> r.error == spec.error) &&
      (r.Success? ==> ValueOf(r.value) == spec.value)
  {
    if path !in files {
      return Success(config);
    }
    var sharedConfig := BuildConfig.FromXml(configType, files, path);
    assert sharedConfig.Success?;
    if config == null {
      return Failure(NullReference);
    }
    var combined := config.Combine(sharedConfig.value);
    assert combined.Success?;
    return Success(combined.value);
  }

  /** `if (File.Exists(settings.GitVersionPath)) config = config.Combine(new AppVersionInfo(settings.GitVersionPath));` */
  method VersionStep(config: BuildConfig?, tools: map<string, string>, gitVersionPath: Option<string>)
    returns (r: Result<BuildConfig?>)
    ensures var spec := VersionCombined(ValueOf(config), tools, gitVersionPath);
      (r.Success? <==> spec.Success?) &&
      (r.Failure? ==> r.error == spec.error) &&
      (r.Success? ==> ValueOf(r.value) == spec.value)
  {
    if gitVersionPath.None? || gitVersionPath.value !in tools {
      return Success(config);
    }
    var info := Parse(tools[gitVersionPath.value], 0);
    if info.Failure? {
      return Failure(info.error);
    }
    if config == null {
      return Failure(NullReference);
    }
    var combined := config.CombineVersion(Some(AsVersionConfig(info.value)));
    assert combined.Success?;
    return Success(combined.value);
  }
}
