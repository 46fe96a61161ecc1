/**
 * `BuildConfig` of the older tree (`UnityFx.BuildTools.Editor`): a config
 * carries the build target and options, tool and output paths, the Android
 * keystore, scenes, defines and the app and version settings. It is loaded
 * from environment variables or from an XML file, and combined with fallback
 * configs into fresh objects.
 */
module LegacyConfig {
  import opened Common
  import opened DotNet
  import opened UnityEditor
  import opened Coalesce
  import opened BuildHelpers

  const DefaultGitVersionPath: string := "../../Tools/GitVersion/GitVersion.exe"
  const DefaultBuildPath: string := "../../Builds"
  const DefaultBuildConfigPath: string := ""
  const DefaultBuildConfigName: string := "BuildConfig"

  /** The value of every property of a config object. */
  datatype Config = Config(
    buildTarget: BuildTarget,
    buildOptions: BuildOptions,
    gitVersionPath: Option<string>,
    buildPath: Option<string>,
    buildConfigPath: Option<string>,
    buildConfigName: Option<string>,
    keystoreName: Option<string>,
    keystorePass: Option<string>,
    keyaliasName: Option<string>,
    keyaliasPass: Option<string>,
    defines: Option<seq<string>>,
    scenes: Option<seq<string>>,
    app: AppFields,
    version: VersionFields)

  /** A freshly constructed config: everything null, zero or the first enum member. */
  const Empty: Config :=
    Config(NoTarget, NoOptions, None, None, None, None, None, None, None, None, None, None, NoApp, NoVersion)

  /** What an XML config file holds: the properties not marked `[XmlIgnore]`. */
  datatype XmlFile = XmlFile(
    defines: Option<seq<string>>,
    scenes: Option<seq<string>>,
    app: AppFields,
    version: VersionFields)

  /** The config `FromXml` deserializes from a file; ignored properties keep their defaults. */
  function Deserialized(file: XmlFile): (c: Config)
    ensures c.(defines := None, scenes := None, app := NoApp, version := NoVersion) == Empty
    ensures XmlFile(c.defines, c.scenes, c.app, c.version) == file
  {
    Empty.(defines := file.defines, scenes := file.scenes, app := file.app, version := file.version)
  }

  // ---------------------------------------------------------------- environment

  /** The environment variables `LoadFromEnvironment` reads, named as in the process environment. */
  datatype Variable =
    | GITVERSION_PATH
    | BUILD_PATH
    | BUILD_URL
    | BUILD_CONFIG_PATH
    | BUILD_CONFIG_NAME
    | KEYSTORE_NAME
    | KEYSTORE_PASS
    | KEYALIAS_NAME
    | KEYALIAS_PASS
    | BUILD_TARGET
    | DEVELOPMENT_BUILD
    | BUNDLE_VERSION
    | BUNDLE_VERSION_CODE
    | BUILD_NUMBER

  /** The process environment: the value of each defined variable. */
  type Environment = map<Variable, string>

  /** `Environment.GetEnvironmentVariable(name)`: null when the variable is not defined. */
  function Env(env: Environment, name: Variable): Option<string> {
    if name in env then Some(env[name]) else None
  }

  /** The `BuildTarget` after `LoadFromEnvironment`: the active target unless BUILD_TARGET names one. */
  function TargetFromEnvironment(env: Environment, active: BuildTarget): Result<BuildTarget> {
    var target := Env(env, BUILD_TARGET);
    if IsNullOrEmpty(target) then Success(active) else ParseBuildTarget(target.value)
  }

  /** An integer property after `if (!string.IsNullOrEmpty(s)) F = int.Parse(s);`. */
  function IntFromEnvironment(value: Option<string>, current: int): Result<int> {
    if IsNullOrEmpty(value) then Success(current) else ParseInt(value.value)
  }

  /** The tool and output paths `LoadFromEnvironment` sets first, each with its default. */
  function ToolPathsLoaded(c: Config, env: Environment): Config {
    c.(
      gitVersionPath := GetValue(Env(env, GITVERSION_PATH), None, Some(DefaultGitVersionPath)),
      buildPath := GetValue(Env(env, BUILD_PATH), Env(env, BUILD_URL), Some(DefaultBuildPath)))
  }

  /** Where the config files are looked for, each with its default. */
  function ConfigLocationLoaded(c: Config, env: Environment): Config {
    c.(
      buildConfigPath := GetValue(Env(env, BUILD_CONFIG_PATH), None, Some(DefaultBuildConfigPath)),
      buildConfigName := GetValue(Env(env, BUILD_CONFIG_NAME), None, Some(DefaultBuildConfigName)))
  }

  /** The Android keystore settings, taken as they are (null when undefined). */
  function KeystoreLoaded(c: Config, env: Environment): Config {
    c.(
      keystoreName := Env(env, KEYSTORE_NAME),
      keystorePass := Env(env, KEYSTORE_PASS),
      keyaliasName := Env(env, KEYALIAS_NAME),
      keyaliasPass := Env(env, KEYALIAS_PASS))
  }

  /** The target: the active one unless BUILD_TARGET names one. */
  function TargetLoaded(c: Config, env: Environment, active: BuildTarget): Result<Config> {
    var target :- TargetFromEnvironment(env, active);
    Success(c.(buildTarget := target))
  }

  /** Any non-empty DEVELOPMENT_BUILD asks for a development build with debugging. */
  function OptionsLoaded(c: Config, env: Environment): Config {
    c.(buildOptions := if IsNullOrEmpty(Env(env, DEVELOPMENT_BUILD)) then c.buildOptions else DevelopmentOptions)
  }

  /** The version settings: the bundle version as it is, the two numbers parsed when set. */
  function VersionLoaded(c: Config, env: Environment): Result<Config> {
    var code :- IntFromEnvironment(Env(env, BUNDLE_VERSION_CODE), c.version.bundleVersionCode);
    var number :- IntFromEnvironment(Env(env, BUILD_NUMBER), c.version.buildNumber);
    Success(c.(version := VersionFields(Env(env, BUNDLE_VERSION), code, number)))
  }

  /** The config after `LoadFromEnvironment` on `c`, or the exception it throws. */
  function EnvironmentLoaded(c: Config, env: Environment, active: BuildTarget): Result<Config> {
    var t :- TargetLoaded(KeystoreLoaded(ConfigLocationLoaded(ToolPathsLoaded(c, env), env), env), env, active);
    VersionLoaded(OptionsLoaded(t, env), env)
  }

  /**
   * Loading from the environment fails exactly when BUILD_TARGET, BUNDLE_VERSION_CODE or
   * BUILD_NUMBER is set to text that does not parse, and reports the first of them.
   */
  lemma EnvironmentLoadedFails(c: Config, env: Environment, active: BuildTarget)
    ensures var target := Env(env, BUILD_TARGET);
      var code := Env(env, BUNDLE_VERSION_CODE);
      var number := Env(env, BUILD_NUMBER);
      var r := EnvironmentLoaded(c, env, active);
      (r.Failure? <==>
        (!IsNullOrEmpty(target) && ParseBuildTarget(target.value).Failure?) ||
        (!IsNullOrEmpty(code) && ParseInt(code.value).Failure?) ||
        (!IsNullOrEmpty(number) && ParseInt(number.value).Failure?)) &&
      (!IsNullOrEmpty(target) && ParseBuildTarget(target.value).Failure? ==> r == Failure(Argument("value")))
  {
  }

  /**
   * After a successful load the tool, output and config-name paths are non-empty, the
   * config folder is non-null, the target is the active one or the one named, and the
   * defines, scenes and app settings are those the config had before.
   */
  lemma EnvironmentLoadedValues(c: Config, env: Environment, active: BuildTarget)
    requires EnvironmentLoaded(c, env, active).Success?
    ensures var r := EnvironmentLoaded(c, env, active).value;
      !IsNullOrEmpty(r.gitVersionPath) && !IsNullOrEmpty(r.buildPath) && !IsNullOrEmpty(r.buildConfigName) &&
      r.buildConfigPath.Some? &&
      (IsNullOrEmpty(Env(env, BUILD_TARGET)) ==> r.buildTarget == active) &&
      (!IsNullOrEmpty(Env(env, BUILD_TARGET)) ==> TargetName(r.buildTarget) == Env(env, BUILD_TARGET).value) &&
      (r.buildOptions == c.buildOptions || r.buildOptions == DevelopmentOptions) &&
      r.defines == c.defines && r.scenes == c.scenes && r.app == c.app
  {
    var r := EnvironmentLoaded(c, env, active).value;
    assert r.gitVersionPath == Some(DefaultGitVersionPath) || !IsNullOrEmpty(r.gitVersionPath);
    assert r.buildConfigName == Some(DefaultBuildConfigName) || !IsNullOrEmpty(r.buildConfigName);
  }

  /**
   * Each path takes its variable when that is non-empty and its default
   * otherwise; the build folder tries BUILD_PATH, then Jenkins' BUILD_URL.
   */
  lemma EnvironmentPathDefaults(c: Config, env: Environment, active: BuildTarget)
    requires EnvironmentLoaded(c, env, active).Success?
    ensures var r := EnvironmentLoaded(c, env, active).value;
      (!IsNullOrEmpty(Env(env, BUILD_PATH)) ==> r.buildPath == Env(env, BUILD_PATH)) &&
      (IsNullOrEmpty(Env(env, BUILD_PATH)) && !IsNullOrEmpty(Env(env, BUILD_URL)) ==> r.buildPath == Env(env, BUILD_URL)) &&
      (IsNullOrEmpty(Env(env, BUILD_PATH)) && IsNullOrEmpty(Env(env, BUILD_URL)) ==> r.buildPath == Some(DefaultBuildPath)) &&
      (!IsNullOrEmpty(Env(env, GITVERSION_PATH)) ==> r.gitVersionPath == Env(env, GITVERSION_PATH)) &&
      (IsNullOrEmpty(Env(env, GITVERSION_PATH)) ==> r.gitVersionPath == Some(DefaultGitVersionPath)) &&
      (!IsNullOrEmpty(Env(env, BUILD_CONFIG_PATH)) ==> r.buildConfigPath == Env(env, BUILD_CONFIG_PATH)) &&
      (IsNullOrEmpty(Env(env, BUILD_CONFIG_PATH)) ==> r.buildConfigPath == Some(DefaultBuildConfigPath)) &&
      (!IsNullOrEmpty(Env(env, BUILD_CONFIG_NAME)) ==> r.buildConfigName == Env(env, BUILD_CONFIG_NAME)) &&
      (IsNullOrEmpty(Env(env, BUILD_CONFIG_NAME)) ==> r.buildConfigName == Some(DefaultBuildConfigName))
  {
  }

  /** A defined integer variable replaces the property when it is a valid Int32 literal. */
  lemma EnvironmentNumbersParse(c: Config, env: Environment, active: BuildTarget, n: int)
    requires IsInt32(n) && TargetFromEnvironment(env, active).Success?
    requires Env(env, BUNDLE_VERSION_CODE) == Some(IntToString(n))
    requires IsNullOrEmpty(Env(env, BUILD_NUMBER))
    ensures EnvironmentLoaded(c, env, active).Success?
    ensures EnvironmentLoaded(c, env, active).value.version == VersionFields(Env(env, BUNDLE_VERSION), n, c.version.buildNumber)
  {
    ParseIntToString(n);
    assert IntToString(n) != "";
  }

  // ---------------------------------------------------------------- combination

  /** The config `Combine(fallbackConfig)` returns. */
  function Combined(c: Config, fallback: Config): Config {
    c.(
      scenes := if c.scenes.None? then fallback.scenes else c.scenes,
      defines := Some(UnionDefines(c.defines, fallback.defines)),
      app := MergeApp(c.app, fallback.app),
      version := MergeVersion(c.version, fallback.version))
  }

  /** The config `Combine(IVersionConfig)` returns. */
  function CombinedVersion(c: Config, fallback: VersionFields): Config {
    c.(version := MergeVersion(c.version, fallback))
  }

  /** The config `Combine(IAppConfig)` returns. */
  function CombinedApp(c: Config, fallback: AppFields): Config {
    c.(app := MergeApp(c.app, fallback))
  }

  /**
   * Combining never touches the target, options, paths or keystore of the
   * receiver, keeps its scenes array when it has one (even an empty one),
   * and always produces a duplicate-free defines array holding both sides' defines.
   */
  lemma CombinedFields(c: Config, fallback: Config)
    ensures var r := Combined(c, fallback);
      r.(scenes := c.scenes, defines := c.defines, app := c.app, version := c.version) == c &&
      (c.scenes.Some? ==> r.scenes == c.scenes) &&
      (c.scenes.None? ==> r.scenes == fallback.scenes) &&
      r.defines.Some? && NoDuplicates(r.defines.value) &&
      (forall d :: d in r.defines.value <==> d in Items(c.defines) || d in Items(fallback.defines))
  {
  }

  /** Every set app or version setting of the receiver survives; only unset ones are filled. */
  lemma CombinedKeepsSet(c: Config, fallback: Config)
    ensures var r := Combined(c, fallback);
      (!IsNullOrEmpty(c.app.productId) ==> r.app.productId == c.app.productId) &&
      (IsNullOrEmpty(c.app.productId) ==> r.app.productId == fallback.app.productId) &&
      (!IsNullOrEmpty(c.version.bundleVersion) ==> r.version.bundleVersion == c.version.bundleVersion) &&
      (c.version.bundleVersionCode > 0 ==> r.version.bundleVersionCode == c.version.bundleVersionCode) &&
      (c.version.buildNumber > 0 ==> r.version.buildNumber == c.version.buildNumber) &&
      (c.version.buildNumber <= 0 ==> r.version.buildNumber == fallback.version.buildNumber)
  {
  }

  /** Combining with the same fallback a second time changes nothing. */
  lemma CombinedIdempotent(c: Config, fallback: Config)
    ensures Combined(Combined(c, fallback), fallback) == Combined(c, fallback)
  {
    UnionDefinesIdempotent(c.defines, fallback.defines);
    MergeAppIdempotent(c.app, fallback.app);
    MergeVersionIdempotent(c.version, fallback.version);
  }

  /** Combining the version fields alone is the version part of a full combine. */
  lemma CombinedVersionIsPart(c: Config, fallback: Config)
    ensures CombinedVersion(c, fallback.version).version == Combined(c, fallback).version
    ensures CombinedApp(c, fallback.app).app == Combined(c, fallback).app
    ensures CombinedVersion(c, fallback.version).(version := c.version) == c
  {
  }

  // ---------------------------------------------------------------- the class

  /** `UnityFx.BuildTools.BuildConfig`. */
  class BuildConfig {
    var buildTarget: BuildTarget
    var buildOptions: BuildOptions
    var gitVersionPath: Option<string>
    var buildPath: Option<string>
    var buildConfigPath: Option<string>
    var buildConfigName: Option<string>
    var keystoreName: Option<string>
    var keystorePass: Option<string>
    var keyaliasName: Option<string>
    var keyaliasPass: Option<string>
    var defines: Option<seq<string>>
    var scenes: Option<seq<string>>
    var productId: Option<string>
    var productName: Option<string>
    var companyId: Option<string>
    var companyName: Option<string>
    var bundleIdentifier: Option<string>
    var bundleVersion: Option<string>
    var bundleVersionCode: int
    var buildNumber: int

    /** The object seen through `IAppConfig`. */
    function App(): AppFields
      reads this
    {
      AppFields(productId, productName, companyId, companyName, bundleIdentifier)
    }

    /** The object seen through `IVersionConfig`. */
    function Version(): VersionFields
      reads this
    {
      VersionFields(bundleVersion, bundleVersionCode, buildNumber)
    }

    function Value(): Config
      reads this
    {
      Config(buildTarget, buildOptions, gitVersionPath, buildPath, buildConfigPath, buildConfigName,
        keystoreName, keystorePass, keyaliasName, keyaliasPass, defines, scenes, App(), Version())
    }

    /** `new BuildConfig()`. */
    constructor ()
      ensures Value() == Empty
    {
      buildTarget := NoTarget;
      buildOptions := NoOptions;
      gitVersionPath := None;
      buildPath := None;
      buildConfigPath := None;
      buildConfigName := None;
      keystoreName := None;
      keystorePass := None;
      keyaliasName := None;
      keyaliasPass := None;
      defines := None;
      scenes := None;
      productId := None;
      productName := None;
      companyId := None;
      companyName := None;
      bundleIdentifier := None;
      bundleVersion := None;
      bundleVersionCode := 0;
      buildNumber := 0;
    }

    /** An object holding `c`; stands for `MemberwiseClone` and the XML deserializer. */
    constructor Of(c: Config)
      ensures Value() == c
    {
      buildTarget := c.buildTarget;
      buildOptions := c.buildOptions;
      gitVersionPath := c.gitVersionPath;
      buildPath := c.buildPath;
      buildConfigPath := c.buildConfigPath;
      buildConfigName := c.buildConfigName;
      keystoreName := c.keystoreName;
      keystorePass := c.keystorePass;
      keyaliasName := c.keyaliasName;
      keyaliasPass := c.keyaliasPass;
      defines := c.defines;
      scenes := c.scenes;
      productId := c.app.productId;
      productName := c.app.productName;
      companyId := c.app.companyId;
      companyName := c.app.companyName;
      bundleIdentifier := c.app.bundleIdentifier;
      bundleVersion := c.version.bundleVersion;
      bundleVersionCode := c.version.bundleVersionCode;
      buildNumber := c.version.buildNumber;
    }

    /** `FromXml(configType, path)` over a file system given as the documents at each path. */
    static method FromXml(configType: Option<ConfigType>, files: map<string, XmlFile>, path: string)
      returns (r: Result<BuildConfig>)
      ensures configType.None? ==> r == Failure(ArgumentNull("configType"))
      ensures configType.Some? && path !in files ==> r == Failure(FileNotFound(path))
      ensures configType.Some? && path in files ==>
        r.Success? && fresh(r.value) && r.value.Value() == Deserialized(files[path])
    {
      if configType.None? {
        return Failure(ArgumentNull("configType"));
      }
      if path !in files {
        return Failure(FileNotFound(path));
      }
      var config := new BuildConfig.Of(Deserialized(files[path]));
      return Success(config);
    }

    /** `FromEnvironment(configType)`: a new config loaded from the environment. */
    static method FromEnvironment(configType: Option<ConfigType>, env: Environment, active: BuildTarget)
      returns (r: Result<BuildConfig>)
      ensures configType.None? ==> r == Failure(ArgumentNull("configType"))
      ensures configType.Some? ==> (r.Success? <==> EnvironmentLoaded(Empty, env, active).Success?)
      ensures configType.Some? && r.Failure? ==> r.error == EnvironmentLoaded(Empty, env, active).error
      ensures r.Success? ==> fresh(r.value) && r.value.Value() == EnvironmentLoaded(Empty, env, active).value
    {
      if configType.None? {
        return Failure(ArgumentNull("configType"));
      }
      var config := new BuildConfig();
      var outcome := config.LoadFromEnvironment(env, active);
      if outcome.Fail? {
        return Failure(outcome.error);
      }
      return Success(config);
    }

    /**
     * `LoadFromEnvironment()`, with the environment and
     * `EditorUserBuildSettings.activeBuildTarget` as parameters.
     */
    method LoadFromEnvironment(env: Environment, active: BuildTarget) returns (outcome: Outcome)
      modifies this
      ensures var spec := EnvironmentLoaded(old(Value()), env, active);
        (outcome.Pass? <==> spec.Success?) &&
        (spec.Success? ==> Value() == spec.value) &&
        (spec.Failure? ==> outcome == Fail(spec.error))
    {
      LoadToolPaths(env);
      LoadConfigLocation(env);
      LoadKeystore(env);
      outcome := LoadTarget(env, active);
      if outcome.Fail? {
        return;
      }
      LoadOptions(env);
      outcome := LoadVersion(env);
    }

    /** The GitVersion and build paths. */
    method LoadToolPaths(env: Environment)
      modifies this
      ensures Value() == ToolPathsLoaded(old(Value()), env)
    {
      gitVersionPath := Env(env, GITVERSION_PATH);
      if IsNullOrEmpty(gitVersionPath) {
        gitVersionPath := Some(DefaultGitVersionPath);
      }
      buildPath := Env(env, BUILD_PATH);
      if IsNullOrEmpty(buildPath) {
        buildPath := Env(env, BUILD_URL);
        if IsNullOrEmpty(buildPath) {
          buildPath := Some(DefaultBuildPath);
        }
      }
    }

    /** The config folder and name. */
    method LoadConfigLocation(env: Environment)
      modifies this
      ensures Value() == ConfigLocationLoaded(old(Value()), env)
    {
      buildConfigPath := Env(env, BUILD_CONFIG_PATH);
      if IsNullOrEmpty(buildConfigPath) {
        buildConfigPath := Some(DefaultBuildConfigPath);
      }
      buildConfigName := Env(env, BUILD_CONFIG_NAME);
      if IsNullOrEmpty(buildConfigName) {
        buildConfigName := Some(DefaultBuildConfigName);
      }
    }

    /** The Android keystore part of `LoadFromEnvironment`. */
    method LoadKeystore(env: Environment)
      modifies this
      ensures Value() == KeystoreLoaded(old(Value()), env)
    {
      keystoreName := Env(env, KEYSTORE_NAME);
      keystorePass := Env(env, KEYSTORE_PASS);
      keyaliasName := Env(env, KEYALIAS_NAME);
      keyaliasPass := Env(env, KEYALIAS_PASS);
    }

    /** The build target. */
    method LoadTarget(env: Environment, active: BuildTarget) returns (outcome: Outcome)
      modifies this
      ensures var spec := TargetLoaded(old(Value()), env, active);
        (spec.Success? ==> outcome == Pass && Value() == spec.value) &&
        (spec.Failure? ==> outcome == Fail(spec.error))
    {
      var target := Env(env, BUILD_TARGET);
      if IsNullOrEmpty(target) {
        buildTarget := active;
      } else {
        var parsed := ParseBuildTarget(target.value);
        if parsed.Failure? {
          return Fail(parsed.error);
        }
        buildTarget := parsed.value;
      }
      return Pass;
    }

    /** The build options. */
    method LoadOptions(env: Environment)
      modifies this
      ensures Value() == OptionsLoaded(old(Value()), env)
    {
      var options := Env(env, DEVELOPMENT_BUILD);
      if !IsNullOrEmpty(options) {
        buildOptions := DevelopmentOptions;
      }
    }

    /** The version part of `LoadFromEnvironment`. */
    method LoadVersion(env: Environment) returns (outcome: Outcome)
      modifies this
      ensures var spec := VersionLoaded(old(Value()), env);
        (spec.Success? ==> outcome == Pass && Value() == spec.value) &&
        (spec.Failure? ==> outcome == Fail(spec.error))
    {
      bundleVersion := Env(env, BUNDLE_VERSION);
      var code := ParseSetting(Env(env, BUNDLE_VERSION_CODE), bundleVersionCode);
      if code.Failure? {
        return Fail(code.error);
      }
      bundleVersionCode := code.value;
      var number := ParseSetting(Env(env, BUILD_NUMBER), buildNumber);
      if number.Failure? {
        return Fail(number.error);
      }
      buildNumber := number.value;
      return Pass;
    }

    /** `if (!string.IsNullOrEmpty(s)) F = int.Parse(s);` for a property whose value is `current`. */
    static method ParseSetting(value: Option<string>, current: int) returns (r: Result<int>)
      ensures r == IntFromEnvironment(value, current)
    {
      r := Success(current);
      if !IsNullOrEmpty(value) {
        r := ParseInt(value.value);
      }
    }

    /** The protected `Combine(fallbackConfig, result)`: fills the clone `result`. */
    method CombineInto(fallback: BuildConfig, result: BuildConfig)
      requires result != this && result != fallback
      requires result.Value() == Value()
      modifies result
      ensures result.Value() == Combined(Value(), fallback.Value())
    {
      if scenes.None? {
        result.scenes := fallback.scenes;
      }
      var union: seq<string> := [];
      if defines.Some? {
        union := UnionWith(union, defines.value);
      }
      if fallback.defines.Some? {
        union := UnionWith(union, fallback.defines.value);
      }
      result.defines := Some(union);
      CombineAppConfig(fallback.App(), result);
      CombineVersionConfig(fallback.Version(), result);
    }

    /** `CombineVersionConfig(fallbackConfig, result)`. */
    static method CombineVersionConfig(fallback: VersionFields, result: BuildConfig)
      modifies result
      ensures result.Value() == CombinedVersion(old(result.Value()), fallback)
    {
      if IsNullOrEmpty(result.bundleVersion) {
        result.bundleVersion := fallback.bundleVersion;
      }
      if result.bundleVersionCode <= 0 {
        result.bundleVersionCode := fallback.bundleVersionCode;
      }
      if result.buildNumber <= 0 {
        result.buildNumber := fallback.buildNumber;
      }
    }

    /** `CombineAppConfig(fallbackConfig, result)`. */
    static method CombineAppConfig(fallback: AppFields, result: BuildConfig)
      modifies result
      ensures result.Value() == CombinedApp(old(result.Value()), fallback)
    {
      if IsNullOrEmpty(result.companyId) {
        result.companyId := fallback.companyId;
      }
      if IsNullOrEmpty(result.companyName) {
        result.companyName := fallback.companyName;
      }
      if IsNullOrEmpty(result.productId) {
        result.productId := fallback.productId;
      }
      if IsNullOrEmpty(result.productName) {
        result.productName := fallback.productName;
      }
      if IsNullOrEmpty(result.bundleIdentifier) {
        result.bundleIdentifier := fallback.bundleIdentifier;
      }
    }

    /** `Combine(IBuildConfig fallbackConfig)`: a combined clone; the receiver is not changed. */
    method Combine(fallback: BuildConfig?) returns (r: Result<BuildConfig>)
      ensures fallback == null ==> r == Failure(ArgumentNull("fallbackConfig"))
      ensures fallback != null ==> r.Success? && fresh(r.value) && r.value.Value() == Combined(Value(), fallback.Value())
    {
      if fallback == null {
        return Failure(ArgumentNull("fallbackConfig"));
      }
      var result := new BuildConfig.Of(Value());
      CombineInto(fallback, result);
      return Success(result);
    }

    /** `Combine(IVersionConfig fallbackConfig)`. */
    method CombineVersion(fallback: Option<VersionFields>) returns (r: Result<BuildConfig>)
      ensures fallback.None? ==> r == Failure(ArgumentNull("fallbackConfig"))
      ensures fallback.Some? ==> r.Success? && fresh(r.value) && r.value.Value() == CombinedVersion(Value(), fallback.value)
    {
      if fallback.None? {
        return Failure(ArgumentNull("fallbackConfig"));
      }
      var result := new BuildConfig.Of(Value());
      CombineVersionConfig(fallback.value, result);
      return Success(result);
    }

    /** `Combine(IAppConfig fallbackConfig)`. */
    method CombineApp(fallback: Option<AppFields>) returns (r: Result<BuildConfig>)
      ensures fallback.None? ==> r == Failure(ArgumentNull("fallbackConfig"))
      ensures fallback.Some? ==> r.Success? && fresh(r.value) && r.value.Value() == CombinedApp(Value(), fallback.value)
    {
      if fallback.None? {
        return Failure(ArgumentNull("fallbackConfig"));
      }
      var result := new BuildConfig.Of(Value());
      CombineAppConfig(fallback.value, result);
      return Success(result);
    }
  }
}
