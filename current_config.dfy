/**
 * `BuildConfig` of the newer tree (`UnityFx.BuildTools`): a config is reduced
 * to scripting defines and the app and version settings. Loading from the
 * environment is a stub that yields an empty config; combining works as in
 * the older tree, without scenes.
 */
module CurrentConfig {
  import opened Common
  import opened DotNet
  import opened Coalesce

  /** The value of every property of a config object. */
  datatype Config = Config(
    defines: Option<seq<string>>,
    app: AppFields,
    version: VersionFields)

  /** `new BuildConfig()`. */
  const Empty: Config := Config(None, NoApp, NoVersion)

  /** The config `Combine(fallbackConfig)` returns. */
  function Combined(c: Config, fallback: Config): Config {
    Config(Some(UnionDefines(c.defines, fallback.defines)), MergeApp(c.app, fallback.app), MergeVersion(c.version, fallback.version))
  }

  /** The config `Combine(IVersionConfig)` returns. */
  function CombinedVersion(c: Config, fallback: VersionFields): Config {
    c.(version := MergeVersion(c.version, fallback))
  }

  /** The config `Combine(IAppConfig)` returns. */
  function CombinedApp(c: Config, fallback: AppFields): Config {
    c.(app := MergeApp(c.app, fallback))
  }

  /** A config as merging produces it: normal settings and a duplicate-free defines array. */
  predicate Normalized(c: Config) {
    c.defines.Some? && NoDuplicates(c.defines.value) && NormalApp(c.app) && NormalVersion(c.version)
  }

  /** Every combined config is normalized once its fallback's settings are. */
  lemma CombinedNormalized(c: Config, fallback: Config)
    requires NormalApp(fallback.app) && NormalVersion(fallback.version)
    ensures Normalized(Combined(c, fallback))
  {
    MergeNormal(c.app, fallback.app, c.version, fallback.version);
  }

  /** An empty fallback changes nothing in a normalized config. */
  lemma CombinedWithEmpty(c: Config)
    requires Normalized(c)
    ensures Combined(c, Empty) == c
  {
    UnionDefinesKeeps(c.defines.value, None);
    MergeNormal(c.app, NoApp, c.version, NoVersion);
  }

  /** An empty receiver takes every setting of the fallback. */
  lemma EmptyCombined(fallback: Config)
    ensures Combined(Empty, fallback) == fallback.(defines := Some(UnionDefines(None, fallback.defines)))
  {
  }

  /** Combining with the same fallback a second time changes nothing. */
  lemma CombinedIdempotent(c: Config, fallback: Config)
    ensures Combined(Combined(c, fallback), fallback) == Combined(c, fallback)
  {
    UnionDefinesIdempotent(c.defines, fallback.defines);
  }

  /** `UnityFx.BuildTools.Editor.BuildConfig`. */
  class BuildConfig {
    var defines: Option<seq<string>>
    var productId: Option<string>
    var productName: Option<string>
    var companyId: Option<string>
    var companyName: Option<string>
    var bundleIdentifier: Option<string>
    var bundleVersion: Option<string>
    var bundleVersionCode: int
    var buildNumber: int

    /** The object seen through `IAppConfig`. */
    function App(): AppFields
      reads this
    {
      AppFields(productId, productName, companyId, companyName, bundleIdentifier)
    }

    /** The object seen through `IVersionConfig`. */
    function Version(): VersionFields
      reads this
    {
      VersionFields(bundleVersion, bundleVersionCode, buildNumber)
    }

    function Value(): Config
      reads this
    {
      Config(defines, App(), Version())
    }

    /** `new BuildConfig()`. */
    constructor ()
      ensures Value() == Empty
    {
      defines := None;
      productId := None;
      productName := None;
      companyId := None;
      companyName := None;
      bundleIdentifier := None;
      bundleVersion := None;
      bundleVersionCode := 0;
      buildNumber := 0;
    }

    /** An object holding `c`; stands for `MemberwiseClone` and the XML deserializer. */
    constructor Of(c: Config)
      ensures Value() == c
    {
      defines := c.defines;
      productId := c.app.productId;
      productName := c.app.productName;
      companyId := c.app.companyId;
      companyName := c.app.companyName;
      bundleIdentifier := c.app.bundleIdentifier;
      bundleVersion := c.version.bundleVersion;
      bundleVersionCode := c.version.bundleVersionCode;
      buildNumber := c.version.buildNumber;
    }

    /**
     * `FromXml(configType, path)` over a file system given as the document at
     * each path; a null type means `BuildConfig` itself.
     */
    static method FromXml(configType: Option<ConfigType>, files: map<string, Config>, path: string)
      returns (r: Result<BuildConfig>)
      ensures path !in files ==> r == Failure(FileNotFound(path))
      ensures path in files ==> r.Success? && fresh(r.value) && r.value.Value() == files[path]
    {
      if path !in files {
        return Failure(FileNotFound(path));
      }
      var config := new BuildConfig.Of(files[path]);
      return Success(config);
    }

    /** `FromEnvironment(configType, namePrefix)`: reads nothing yet and returns an empty config. */
    static method FromEnvironment(configType: Option<ConfigType>, namePrefix: Option<string>)
      returns (r: BuildConfig)
      ensures fresh(r) && r.Value() == Empty
    {
      r := new BuildConfig();
    }

    /** The protected `Combine(fallbackConfig, result)`: fills the clone `result`. */
    method CombineInto(fallback: BuildConfig, result: BuildConfig)
      requires result != this && result != fallback
      requires result.Value() == Value()
      modifies result
      ensures result.Value() == Combined(Value(), fallback.Value())
    {
      var union: seq<string> := [];
      if defines.Some? {
        union := UnionWith(union, defines.value);
      }
      if fallback.defines.Some? {
        union := UnionWith(union, fallback.defines.value);
      }
      result.defines := Some(union);
      CombineAppConfig(fallback.App(), result);
      CombineVersionConfig(fallback.Version(), result);
    }

    /** `CombineVersionConfig(fallbackConfig, result)`. */
    method CombineVersionConfig(fallback: VersionFields, result: BuildConfig)
      modifies result
      ensures result.Value() == CombinedVersion(old(result.Value()), fallback)
    {
      if IsNullOrEmpty(result.bundleVersion) {
        result.bundleVersion := fallback.bundleVersion;
      }
      if result.bundleVersionCode <= 0 {
        result.bundleVersionCode := fallback.bundleVersionCode;
      }
      if result.buildNumber <= 0 {
        result.buildNumber := fallback.buildNumber;
      }
    }

    /** `CombineAppConfig(fallbackConfig, result)`. */
    method CombineAppConfig(fallback: AppFields, result: BuildConfig)
      modifies result
      ensures result.Value() == CombinedApp(old(result.Value()), fallback)
    {
      if IsNullOrEmpty(result.companyId) {
        result.companyId := fallback.companyId;
      }
      if IsNullOrEmpty(result.companyName) {
        result.companyName := fallback.companyName;
      }
      if IsNullOrEmpty(result.productId) {
        result.productId := fallback.productId;
      }
      if IsNullOrEmpty(result.productName) {
        result.productName := fallback.productName;
      }
      if IsNullOrEmpty(result.bundleIdentifier) {
        result.bundleIdentifier := fallback.bundleIdentifier;
      }
    }

    /** `Combine(IBuildConfig fallbackConfig)`: a combined clone; the receiver is not changed. */
    method Combine(fallback: BuildConfig?) returns (r: Result<BuildConfig>)
      ensures fallback == null ==> r == Failure(ArgumentNull("fallbackConfig"))
      ensures fallback != null ==> r.Success? && fresh(r.value) && r.value.Value() == Combined(Value(), fallback.Value())
    {
      if fallback == null {
        return Failure(ArgumentNull("fallbackConfig"));
      }
      var result := new BuildConfig.Of(Value());
      CombineInto(fallback, result);
      return Success(result);
    }

    /** `Combine(IVersionConfig fallbackConfig)`. */
    method CombineVersion(fallback: Option<VersionFields>) returns (r: Result<BuildConfig>)
      ensures fallback.None? ==> r == Failure(ArgumentNull("fallbackConfig"))
      ensures fallback.Some? ==> r.Success? && fresh(r.value) && r.value.Value() == CombinedVersion(Value(), fallback.value)
    {
      if fallback.None? {
        return Failure(ArgumentNull("fallbackConfig"));
      }
      var result := new BuildConfig.Of(Value());
      CombineVersionConfig(fallback.value, result);
      return Success(result);
    }

    /** `Combine(IAppConfig fallbackConfig)`. */
    method CombineApp(fallback: Option<AppFields>) returns (r: Result<BuildConfig>)
      ensures fallback.None? ==> r == Failure(ArgumentNull("fallbackConfig"))
      ensures fallback.Some? ==> r.Success? && fresh(r.value) && r.value.Value() == CombinedApp(Value(), fallback.value)
    {
      if fallback.None? {
        return Failure(ArgumentNull("fallbackConfig"));
      }
      var result := new BuildConfig.Of(Value());
      CombineAppConfig(fallback.value, result);
      return Success(result);
    }
  }
}
