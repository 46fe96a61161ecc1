/**
 * Helpers both trees' `BuildScript` and `BuildUtility` define identically:
 * target-group mapping, bundle identifier, config file paths, executable
 * name, build folder and build options.
 */
module BuildHelpers {
  import opened Common
  import opened DotNet
  import opened UnityEditor
  import opened Coalesce

  /** `BuildUtility.GetBuildTargetGroup`: four mobile/web targets have a group of their own. */
  function GetBuildTargetGroup(target: BuildTarget): (g: BuildTargetGroup)
    ensures g != BuildTargetGroup.Unknown
    ensures g == BuildTargetGroup.Standalone <==>
      target != BuildTarget.Android && target != BuildTarget.iOS && target != BuildTarget.tvOS && target != BuildTarget.WebGL
    ensures target == BuildTarget.Android <==> g == BuildTargetGroup.Android
    ensures target == BuildTarget.iOS <==> g == BuildTargetGroup.iOS
    ensures target == BuildTarget.tvOS <==> g == BuildTargetGroup.tvOS
    ensures target == BuildTarget.WebGL <==> g == BuildTargetGroup.WebGL
  {
    match target
    case Android => BuildTargetGroup.Android
    case iOS => BuildTargetGroup.iOS
    case tvOS => BuildTargetGroup.tvOS
    case WebGL => BuildTargetGroup.WebGL
    case _ => BuildTargetGroup.Standalone
  }

  // ---------------------------------------------------------------- bundle identifier

  /**
   * `GetBundleIdentifier(config)`: the explicit identifier, else
   * `"com.{CompanyId}.{ProductId}"` when both ids are set, else "".
   */
  function GetBundleIdentifier(config: AppFields): (r: string)
    ensures r == "" <==> IsNullOrEmpty(config.bundleIdentifier) && (IsNullOrEmpty(config.companyId) || IsNullOrEmpty(config.productId))
    ensures !IsNullOrEmpty(config.bundleIdentifier) ==> r == config.bundleIdentifier.value
  {
    if !IsNullOrEmpty(config.bundleIdentifier) then config.bundleIdentifier.value
    else if !IsNullOrEmpty(config.productId) && !IsNullOrEmpty(config.companyId) then
      "com." + config.companyId.value + "." + config.productId.value
    else ""
  }

  /**
   * A derived identifier has three dot-separated parts, "com", the company id
   * and the product id, when neither id contains a dot.
   */
  lemma DerivedIdentifierParts(config: AppFields)
    requires IsNullOrEmpty(config.bundleIdentifier)
    requires !IsNullOrEmpty(config.companyId) && !IsNullOrEmpty(config.productId)
    requires '.' !in config.companyId.value && '.' !in config.productId.value
    ensures Split(GetBundleIdentifier(config), '.') == ["com", config.companyId.value, config.productId.value]
  {
    var parts := ["com", config.companyId.value, config.productId.value];
    assert parts[1..] == [config.companyId.value, config.productId.value];
    assert parts[1..][1..] == [config.productId.value];
    var c := config.companyId.value;
    var p := config.productId.value;
    assert Join(".", parts[1..]) == c + "." + p;
    assert Join(".", parts) == "com" + "." + (c + "." + p);
    assert "com" + "." + (c + "." + p) == "com." + c + "." + p;
    SplitJoin(parts, '.');
  }

  // ---------------------------------------------------------------- config file paths

  const ConfigExtension: string := ".xml"

  /** The part `GetConfigPath` inserts before the extension for a target. */
  function TargetSuffix(target: BuildTarget): string {
    if target != NoTarget then "." + TargetName(target) else ""
  }

  /** `GetConfigPath(basePath, name)`: the shared config file. */
  function GetSharedConfigPath(basePath: Option<string>, name: Option<string>): (r: Result<string>)
    ensures r.Success? <==> basePath.Some? && name.Some?
  {
    var path :- PathCombine(basePath, name);
    Success(path + ConfigExtension)
  }

  /** `GetConfigPath(basePath, name, target)`: `"." + target` goes before ".xml" unless the target is NoTarget. */
  function GetConfigPath(basePath: Option<string>, name: Option<string>, target: BuildTarget): (r: Result<string>)
    ensures r.Success? <==> basePath.Some? && name.Some?
    ensures r.Failure? ==> r == PathCombine(basePath, name).PropagateFailure()
  {
    var path :- PathCombine(basePath, name);
    Success(path + TargetSuffix(target) + ConfigExtension)
  }

  /** Without a target the platform path is the shared path. */
  lemma NoTargetPathIsShared(basePath: Option<string>, name: Option<string>)
    ensures GetConfigPath(basePath, name, NoTarget) == GetSharedConfigPath(basePath, name)
  {
    assert TargetSuffix(NoTarget) == "";
    if basePath.Some? && name.Some? {
      var path := CombinePaths(basePath.value, name.value);
      assert path + "" + ConfigExtension == path + ConfigExtension;
    }
  }

  /** Distinct targets read distinct config files. */
  lemma ConfigPathsDistinct(basePath: string, name: string, t1: BuildTarget, t2: BuildTarget)
    requires t1 != t2
    ensures GetConfigPath(Some(basePath), Some(name), t1) != GetConfigPath(Some(basePath), Some(name), t2)
  {
    var s1 := TargetSuffix(t1);
    var s2 := TargetSuffix(t2);
    if t1 != NoTarget && t2 != NoTarget {
      TargetNamesDistinct(t1, t2);
      assert s1[1..] == TargetName(t1);
      assert s2[1..] == TargetName(t2);
    }
    InfixesDiffer(CombinePaths(basePath, name), s1, s2, ConfigExtension);
  }

  /** Texts that differ only in their middle part differ. */
  lemma InfixesDiffer(prefix: string, m1: string, m2: string, suffix: string)
    requires m1 != m2
    ensures prefix + m1 + suffix != prefix + m2 + suffix
  {
    var p1 := prefix + m1 + suffix;
    var p2 := prefix + m2 + suffix;
    if |m1| == |m2| {
      assert p1[|prefix|..|prefix| + |m1|] == m1;
      assert p2[|prefix|..|prefix| + |m2|] == m2;
    } else {
      assert |p1| != |p2|;
    }
  }

  // ---------------------------------------------------------------- executable name and build folder

  /** The executable's extension for a target. */
  function ExecutableExtension(target: BuildTarget): (ext: string)
    ensures |ext| == 4
  {
    if target == BuildTarget.Android then ".apk"
    else if target == BuildTarget.iOS then ".app"
    else ".exe"
  }

  /** `GetExecutableName(appName, target)`: "app" stands in for a missing name. */
  function GetExecutableName(appName: Option<string>, target: BuildTarget): (r: string)
    ensures |r| > 4
    ensures r[|r| - 4..] == ExecutableExtension(target)
    ensures r[..|r| - 4] == if IsNullOrEmpty(appName) then "app" else appName.value
  {
    var ext := ExecutableExtension(target);
    if IsNullOrEmpty(appName) then "app" + ext else appName.value + ext
  }

  /** The build folder's name: `appName + "_v" + appVersion`, or `"v" + appVersion` without a name. */
  function BuildFolderName(appName: Option<string>, appVersion: Option<string>): (r: string)
    ensures |r| > 0
  {
    if IsNullOrEmpty(appName) then "v" + OrEmpty(appVersion)
    else appName.value + "_v" + OrEmpty(appVersion)
  }

  /** `GetBuildPath(appName, appVersion, buildFolderPath, target)`. */
  function GetBuildPath(appName: Option<string>, appVersion: Option<string>, buildFolderPath: Option<string>, target: BuildTarget): (r: Result<string>)
    ensures r.Success? <==> buildFolderPath.Some?
    ensures r.Failure? ==> r.error == ArgumentNull("path1")
  {
    var folder :- PathCombine(buildFolderPath, Some(BuildFolderName(appName, appVersion)));
    PathCombine(Some(folder), Some(TargetName(target)))
  }

  /** The folder name ends with "v" and the version, after the name and "_" when there is a name. */
  lemma BuildFolderNameShape(appName: Option<string>, appVersion: Option<string>)
    ensures var r := BuildFolderName(appName, appVersion);
      var v := "v" + OrEmpty(appVersion);
      |r| >= |v| && r[|r| - |v|..] == v &&
      (IsNullOrEmpty(appName) ==> r == v) &&
      (!IsNullOrEmpty(appName) ==> r[..|r| - |v|] == appName.value + "_")
  {
    var v := "v" + OrEmpty(appVersion);
    if !IsNullOrEmpty(appName) {
      var r := BuildFolderName(appName, appVersion);
      assert r == (appName.value + "_") + v;
    }
  }

  /** A relative build folder not ending in a separator gets `folder/name/target`. */
  lemma BuildPathLayout(appName: Option<string>, appVersion: Option<string>, folder: string, target: BuildTarget)
    requires folder != "" && folder[|folder| - 1] != DirectorySeparatorChar
    requires IsNullOrEmpty(appName) || !IsPathRooted(appName.value)
    requires OrEmpty(appVersion) == "" || OrEmpty(appVersion)[|OrEmpty(appVersion)| - 1] != DirectorySeparatorChar
    ensures GetBuildPath(appName, appVersion, Some(folder), target)
      == Success(folder + "/" + BuildFolderName(appName, appVersion) + "/" + TargetName(target))
  {
    var leaf := BuildFolderName(appName, appVersion);
    var name := TargetName(target);
    assert !IsPathRooted(leaf) by {
      if IsNullOrEmpty(appName) {
        assert leaf[0] == 'v';
      } else {
        assert leaf[0] == appName.value[0];
      }
    }
    var inner := folder + "/" + leaf;
    assert CombinePaths(folder, leaf) == inner;
    assert inner[|inner| - 1] == leaf[|leaf| - 1];
    assert leaf[|leaf| - 1] != DirectorySeparatorChar by {
      BuildFolderNameShape(appName, appVersion);
      var v := "v" + OrEmpty(appVersion);
      assert leaf[|leaf| - 1] == v[|v| - 1];
    }
    assert !IsPathRooted(name) by {
      NameNotRooted(target);
    }
  }

  /** Target names start with a letter. */
  lemma NameNotRooted(target: BuildTarget)
    ensures !IsPathRooted(TargetName(target))
  {
  }

  // ---------------------------------------------------------------- build options

  /** `BuildOptions.Development | BuildOptions.AllowDebugging`. */
  const DevelopmentOptions: BuildOptions := {Development, AllowDebugging}

  /** `GetBuildOptions(debug)`: development and debugging flags for a debug build, none otherwise. */
  function GetBuildOptions(debug: bool): (r: BuildOptions)
    ensures debug <==> r != NoOptions
    ensures debug ==> Development in r && AllowDebugging in r && |r| == 2
  {
    if debug then DevelopmentOptions else NoOptions
  }
}
