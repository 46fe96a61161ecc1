/**
 * `BuildUtility` of the older tree: the apply operations write a setting to
 * `PlayerSettings` only when the config has a value for it and leave
 * everything else alone; the default app store per target.
 */
module LegacyUtility {
  import opened Common
  import opened DotNet
  import opened UnityEditor
  import opened Coalesce
  import opened BuildHelpers
  import LegacyConfig

  // ---------------------------------------------------------------- what each apply writes

  /** The name written for a preferred and a fallback setting, or `current` when neither is set. */
  function Preferred(first: Option<string>, second: Option<string>, current: string): (r: string)
    ensures !IsNullOrEmpty(first) ==> r == first.value
    ensures IsNullOrEmpty(first) && !IsNullOrEmpty(second) ==> r == second.value
    ensures IsNullOrEmpty(first) && IsNullOrEmpty(second) ==> r == current
  {
    if !IsNullOrEmpty(first) then first.value
    else if !IsNullOrEmpty(second) then second.value
    else current
  }

  /** The settings after `ApplyAppConfig(config, target)`. */
  function AppApplied(s: PlayerState, config: AppFields, target: BuildTarget): PlayerState {
    var id := GetBundleIdentifier(config);
    s.(
      productName := Preferred(config.productName, config.productId, s.productName),
      companyName := Preferred(config.companyName, config.companyId, s.companyName),
      applicationIdentifiers :=
        if id != "" then s.applicationIdentifiers[GetBuildTargetGroup(target) := id] else s.applicationIdentifiers)
  }

  /** The settings after `ApplyVersionConfig(config)`. */
  function VersionApplied(s: PlayerState, config: VersionFields): PlayerState {
    var number := IntToString(config.buildNumber);
    s.(
      bundleVersion := if IsNullOrEmpty(config.bundleVersion) then s.bundleVersion else config.bundleVersion.value,
      iOSBuildNumber := if config.buildNumber > 0 then number else s.iOSBuildNumber,
      macOSBuildNumber := if config.buildNumber > 0 then number else s.macOSBuildNumber,
      tvOSBuildNumber := if config.buildNumber > 0 then number else s.tvOSBuildNumber,
      androidBundleVersionCode := if config.bundleVersionCode > 0 then config.bundleVersionCode else s.androidBundleVersionCode)
  }

  /** The keystore settings after `ApplyBuildConfig`: names when non-empty, passwords when non-null. */
  function KeystoreApplied(s: PlayerState, c: LegacyConfig.Config): PlayerState {
    s.(
      keystoreName := if IsNullOrEmpty(c.keystoreName) then s.keystoreName else c.keystoreName.value,
      keystorePass := if c.keystorePass.None? then s.keystorePass else c.keystorePass.value,
      keyaliasName := if IsNullOrEmpty(c.keyaliasName) then s.keyaliasName else c.keyaliasName.value,
      keyaliasPass := if c.keyaliasPass.None? then s.keyaliasPass else c.keyaliasPass.value)
  }

  /** The define symbols after `ApplyBuildConfig`: the `';'`-joined list for the target's group when non-null. */
  function DefinesApplied(s: PlayerState, c: LegacyConfig.Config): PlayerState {
    if c.defines.None? then s
    else s.(scriptingDefineSymbols := s.scriptingDefineSymbols[GetBuildTargetGroup(c.buildTarget) := Join(";", c.defines.value)])
  }

  /** The settings after `ApplyBuildConfig(config)`. */
  function BuildApplied(s: PlayerState, c: LegacyConfig.Config): PlayerState {
    DefinesApplied(KeystoreApplied(VersionApplied(AppApplied(s, c.app, c.buildTarget), c.version), c), c)
  }

  // ---------------------------------------------------------------- properties

  /**
   * Apply writes only the product name, company name and the identifier of the
   * target's group; an identifier is written only when one can be derived.
   */
  lemma AppAppliedFrame(s: PlayerState, config: AppFields, target: BuildTarget)
    ensures var r := AppApplied(s, config, target);
      r.(productName := s.productName, companyName := s.companyName, applicationIdentifiers := s.applicationIdentifiers) == s &&
      (forall g :: g != GetBuildTargetGroup(target) ==>
        (g in r.applicationIdentifiers <==> g in s.applicationIdentifiers) &&
        (g in s.applicationIdentifiers ==> r.applicationIdentifiers[g] == s.applicationIdentifiers[g])) &&
      (GetBundleIdentifier(config) == "" ==> r.applicationIdentifiers == s.applicationIdentifiers) &&
      (GetBundleIdentifier(config) != "" ==> r.applicationIdentifiers[GetBuildTargetGroup(target)] == GetBundleIdentifier(config))
  {
  }

  /** Apply writes only the bundle version, the three build numbers and the Android version code. */
  lemma VersionAppliedFrame(s: PlayerState, config: VersionFields)
    ensures var r := VersionApplied(s, config);
      r.(bundleVersion := s.bundleVersion, iOSBuildNumber := s.iOSBuildNumber, macOSBuildNumber := s.macOSBuildNumber,
        tvOSBuildNumber := s.tvOSBuildNumber, androidBundleVersionCode := s.androidBundleVersionCode) == s &&
      (config.buildNumber > 0 ==> r.iOSBuildNumber == r.macOSBuildNumber == r.tvOSBuildNumber)
  {
  }

  /** A config with nothing set leaves the settings as they are. */
  lemma UnsetConfigChangesNothing(s: PlayerState, target: BuildTarget)
    ensures AppApplied(s, NoApp, target) == s
    ensures VersionApplied(s, NoVersion) == s
    ensures BuildApplied(s, LegacyConfig.Empty) == s
  {
  }

  /** Applying the same config twice is the same as applying it once. */
  lemma BuildAppliedIdempotent(s: PlayerState, c: LegacyConfig.Config)
    ensures BuildApplied(BuildApplied(s, c), c) == BuildApplied(s, c)
  {
  }

  /** The build number written for iOS, macOS and tvOS reads back as the config's number. */
  lemma BuildNumberReadsBack(s: PlayerState, config: VersionFields)
    requires 0 < config.buildNumber <= Int32Max
    ensures ParseInt(VersionApplied(s, config).iOSBuildNumber) == Success(config.buildNumber)
    ensures VersionApplied(s, config).macOSBuildNumber == VersionApplied(s, config).iOSBuildNumber
    ensures VersionApplied(s, config).tvOSBuildNumber == VersionApplied(s, config).iOSBuildNumber
  {
    ParseIntToString(config.buildNumber);
  }

  /** An empty password is written, an empty keystore or alias name is not. */
  lemma EmptyPasswordWritten(s: PlayerState, c: LegacyConfig.Config)
    requires c.keystorePass == Some("") && c.keystoreName == Some("")
    ensures KeystoreApplied(s, c).keystorePass == ""
    ensures KeystoreApplied(s, c).keystoreName == s.keystoreName
  {
  }

  /** The define symbols of the target's group split back into the config's defines. */
  lemma DefinesReadBack(s: PlayerState, c: LegacyConfig.Config)
    requires c.defines.Some? && |c.defines.value| >= 1
    requires forall k :: 0 <= k < |c.defines.value| ==> ';' !in c.defines.value[k]
    ensures var r := BuildApplied(s, c).scriptingDefineSymbols;
      GetBuildTargetGroup(c.buildTarget) in r && Split(r[GetBuildTargetGroup(c.buildTarget)], ';') == c.defines.value
  {
    SplitJoin(c.defines.value, ';');
  }

  // ---------------------------------------------------------------- default store

  /** `GetDefaultStore(target)`: the store a target publishes to unless told otherwise. */
  function GetDefaultStore(target: BuildTarget): (r: AppStore)
    ensures r == GooglePlay <==> target == BuildTarget.Android
    ensures r == AppleAppStore <==> target == BuildTarget.iOS || target == BuildTarget.tvOS
    ensures r == MacAppStore <==> target in {StandaloneOSXIntel, StandaloneOSXIntel64, StandaloneOSXUniversal}
    ensures r == WinRT <==> target == StandaloneWindows || target == StandaloneWindows64
    ensures r in {NotSpecified, GooglePlay, AppleAppStore, MacAppStore, WinRT}
  {
    match target
    case Android => GooglePlay
    case iOS => AppleAppStore
    case tvOS => AppleAppStore
    case StandaloneOSXIntel => MacAppStore
    case StandaloneOSXIntel64 => MacAppStore
    case StandaloneOSXUniversal => MacAppStore
    case StandaloneWindows => WinRT
    case StandaloneWindows64 => WinRT
    case _ => NotSpecified
  }

  // ---------------------------------------------------------------- the apply methods

  /** `ApplyAppConfig(config, target)`. */
  method ApplyAppConfig(settings: PlayerSettings, config: AppFields, target: BuildTarget)
    modifies settings
    ensures settings.State() == AppApplied(old(settings.State()), config, target)
  {
    if !IsNullOrEmpty(config.productName) {
      settings.productName := config.productName.value;
    } else if !IsNullOrEmpty(config.productId) {
      settings.productName := config.productId.value;
    }
    if !IsNullOrEmpty(config.companyName) {
      settings.companyName := config.companyName.value;
    } else if !IsNullOrEmpty(config.companyId) {
      settings.companyName := config.companyId.value;
    }
    var bundleIdentifier := GetBundleIdentifier(config);
    if bundleIdentifier != "" {
      settings.SetApplicationIdentifier(GetBuildTargetGroup(target), bundleIdentifier);
    }
  }

  /** `ApplyVersionConfig(config)`. */
  method ApplyVersionConfig(settings: PlayerSettings, config: VersionFields)
    modifies settings
    ensures settings.State() == VersionApplied(old(settings.State()), config)
  {
    if !IsNullOrEmpty(config.bundleVersion) {
      settings.bundleVersion := config.bundleVersion.value;
    }
    if config.buildNumber > 0 {
      settings.iOSBuildNumber := IntToString(config.buildNumber);
      settings.macOSBuildNumber := IntToString(config.buildNumber);
      settings.tvOSBuildNumber := IntToString(config.buildNumber);
    }
    if config.bundleVersionCode > 0 {
      settings.androidBundleVersionCode := config.bundleVersionCode;
    }
  }

  /** `ApplyBuildConfig(config)`. */
  method ApplyBuildConfig(settings: PlayerSettings, config: LegacyConfig.BuildConfig)
    modifies settings
    ensures settings.State() == BuildApplied(old(settings.State()), config.Value())
  {
    var c := config.Value();
    ApplyAppConfig(settings, c.app, c.buildTarget);
    ApplyVersionConfig(settings, c.version);
    ApplyKeystore(settings, c);
    if c.defines.Some? {
      settings.SetScriptingDefineSymbolsForGroup(GetBuildTargetGroup(c.buildTarget), Join(";", c.defines.value));
    }
  }

  /** The keystore part of `ApplyBuildConfig`. */
  method ApplyKeystore(settings: PlayerSettings, c: LegacyConfig.Config)
    modifies settings
    ensures settings.State() == KeystoreApplied(old(settings.State()), c)
  {
    if !IsNullOrEmpty(c.keystoreName) {
      settings.keystoreName := c.keystoreName.value;
    }
    if c.keystorePass.Some? {
      settings.keystorePass := c.keystorePass.value;
    }
    if !IsNullOrEmpty(c.keyaliasName) {
      settings.keyaliasName := c.keyaliasName.value;
    }
    if c.keyaliasPass.Some? {
      settings.keyaliasPass := c.keyaliasPass.value;
    }
  }
}
