/**
 * `BuildUtility` of the newer tree: the apply operations demand a value for
 * every setting they write and throw `InvalidOperationException` at the first
 * one missing, keeping the writes made before it. Settings go to the group of
 * the editor's active build target.
 */
module CurrentUtility {
  import opened Common
  import opened DotNet
  import opened UnityEditor
  import opened Coalesce
  import opened BuildHelpers
  import CurrentConfig

  /** The settings after an apply, and whether it completed or threw. */
  datatype Applied = Applied(state: PlayerState, outcome: Outcome)

  /** `GetActiveBuildTargetGroup()`, with the active target as a parameter. */
  function GetActiveBuildTargetGroup(active: BuildTarget): BuildTargetGroup {
    GetBuildTargetGroup(active)
  }

  /** The product-name step of `ApplyAppConfig`: the name, else the id, else a throw. */
  function ProductNamed(s: PlayerState, config: AppFields): Applied {
    if !IsNullOrEmpty(config.productName) then Applied(s.(productName := config.productName.value), Pass)
    else if !IsNullOrEmpty(config.productId) then Applied(s.(productName := config.productId.value), Pass)
    else Applied(s, Fail(InvalidOperation))
  }

  /** The company-name step of `ApplyAppConfig`. */
  function CompanyNamed(s: PlayerState, config: AppFields): Applied {
    if !IsNullOrEmpty(config.companyName) then Applied(s.(companyName := config.companyName.value), Pass)
    else if !IsNullOrEmpty(config.companyId) then Applied(s.(companyName := config.companyId.value), Pass)
    else Applied(s, Fail(InvalidOperation))
  }

  /** The identifier step of `ApplyAppConfig`: the explicit identifier, else one built from the ids, else a throw. */
  function Identified(s: PlayerState, config: AppFields, active: BuildTarget): Applied {
    var group := GetActiveBuildTargetGroup(active);
    if !IsNullOrEmpty(config.bundleIdentifier) then
      Applied(s.(applicationIdentifiers := s.applicationIdentifiers[group := config.bundleIdentifier.value]), Pass)
    else if !IsNullOrEmpty(config.productId) && !IsNullOrEmpty(config.companyId) then
      var id := "com." + config.companyId.value + "." + config.productId.value;
      Applied(s.(applicationIdentifiers := s.applicationIdentifiers[group := id]), Pass)
    else
      Applied(s, Fail(InvalidOperation))
  }

  /** `ApplyAppConfig(config)`: product name, company name, then the identifier, stopping at the first throw. */
  function AppApplied(s: PlayerState, config: AppFields, active: BuildTarget): Applied {
    var product := ProductNamed(s, config);
    if product.outcome.Fail? then product
    else
      var company := CompanyNamed(product.state, config);
      if company.outcome.Fail? then company
      else Identified(company.state, config, active)
  }

  /** `ApplyVersionConfig(config)`: bundle version, build numbers, then the Android version code. */
  function VersionApplied(s: PlayerState, config: VersionFields): Applied {
    if IsNullOrEmpty(config.bundleVersion) then
      Applied(s, Fail(InvalidOperation))
    else
      var s1 := s.(bundleVersion := config.bundleVersion.value);
      if config.buildNumber <= 0 then
        Applied(s1, Fail(InvalidOperation))
      else
        var number := IntToString(config.buildNumber);
        var s2 := s1.(iOSBuildNumber := number, macOSBuildNumber := number, tvOSBuildNumber := number);
        if config.bundleVersionCode <= 0 then
          Applied(s2, Fail(InvalidOperation))
        else
          Applied(s2.(androidBundleVersionCode := config.bundleVersionCode), Pass)
  }

  /** `ApplyBuildConfig(config)`: app, version, then the `';'`-joined defines of the active group. */
  function BuildApplied(s: PlayerState, c: CurrentConfig.Config, active: BuildTarget): Applied {
    var app := AppApplied(s, c.app, active);
    if app.outcome.Fail? then app
    else
      var version := VersionApplied(app.state, c.version);
      if version.outcome.Fail? then version
      else if c.defines.None? then Applied(version.state, Fail(ArgumentNull("value")))
      else
        var group := GetActiveBuildTargetGroup(active);
        Applied(version.state.(scriptingDefineSymbols := version.state.scriptingDefineSymbols[group := Join(";", c.defines.value)]), Pass)
  }

  // ---------------------------------------------------------------- properties

  /**
   * The app settings are rejected exactly when there is no product name or id,
   * no company name or id, or no identifier to use or derive; a success writes
   * the identifier `GetBundleIdentifier` derives.
   */
  lemma AppAppliedFails(s: PlayerState, config: AppFields, active: BuildTarget)
    ensures var r := AppApplied(s, config, active);
      (r.outcome.Fail? <==>
        (IsNullOrEmpty(config.productName) && IsNullOrEmpty(config.productId)) ||
        (IsNullOrEmpty(config.companyName) && IsNullOrEmpty(config.companyId)) ||
        GetBundleIdentifier(config) == "") &&
      (r.outcome.Fail? ==> r.outcome.error == InvalidOperation) &&
      (r.outcome.Pass? ==>
        r.state.applicationIdentifiers == s.applicationIdentifiers[GetActiveBuildTargetGroup(active) := GetBundleIdentifier(config)])
  {
    var product := ProductNamed(s, config);
    if product.outcome.Pass? {
      var company := CompanyNamed(product.state, config);
      if company.outcome.Pass? {
        assert AppApplied(s, config, active) == Identified(company.state, config, active);
      }
    }
  }

  /**
   * The version settings are rejected exactly when the bundle version is empty,
   * the build number is not positive or the version code is not positive.
   */
  lemma VersionAppliedFails(s: PlayerState, config: VersionFields)
    ensures var r := VersionApplied(s, config);
      (r.outcome.Fail? <==>
        IsNullOrEmpty(config.bundleVersion) || config.buildNumber <= 0 || config.bundleVersionCode <= 0) &&
      (r.outcome.Fail? ==> r.outcome.error == InvalidOperation)
  {
  }

  /**
   * The checks run in order and earlier writes stay: a missing build number
   * leaves the bundle version written and nothing else, a missing version code
   * leaves the bundle version and the build numbers written.
   */
  lemma VersionAppliedPartial(s: PlayerState, config: VersionFields)
    requires !IsNullOrEmpty(config.bundleVersion)
    ensures config.buildNumber <= 0 ==>
      VersionApplied(s, config).state == s.(bundleVersion := config.bundleVersion.value)
    ensures config.buildNumber > 0 && config.bundleVersionCode <= 0 ==>
      VersionApplied(s, config).state.bundleVersion == config.bundleVersion.value &&
      VersionApplied(s, config).state.iOSBuildNumber == IntToString(config.buildNumber) &&
      VersionApplied(s, config).state.androidBundleVersionCode == s.androidBundleVersionCode
  {
  }

  /** A failing product check writes nothing; a failing company check writes only the product name. */
  lemma AppAppliedPartial(s: PlayerState, config: AppFields, active: BuildTarget)
    ensures IsNullOrEmpty(config.productName) && IsNullOrEmpty(config.productId) ==> AppApplied(s, config, active).state == s
    ensures (!(IsNullOrEmpty(config.productName) && IsNullOrEmpty(config.productId)) &&
        IsNullOrEmpty(config.companyName) && IsNullOrEmpty(config.companyId)) ==>
      AppApplied(s, config, active).state.(productName := s.productName) == s
  {
  }

  /**
   * The whole apply fails exactly when the app or version settings are
   * incomplete or the defines are null; the first failing step names the exception.
   */
  lemma BuildAppliedFails(s: PlayerState, c: CurrentConfig.Config, active: BuildTarget)
    ensures var r := BuildApplied(s, c, active);
      var appFails := AppApplied(s, c.app, active).outcome.Fail?;
      var versionFails := VersionApplied(s, c.version).outcome.Fail?;
      (r.outcome.Fail? <==> appFails || versionFails || c.defines.None?) &&
      (r.outcome == Fail(ArgumentNull("value")) <==> !appFails && !versionFails && c.defines.None?)
  {
    VersionAppliedFails(s, c.version);
    VersionAppliedFails(AppApplied(s, c.app, active).state, c.version);
  }

  /** The product-name step changes nothing on settings that already hold the name it writes. */
  lemma ProductNamedStable(s: PlayerState, t: PlayerState, config: AppFields)
    requires ProductNamed(s, config).outcome.Pass?
    requires t.productName == ProductNamed(s, config).state.productName
    ensures ProductNamed(t, config) == Applied(t, Pass)
  {
  }

  /** The company-name step changes nothing on settings that already hold the name it writes. */
  lemma CompanyNamedStable(s: PlayerState, t: PlayerState, config: AppFields)
    requires CompanyNamed(s, config).outcome.Pass?
    requires t.companyName == CompanyNamed(s, config).state.companyName
    ensures CompanyNamed(t, config) == Applied(t, Pass)
  {
  }

  /** The identifier step changes nothing on settings that already hold the identifier it writes. */
  lemma IdentifiedStable(s: PlayerState, t: PlayerState, config: AppFields, active: BuildTarget)
    requires Identified(s, config, active).outcome.Pass?
    requires var group := GetActiveBuildTargetGroup(active);
      group in t.applicationIdentifiers &&
      t.applicationIdentifiers[group] == Identified(s, config, active).state.applicationIdentifiers[group]
    ensures Identified(t, config, active) == Applied(t, Pass)
  {
    var group := GetActiveBuildTargetGroup(active);
    var m := t.applicationIdentifiers;
    assert m[group := m[group]] == m;
  }

  /** The app apply changes nothing on settings that already hold what a successful apply writes. */
  lemma AppAppliedStable(s: PlayerState, t: PlayerState, config: AppFields, active: BuildTarget)
    requires AppApplied(s, config, active).outcome.Pass?
    requires var r := AppApplied(s, config, active).state;
      var group := GetActiveBuildTargetGroup(active);
      t.productName == r.productName && t.companyName == r.companyName &&
      group in t.applicationIdentifiers && t.applicationIdentifiers[group] == r.applicationIdentifiers[group]
    ensures AppApplied(t, config, active) == Applied(t, Pass)
  {
    var product := ProductNamed(s, config);
    var company := CompanyNamed(product.state, config);
    var r := Identified(company.state, config, active);
    assert AppApplied(s, config, active) == r;
    assert r.state.productName == product.state.productName;
    assert r.state.companyName == company.state.companyName;
    ProductNamedStable(s, t, config);
    CompanyNamedStable(product.state, t, config);
    IdentifiedStable(company.state, t, config, active);
  }

  /** A successful app apply, repeated, succeeds again and changes nothing more. */
  lemma AppAppliedIdempotent(s: PlayerState, config: AppFields, active: BuildTarget)
    requires AppApplied(s, config, active).outcome.Pass?
    ensures AppApplied(AppApplied(s, config, active).state, config, active) == AppApplied(s, config, active)
  {
    var r := AppApplied(s, config, active);
    AppAppliedFails(s, config, active);
    AppAppliedStable(s, r.state, config, active);
  }

  /** The version apply changes nothing on settings that already hold what a successful apply writes. */
  lemma VersionAppliedStable(s: PlayerState, t: PlayerState, config: VersionFields)
    requires VersionApplied(s, config).outcome.Pass?
    requires var r := VersionApplied(s, config).state;
      t.bundleVersion == r.bundleVersion && t.iOSBuildNumber == r.iOSBuildNumber &&
      t.macOSBuildNumber == r.macOSBuildNumber && t.tvOSBuildNumber == r.tvOSBuildNumber &&
      t.androidBundleVersionCode == r.androidBundleVersionCode
    ensures VersionApplied(t, config) == Applied(t, Pass)
  {
  }

  /** A successful version apply, repeated, succeeds again and changes nothing more. */
  lemma VersionAppliedIdempotent(s: PlayerState, config: VersionFields)
    requires VersionApplied(s, config).outcome.Pass?
    ensures VersionApplied(VersionApplied(s, config).state, config) == VersionApplied(s, config)
  {
    VersionAppliedStable(s, VersionApplied(s, config).state, config);
  }

  /** A successful apply, repeated, succeeds again and changes nothing more. */
  lemma BuildAppliedIdempotent(s: PlayerState, c: CurrentConfig.Config, active: BuildTarget)
    requires BuildApplied(s, c, active).outcome.Pass?
    ensures BuildApplied(BuildApplied(s, c, active).state, c, active) == BuildApplied(s, c, active)
  {
    var group := GetActiveBuildTargetGroup(active);
    var app := AppApplied(s, c.app, active);
    var version := VersionApplied(app.state, c.version);
    var defines := version.state.scriptingDefineSymbols[group := Join(";", c.defines.value)];
    var t := version.state.(scriptingDefineSymbols := defines);
    assert BuildApplied(s, c, active) == Applied(t, Pass);
    AppAppliedFails(s, c.app, active);
    assert t.applicationIdentifiers == app.state.applicationIdentifiers;
    AppAppliedStable(s, t, c.app, active);
    VersionAppliedStable(app.state, t, c.version);
    assert t.(scriptingDefineSymbols := t.scriptingDefineSymbols[group := Join(";", c.defines.value)]) == t;
  }

  // ---------------------------------------------------------------- the apply methods

  /** `ApplyAppConfig(config)`. */
  method ApplyAppConfig(settings: PlayerSettings, config: AppFields, active: BuildTarget) returns (outcome: Outcome)
    modifies settings
    ensures Applied(settings.State(), outcome) == AppApplied(old(settings.State()), config, active)
  {
    outcome := ApplyProductName(settings, config);
    if outcome.Fail? {
      return;
    }
    outcome := ApplyCompanyName(settings, config);
    if outcome.Fail? {
      return;
    }
    outcome := ApplyIdentifier(settings, config, active);
  }

  /** The product-name step. */
  method ApplyProductName(settings: PlayerSettings, config: AppFields) returns (outcome: Outcome)
    modifies settings
    ensures Applied(settings.State(), outcome) == ProductNamed(old(settings.State()), config)
  {
    if !IsNullOrEmpty(config.productName) {
      settings.productName := config.productName.value;
    } else if !IsNullOrEmpty(config.productId) {
      settings.productName := config.productId.value;
    } else {
      return Fail(InvalidOperation);
    }
    return Pass;
  }

  /** The company-name step. */
  method ApplyCompanyName(settings: PlayerSettings, config: AppFields) returns (outcome: Outcome)
    modifies settings
    ensures Applied(settings.State(), outcome) == CompanyNamed(old(settings.State()), config)
  {
    if !IsNullOrEmpty(config.companyName) {
      settings.companyName := config.companyName.value;
    } else if !IsNullOrEmpty(config.companyId) {
      settings.companyName := config.companyId.value;
    } else {
      return Fail(InvalidOperation);
    }
    return Pass;
  }

  /** The identifier step. */
  method ApplyIdentifier(settings: PlayerSettings, config: AppFields, active: BuildTarget) returns (outcome: Outcome)
    modifies settings
    ensures Applied(settings.State(), outcome) == Identified(old(settings.State()), config, active)
  {
    if !IsNullOrEmpty(config.bundleIdentifier) {
      settings.SetApplicationIdentifier(GetActiveBuildTargetGroup(active), config.bundleIdentifier.value);
    } else if !IsNullOrEmpty(config.productId) && !IsNullOrEmpty(config.companyId) {
      settings.SetApplicationIdentifier(GetActiveBuildTargetGroup(active), "com." + config.companyId.value + "." + config.productId.value);
    } else {
      return Fail(InvalidOperation);
    }
    return Pass;
  }

  /** `ApplyVersionConfig(config)`. */
  method ApplyVersionConfig(settings: PlayerSettings, config: VersionFields) returns (outcome: Outcome)
    modifies settings
    ensures Applied(settings.State(), outcome) == VersionApplied(old(settings.State()), config)
  {
    if !IsNullOrEmpty(config.bundleVersion) {
      settings.bundleVersion := config.bundleVersion.value;
    } else {
      return Fail(InvalidOperation);
    }
    if config.buildNumber > 0 {
      settings.iOSBuildNumber := IntToString(config.buildNumber);
      settings.macOSBuildNumber := IntToString(config.buildNumber);
      settings.tvOSBuildNumber := IntToString(config.buildNumber);
    } else {
      return Fail(InvalidOperation);
    }
    if config.bundleVersionCode > 0 {
      settings.androidBundleVersionCode := config.bundleVersionCode;
    } else {
      return Fail(InvalidOperation);
    }
    return Pass;
  }

  /** `ApplyBuildConfig(config)`. */
  method ApplyBuildConfig(settings: PlayerSettings, config: CurrentConfig.BuildConfig, active: BuildTarget) returns (outcome: Outcome)
    modifies settings
    ensures Applied(settings.State(), outcome) == BuildApplied(old(settings.State()), config.Value(), active)
  {
    var c := config.Value();
    outcome := ApplyAppConfig(settings, c.app, active);
    if outcome.Fail? {
      return;
    }
    outcome := ApplyVersionConfig(settings, c.version);
    if outcome.Fail? {
      return;
    }
    if c.defines.None? {
      return Fail(ArgumentNull("value"));
    }
    settings.SetScriptingDefineSymbolsForGroup(GetActiveBuildTargetGroup(active), Join(";", c.defines.value));
    return Pass;
  }
}
