/**
 * How the two trees relate where they do the same job: combining agrees on
 * the settings both configs have, and a strict apply that succeeds writes
 * exactly what the lax apply writes.
 */
module Agreement {
  import opened Common
  import opened DotNet
  import opened UnityEditor
  import opened Coalesce
  import LegacyConfig
  import CurrentConfig
  import LegacyUtility
  import CurrentUtility

  /** The settings of an older-tree config that a newer-tree config also has. */
  function Projected(c: LegacyConfig.Config): CurrentConfig.Config {
    CurrentConfig.Config(c.defines, c.app, c.version)
  }

  /** Both trees combine the defines, app and version settings the same way. */
  lemma CombinedAgrees(c: LegacyConfig.Config, fallback: LegacyConfig.Config)
    ensures Projected(LegacyConfig.Combined(c, fallback)) == CurrentConfig.Combined(Projected(c), Projected(fallback))
    ensures Projected(LegacyConfig.CombinedVersion(c, fallback.version)) == CurrentConfig.CombinedVersion(Projected(c), fallback.version)
    ensures Projected(LegacyConfig.CombinedApp(c, fallback.app)) == CurrentConfig.CombinedApp(Projected(c), fallback.app)
  {
  }

  /** A strict app apply that succeeds leaves the settings as the lax apply for the same target does. */
  lemma StrictAppAgreesWithLax(s: PlayerState, config: AppFields, active: BuildTarget)
    requires CurrentUtility.AppApplied(s, config, active).outcome.Pass?
    ensures CurrentUtility.AppApplied(s, config, active).state == LegacyUtility.AppApplied(s, config, active)
  {
    var product := CurrentUtility.ProductNamed(s, config);
    var company := CurrentUtility.CompanyNamed(product.state, config);
    var strict := CurrentUtility.Identified(company.state, config, active);
    assert CurrentUtility.AppApplied(s, config, active) == strict;
    CurrentUtility.AppAppliedFails(s, config, active);
    var lax := LegacyUtility.AppApplied(s, config, active);
    assert strict.state.productName == lax.productName;
    assert strict.state.companyName == lax.companyName;
    assert strict.state.applicationIdentifiers == lax.applicationIdentifiers;
  }

  /** A strict version apply that succeeds leaves the settings as the lax apply does. */
  lemma StrictVersionAgreesWithLax(s: PlayerState, config: VersionFields)
    requires CurrentUtility.VersionApplied(s, config).outcome.Pass?
    ensures CurrentUtility.VersionApplied(s, config).state == LegacyUtility.VersionApplied(s, config)
  {
  }

  /**
   * Where the strict apply fails, the lax one still writes every setting that
   * is present; the strict one stops at the first missing one.
   */
  lemma LaxWritesWhatStrictRejects(s: PlayerState, config: VersionFields)
    requires IsNullOrEmpty(config.bundleVersion) && config.buildNumber > 0
    ensures CurrentUtility.VersionApplied(s, config) == CurrentUtility.Applied(s, Fail(InvalidOperation))
    ensures LegacyUtility.VersionApplied(s, config).iOSBuildNumber == IntToString(config.buildNumber)
    ensures LegacyUtility.VersionApplied(s, config).bundleVersion == s.bundleVersion
  {
  }
}
