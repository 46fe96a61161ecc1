/**
 * The part of the Unity editor API the build scripts talk to: build targets
 * and target groups, app stores, build option flags and the global
 * `PlayerSettings` that the apply operations write.
 */
module UnityEditor {
  import opened Common

  /** `UnityEditor.BuildTarget` (the members a desktop/mobile/console build can name). */
  datatype BuildTarget =
    | NoTarget
    | StandaloneOSX
    | StandaloneOSXUniversal
    | StandaloneOSXIntel
    | StandaloneOSXIntel64
    | StandaloneWindows
    | StandaloneWindows64
    | StandaloneLinux
    | StandaloneLinux64
    | StandaloneLinuxUniversal
    | iOS
    | Android
    | WebGL
    | WSAPlayer
    | tvOS
    | PS4
    | XboxOne
    | Switch

  /** `target.ToString()`: the member's name. */
  function TargetName(t: BuildTarget): (name: string)
    ensures |name| > 0
  {
    match t
    case NoTarget => "NoTarget"
    case StandaloneOSX => "StandaloneOSX"
    case StandaloneOSXUniversal => "StandaloneOSXUniversal"
    case StandaloneOSXIntel => "StandaloneOSXIntel"
    case StandaloneOSXIntel64 => "StandaloneOSXIntel64"
    case StandaloneWindows => "StandaloneWindows"
    case StandaloneWindows64 => "StandaloneWindows64"
    case StandaloneLinux => "StandaloneLinux"
    case StandaloneLinux64 => "StandaloneLinux64"
    case StandaloneLinuxUniversal => "StandaloneLinuxUniversal"
    case iOS => "iOS"
    case Android => "Android"
    case WebGL => "WebGL"
    case WSAPlayer => "WSAPlayer"
    case tvOS => "tvOS"
    case PS4 => "PS4"
    case XboxOne => "XboxOne"
    case Switch => "Switch"
  }

  /** Every member, in declaration order. */
  const AllTargets: seq<BuildTarget> := [
    NoTarget, StandaloneOSX, StandaloneOSXUniversal, StandaloneOSXIntel, StandaloneOSXIntel64,
    StandaloneWindows, StandaloneWindows64, StandaloneLinux, StandaloneLinux64, StandaloneLinuxUniversal,
    BuildTarget.iOS, BuildTarget.Android, BuildTarget.WebGL, WSAPlayer, BuildTarget.tvOS, PS4, XboxOne, Switch]

  /** The first of `targets` whose name is `s`. */
  function FindTarget(targets: seq<BuildTarget>, s: string): (r: Option<BuildTarget>)
    ensures r.Some? ==> r.value in targets && TargetName(r.value) == s
    ensures r.None? ==> forall t :: t in targets ==> TargetName(t) != s
  {
    if targets == [] then None
    else if TargetName(targets[0]) == s then Some(targets[0])
    else FindTarget(targets[1..], s)
  }

  /**
   * `(BuildTarget)Enum.Parse(typeof(BuildTarget), s)` on a member name;
   * any other text throws `ArgumentException`.
   */
  function ParseBuildTarget(s: string): (r: Result<BuildTarget>)
    ensures r.Success? ==> TargetName(r.value) == s
    ensures r.Failure? ==> r.error == Argument("value")
  {
    match FindTarget(AllTargets, s)
    case Some(t) => Success(t)
    case None => Failure(Argument("value"))
  }

  /** Each member sits first in `AllTargets` among those carrying its name. */
  lemma {:induction false} FindTargetFirst(targets: seq<BuildTarget>, t: BuildTarget)
    requires t in targets
    requires forall k :: 0 <= k < |targets| && targets[k] != t ==> TargetName(targets[k]) != TargetName(t)
    ensures FindTarget(targets, TargetName(t)) == Some(t)
  {
    if targets[0] != t {
      FindTargetFirst(targets[1..], t);
    }
  }

  /** Parsing a member's name gives the member back, so names are unique. */
  lemma ParseTargetName(t: BuildTarget)
    ensures ParseBuildTarget(TargetName(t)) == Success(t)
  {
    assert t in AllTargets;
    forall k | 0 <= k < |AllTargets| && AllTargets[k] != t
      ensures TargetName(AllTargets[k]) != TargetName(t)
    {
      var u := AllTargets[k];
      if TargetName(u) == TargetName(t) {
        NameDetermines(u, t);
      }
    }
    FindTargetFirst(AllTargets, t);
  }

  /** Distinct members have distinct names. */
  lemma TargetNamesDistinct(t1: BuildTarget, t2: BuildTarget)
    requires t1 != t2
    ensures TargetName(t1) != TargetName(t2)
  {
    ParseTargetName(t1);
    ParseTargetName(t2);
  }

  /** Two members with the same name are the same member. */
  lemma NameDetermines(u: BuildTarget, t: BuildTarget)
    requires TargetName(u) == TargetName(t)
    ensures u == t
  {
    var a := TargetName(u);
    var b := TargetName(t);
    assert |a| == |b|;
    assert a[0] == b[0];
    assert a[|a| - 1] == b[|b| - 1];
    if |a| > 10 {
      assert a[10] == b[10];
    }
    if |a| > 13 {
      assert a[13] == b[13];
      assert a[14] == b[14];
    }
  }

  /** `UnityEditor.BuildTargetGroup` (the groups a target can map to). */
  datatype BuildTargetGroup = Unknown | Standalone | iOS | Android | WebGL | tvOS

  /** `UnityEngine.Purchasing.AppStore`. */
  datatype AppStore =
    | NotSpecified
    | GooglePlay
    | AmazonAppStore
    | CloudMoolah
    | SamsungApps
    | XiaomiMiPay
    | MacAppStore
    | AppleAppStore
    | WinRT
    | TizenStore
    | FacebookStore

  /** `store.ToString()`. */
  function StoreName(s: AppStore): (name: string)
    ensures |name| > 0
  {
    match s
    case NotSpecified => "NotSpecified"
    case GooglePlay => "GooglePlay"
    case AmazonAppStore => "AmazonAppStore"
    case CloudMoolah => "CloudMoolah"
    case SamsungApps => "SamsungApps"
    case XiaomiMiPay => "XiaomiMiPay"
    case MacAppStore => "MacAppStore"
    case AppleAppStore => "AppleAppStore"
    case WinRT => "WinRT"
    case TizenStore => "TizenStore"
    case FacebookStore => "FacebookStore"
  }

  /** One flag of `UnityEditor.BuildOptions`; a flags value is the set of its raised flags. */
  datatype BuildOption =
    | Development
    | AutoRunPlayer
    | ShowBuiltPlayer
    | BuildAdditionalStreamedScenes
    | AcceptExternalModificationsToPlayer
    | ConnectWithProfiler
    | AllowDebugging
    | SymlinkLibraries
    | UncompressedAssetBundle
    | ConnectToHost
    | EnableHeadlessMode
    | BuildScriptsOnly
    | ForceEnableAssertions
    | CompressWithLz4
    | StrictMode

  type BuildOptions = set<BuildOption>

  /** `BuildOptions.None`. */
  const NoOptions: BuildOptions := {}

  /** The observable state of the global `PlayerSettings` the build scripts write. */
  datatype PlayerState = PlayerState(
    productName: string,
    companyName: string,
    applicationIdentifiers: map<BuildTargetGroup, string>,
    bundleVersion: string,
    iOSBuildNumber: string,
    macOSBuildNumber: string,
    tvOSBuildNumber: string,
    androidBundleVersionCode: int,
    keystoreName: string,
    keystorePass: string,
    keyaliasName: string,
    keyaliasPass: string,
    scriptingDefineSymbols: map<BuildTargetGroup, string>)

  /** `UnityEditor.PlayerSettings` with its `iOS`, `macOS`, `tvOS` and `Android` sub-settings. */
  class PlayerSettings {
    var productName: string
    var companyName: string
    var applicationIdentifiers: map<BuildTargetGroup, string>
    var bundleVersion: string
    var iOSBuildNumber: string
    var macOSBuildNumber: string
    var tvOSBuildNumber: string
    var androidBundleVersionCode: int
    var keystoreName: string
    var keystorePass: string
    var keyaliasName: string
    var keyaliasPass: string
    var scriptingDefineSymbols: map<BuildTargetGroup, string>

    function State(): PlayerState
      reads this
    {
      PlayerState(productName, companyName, applicationIdentifiers, bundleVersion,
        iOSBuildNumber, macOSBuildNumber, tvOSBuildNumber, androidBundleVersionCode,
        keystoreName, keystorePass, keyaliasName, keyaliasPass, scriptingDefineSymbols)
    }

    /** Settings as a project holds them before a build script runs. */
    constructor (s: PlayerState)
      ensures State() == s
    {
      productName := s.productName;
      companyName := s.companyName;
      applicationIdentifiers := s.applicationIdentifiers;
      bundleVersion := s.bundleVersion;
      iOSBuildNumber := s.iOSBuildNumber;
      macOSBuildNumber := s.macOSBuildNumber;
      tvOSBuildNumber := s.tvOSBuildNumber;
      androidBundleVersionCode := s.androidBundleVersionCode;
      keystoreName := s.keystoreName;
      keystorePass := s.keystorePass;
      keyaliasName := s.keyaliasName;
      keyaliasPass := s.keyaliasPass;
      scriptingDefineSymbols := s.scriptingDefineSymbols;
    }

    /** `PlayerSettings.SetApplicationIdentifier(group, identifier)`. */
    method SetApplicationIdentifier(group: BuildTargetGroup, identifier: string)
      modifies this
      ensures State() == old(State()).(applicationIdentifiers := old(applicationIdentifiers)[group := identifier])
    {
      applicationIdentifiers := applicationIdentifiers[group := identifier];
    }

    /** `PlayerSettings.SetScriptingDefineSymbolsForGroup(group, defines)`. */
    method SetScriptingDefineSymbolsForGroup(group: BuildTargetGroup, defines: string)
      modifies this
      ensures State() == old(State()).(scriptingDefineSymbols := old(scriptingDefineSymbols)[group := defines])
    {
      scriptingDefineSymbols := scriptingDefineSymbols[group := defines];
    }
  }
}
