# UnityFx.BuildTools build-configuration resolution, in Dafny

UnityFx.BuildTools is a set of Unity editor scripts for command-line and Cloud Build builds. A build
config has these parts:

- the build target and options;
- the tool and output paths;
- the Android keystore;
- the scenes and scripting defines;
- the app settings: product and company ids and names, bundle identifier;
- the version settings: bundle version, version code, build number.

The config is assembled from several sources, in this order:

1. the caller or the environment;
2. a per-platform XML file;
3. a shared XML file;
4. the output of the GitVersion tool.

The result is then applied to Unity's `PlayerSettings`.

The repository holds this logic twice, and the model keeps the two apart:

- The older tree, `UnityFx.BuildTools.Editor`, is the `Legacy*` modules.
  - Configs have scenes.
  - Apply is lax: an unset value is skipped.
  - `LoadConfig(config)` folds the config, the platform file, the shared file and the GitVersion output.
- The newer tree, `UnityFx.BuildTools`, is the `Current*` modules.
  - Configs have no scenes.
  - Apply is strict: it throws `InvalidOperationException` at the first missing value and keeps the writes made before it.
  - A `Settings` object carries the paths, and `LoadConfig(settings, target, configType, config)` checks its arguments first.

Code that is the same text in both trees is defined once. This covers the merge rules (`GetValue`, `CombineAppConfig`, `CombineVersionConfig`), the path, name and option helpers, the target-group mapping and the bundle identifier. They live in the shared modules `Coalesce` and `BuildHelpers`. `AppVersion` models `AppVersionInfo`, which reads the GitVersion output.

How the model represents the C# code:

- C# `null` is `Option.None`.
- An exception is the `Failure` or `Fail` case of `Result` or `Outcome`, naming the exception type and, for argument exceptions, the parameter name.
- `BuildConfig` is a class in each tree. Its `Value()` is the datatype `Config`.
  - `Combine` clones the receiver and fills the clone field by field, as the source does.
  - Each method is proved against a pure function (`Combined`, `CombinedVersion`, `CombinedApp`).
  - The lemmas about the merge are stated on those functions.
- `PlayerSettings` is a class whose `State()` is the datatype `PlayerState`. Each apply method is proved to leave exactly the state a pure function of the old state gives.
- The file system is a map from path to the parsed config file. `File.Exists` is membership in that map.
- The GitVersion tool is a map from its path to the text it prints.
- The older tree's process environment is a map from variable to value.
- The active build target is a parameter.
- `GetBundleVersionCode` is computed in unchecked 32-bit arithmetic and wraps as the C# code does. It is not given a precondition. A contract shows it equals the plain formula whenever that fits in an `int`.

## Model

| member | source | states |
|---|---|---|
| Coalesce.Coalesced | Unity/Assets/UnityFx.BuildTools.Editor/Scripts/Editor/BuildConfig.cs:240-252 | Reference precedence over a list of candidates: the first that is non-null and non-empty, else the last; `FillIsCoalesced` and `GetValue` are proved against it |
| Coalesce.Fill | Unity/Assets/UnityFx.BuildTools.Editor/Scripts/Editor/BuildConfig.cs:522-548 | One string field of the clone after `if (string.IsNullOrEmpty(result.F)) result.F = fallback.F;`; equal to `Coalesced([mine, fallback])` by `FillIsCoalesced` |
| Coalesce.FillInt | Unity/Assets/UnityFx.BuildTools.Editor/Scripts/Editor/BuildConfig.cs:504-520 | One integer field of the clone after `if (result.F <= 0) result.F = fallback.F;`; equal to `CoalescedInt([mine, fallback])` by `FillIntIsCoalesced` |
| Coalesce.MergeApp | Unity/Assets/UnityFx.BuildTools.Editor/Scripts/Editor/BuildConfig.cs:522-548 | The five app fields after `CombineAppConfig`, each filled from the fallback when unset; column-wise precedence by `AppColumn`, associative and idempotent by the lemmas below |
| Coalesce.MergeVersion | Unity/Assets/UnityFx.BuildTools.Editor/Scripts/Editor/BuildConfig.cs:504-520 | The bundle version, version code and build number after `CombineVersionConfig`; precedence by `MergeVersionsPrecedence`, associative and idempotent by the lemmas below |
| Coalesce.GetValue | Unity/Assets/UnityFx.BuildTools.Editor/Scripts/Editor/BuildConfig.cs:240-252 | The first of value, value2 and the default that is non-null and non-empty, else the default: the earliest-set precedence `Coalesced` over the three candidates; the result is always one of them (the newer tree's copy at BuildConfig.cs:111-123 is the same) |
| Coalesce.GetIntValue | Unity/Assets/UnityFx.BuildTools.Editor/Scripts/Editor/BuildConfig.cs:257-269 | Integer precedence where only positive values count as set; the result is positive exactly when one of the three is |
| Coalesce.FillIsCoalesced | Unity/Assets/UnityFx.BuildTools.Editor/Scripts/Editor/BuildConfig.cs:522-548 | The per-field rule of `CombineAppConfig` (replace iff null or empty) is precedence over [mine, fallback] and equals `GetValue(mine, fallback, fallback)` |
| Coalesce.FillIntIsCoalesced | Unity/Assets/UnityFx.BuildTools.Editor/Scripts/Editor/BuildConfig.cs:504-520 | The integer rule of `CombineVersionConfig` (replace iff `<= 0`) is integer precedence over [mine, fallback] and equals `GetValue(mine, fallback, fallback)` |
| Coalesce.CoalescedSnoc | Unity/Assets/UnityFx.BuildTools.Editor/Scripts/Editor/BuildConfig.cs:522-548 | Appending one more source to a precedence list is one more fill step, so a left fold of combines computes precedence |
| Coalesce.CoalescedIntSnoc | Unity/Assets/UnityFx.BuildTools.Editor/Scripts/Editor/BuildConfig.cs:504-520 | The same for the integer settings |
| Coalesce.CoalescedKeepsFirst | Unity/Assets/UnityFx.BuildTools.Editor/Scripts/Editor/BuildConfig.cs:522-548 | A value set by the first source is never overridden, and the result is unset exactly when every source leaves it unset |
| Coalesce.AppColumn | Unity/Assets/UnityFx.BuildTools.Editor/Scripts/Editor/BuildConfig.cs:522-548 | One app setting read from each source, in source order |
| Coalesce.MergeAppsPrecedence | Unity/Assets/UnityFx.BuildTools.Editor/Scripts/Editor/BuildConfig.cs:522-548 | Folding `CombineAppConfig` over any non-empty list of sources gives, for each of the five app settings, the first value set in that list |
| Coalesce.MergeVersionsPrecedence | Unity/Assets/UnityFx.BuildTools.Editor/Scripts/Editor/BuildConfig.cs:504-520 | Folding `CombineVersionConfig` gives the first set bundle version and the first positive version code and build number |
| Coalesce.MergeAppAssociative | Unity/Assets/UnityFx.BuildTools.Editor/Scripts/Editor/BuildConfig.cs:522-548 | Combining app settings is associative: the fold does not depend on how sources are grouped |
| Coalesce.MergeVersionAssociative | Unity/Assets/UnityFx.BuildTools.Editor/Scripts/Editor/BuildConfig.cs:504-520 | Combining version settings is associative |
| Coalesce.MergeAppIdempotent | Unity/Assets/UnityFx.BuildTools.Editor/Scripts/Editor/BuildConfig.cs:522-548 | Filling from the same fallback twice is filling once |
| Coalesce.MergeVersionIdempotent | Unity/Assets/UnityFx.BuildTools.Editor/Scripts/Editor/BuildConfig.cs:504-520 | Filling version settings from the same fallback twice is filling once |
| Coalesce.MergeAppNotCommutative | Unity/Assets/UnityFx.BuildTools.Editor/Scripts/Editor/BuildConfig.cs:522-548 | Source order matters: some pair of app settings combines differently in the two orders |
| Coalesce.MergeNormal | Unity/Assets/UnityFx.BuildTools.Editor/Scripts/Editor/BuildConfig.cs:504-548 | Combining with an all-unset fallback changes nothing exactly when every unset string is null and every unset number is 0; a normal fallback gives a normal result |
| Coalesce.UnionWith | Unity/Assets/UnityFx.BuildTools.Editor/Scripts/Editor/BuildConfig.cs:218-230 | `HashSet.UnionWith`: keeps the set so far as a prefix, adds exactly the missing items, and stays duplicate-free |
| Coalesce.UnionDefines | Unity/Assets/UnityFx.BuildTools.Editor/Scripts/Editor/BuildConfig.cs:218-230 | The defines after combining are duplicate-free and hold exactly the defines of either side, null counting as none |
| Coalesce.UnionWithPresent | Unity/Assets/UnityFx.BuildTools.Editor/Scripts/Editor/BuildConfig.cs:218-230 | Adding items already present changes nothing |
| Coalesce.UnionWithFresh | Unity/Assets/UnityFx.BuildTools.Editor/Scripts/Editor/BuildConfig.cs:218-230 | Adding fresh distinct items appends them in order |
| Coalesce.UnionDefinesKeeps | Unity/Assets/UnityFx.BuildTools.Editor/Scripts/Editor/BuildConfig.cs:218-230 | A duplicate-free defines list that already holds the fallback's defines comes back unchanged |
| Coalesce.UnionDefinesIdempotent | Unity/Assets/UnityFx.BuildTools.Editor/Scripts/Editor/BuildConfig.cs:218-230 | Merging the fallback's defines a second time changes nothing |
| LegacyConfig.Deserialized | Unity/Assets/UnityFx.BuildTools.Editor/Scripts/Editor/BuildConfig.cs:58-70 | A config read from XML holds exactly the file's defines, scenes, app and version settings; every `[XmlIgnore]` property keeps its default |
| LegacyConfig.ToolPathsLoaded | Unity/Assets/UnityFx.BuildTools.Editor/Scripts/Editor/BuildConfig.cs:105-124 | The GitVersion path and build path from their variables, else `BUILD_URL` for the build path, else the defaults; stated by `EnvironmentPathDefaults` |
| LegacyConfig.ConfigLocationLoaded | Unity/Assets/UnityFx.BuildTools.Editor/Scripts/Editor/BuildConfig.cs:127-140 | The config folder and name from their variables, else the defaults; stated by `EnvironmentPathDefaults` |
| LegacyConfig.KeystoreLoaded | Unity/Assets/UnityFx.BuildTools.Editor/Scripts/Editor/BuildConfig.cs:143-146 | The four keystore fields read as the variables are, null when absent; stated by `EnvironmentLoadedValues` |
| LegacyConfig.TargetLoaded | Unity/Assets/UnityFx.BuildTools.Editor/Scripts/Editor/BuildConfig.cs:149-158 | The build target parsed from `BUILD_TARGET`, else the active target; the `Enum.Parse` failure is `EnvironmentLoadedFails`'s target case |
| LegacyConfig.OptionsLoaded | Unity/Assets/UnityFx.BuildTools.Editor/Scripts/Editor/BuildConfig.cs:161-166 | `AllowDebugging \| Development` when `DEVELOPMENT_BUILD` is set, else the options unchanged; stated by `EnvironmentLoadedValues` |
| LegacyConfig.VersionLoaded | Unity/Assets/UnityFx.BuildTools.Editor/Scripts/Editor/BuildConfig.cs:183-201 | The bundle version as read and the two numbers through `int.Parse` when set; failures by `EnvironmentLoadedFails`, values by `EnvironmentNumbersParse` |
| LegacyConfig.EnvironmentLoaded | Unity/Assets/UnityFx.BuildTools.Editor/Scripts/Editor/BuildConfig.cs:102-202 | `LoadFromEnvironment` as the composition of the steps above, in source order, stopping at the first parse exception |
| LegacyConfig.EnvironmentLoadedFails | Unity/Assets/UnityFx.BuildTools.Editor/Scripts/Editor/BuildConfig.cs:102-202 | `LoadFromEnvironment` throws exactly when BUILD_TARGET, BUNDLE_VERSION_CODE or BUILD_NUMBER holds text that does not parse; an unknown target is the `ArgumentException` of `Enum.Parse` |
| LegacyConfig.EnvironmentLoadedValues | Unity/Assets/UnityFx.BuildTools.Editor/Scripts/Editor/BuildConfig.cs:102-202 | After a load the tool, output and config-name paths are non-empty, the target is the active one unless BUILD_TARGET names one, and the options are unchanged or Development with AllowDebugging; defines, scenes and app settings are untouched |
| LegacyConfig.EnvironmentPathDefaults | Unity/Assets/UnityFx.BuildTools.Editor/Scripts/Editor/BuildConfig.cs:105-140 | Each path is its variable when non-empty and its default otherwise; the build folder is BUILD_PATH, else Jenkins' BUILD_URL, else "../../Builds" |
| LegacyConfig.EnvironmentNumbersParse | Unity/Assets/UnityFx.BuildTools.Editor/Scripts/Editor/BuildConfig.cs:185-201 | A BUNDLE_VERSION_CODE written as an Int32 decimal becomes the version code; BUNDLE_VERSION is taken as it is and an empty BUILD_NUMBER keeps the old number |
| LegacyConfig.Combined | Unity/Assets/UnityFx.BuildTools.Editor/Scripts/Editor/BuildConfig.cs:209-235 | The config `Combine(IBuildConfig)` returns: each field the receiver's when set, else the argument's, defines unioned; stated field by field by `CombinedFields` and `CombinedKeepsSet` |
| LegacyConfig.CombinedVersion | Unity/Assets/UnityFx.BuildTools.Editor/Scripts/Editor/BuildConfig.cs:365-375 | The config `Combine(IVersionConfig)` returns: only the version block merged; `CombinedVersionIsPart` ties it to `Combined` |
| LegacyConfig.CombinedApp | Unity/Assets/UnityFx.BuildTools.Editor/Scripts/Editor/BuildConfig.cs:380-390 | The config `Combine(IAppConfig)` returns: only the app block merged; `Agreement.CombinedAgrees` ties it to the newer tree |
| LegacyConfig.CombinedFields | Unity/Assets/UnityFx.BuildTools.Editor/Scripts/Editor/BuildConfig.cs:209-235 | Combining never changes the target, options, paths or keystore; scenes come from the fallback only when the receiver's are null (an empty array is kept); the defines are the duplicate-free union |
| LegacyConfig.CombinedKeepsSet | Unity/Assets/UnityFx.BuildTools.Editor/Scripts/Editor/BuildConfig.cs:504-548 | A set app or version setting of the receiver survives, an unset one takes the fallback's |
| LegacyConfig.CombinedIdempotent | Unity/Assets/UnityFx.BuildTools.Editor/Scripts/Editor/BuildConfig.cs:350-360 | Combining with the same fallback again changes nothing |
| LegacyConfig.CombinedVersionIsPart | Unity/Assets/UnityFx.BuildTools.Editor/Scripts/Editor/BuildConfig.cs:365-390 | `Combine(IVersionConfig)` changes only the version settings and gives the version part of a full combine; `Combine(IAppConfig)` likewise for the app part |
| LegacyConfig.BuildConfig.constructor | Unity/Assets/UnityFx.BuildTools.Editor/Scripts/Editor/BuildConfig.cs:82 | A new config has every property null, zero or the first enum member |
| LegacyConfig.BuildConfig.FromXml | Unity/Assets/UnityFx.BuildTools.Editor/Scripts/Editor/BuildConfig.cs:58-70 | A null type throws `ArgumentNullException`, a missing file `FileNotFoundException`; otherwise a fresh config holding the file |
| LegacyConfig.BuildConfig.FromEnvironment | Unity/Assets/UnityFx.BuildTools.Editor/Scripts/Editor/BuildConfig.cs:75-85 | A fresh config loaded from the environment, failing exactly as `LoadFromEnvironment` does |
| LegacyConfig.BuildConfig.LoadFromEnvironment | Unity/Assets/UnityFx.BuildTools.Editor/Scripts/Editor/BuildConfig.cs:102-202 | The object's new value is the environment load of its old value, or the step's exception |
| LegacyConfig.BuildConfig.LoadToolPaths | Unity/Assets/UnityFx.BuildTools.Editor/Scripts/Editor/BuildConfig.cs:105-124 | Sets the GitVersion and build paths with their defaults |
| LegacyConfig.BuildConfig.LoadConfigLocation | Unity/Assets/UnityFx.BuildTools.Editor/Scripts/Editor/BuildConfig.cs:127-140 | Sets the config folder and name with their defaults |
| LegacyConfig.BuildConfig.LoadKeystore | Unity/Assets/UnityFx.BuildTools.Editor/Scripts/Editor/BuildConfig.cs:143-146 | Sets the four keystore settings from their variables, null when undefined |
| LegacyConfig.BuildConfig.LoadTarget | Unity/Assets/UnityFx.BuildTools.Editor/Scripts/Editor/BuildConfig.cs:149-158 | Sets the active target or the one BUILD_TARGET names, or throws |
| LegacyConfig.BuildConfig.LoadOptions | Unity/Assets/UnityFx.BuildTools.Editor/Scripts/Editor/BuildConfig.cs:161-166 | A non-empty DEVELOPMENT_BUILD sets the options to Development with AllowDebugging |
| LegacyConfig.BuildConfig.LoadVersion | Unity/Assets/UnityFx.BuildTools.Editor/Scripts/Editor/BuildConfig.cs:185-201 | Sets the bundle version and the two parsed numbers, or throws the `int.Parse` exception |
| LegacyConfig.BuildConfig.ParseSetting | Unity/Assets/UnityFx.BuildTools.Editor/Scripts/Editor/BuildConfig.cs:188-193 | An empty variable keeps the current number, otherwise `int.Parse` of it |
| LegacyConfig.BuildConfig.CombineInto | Unity/Assets/UnityFx.BuildTools.Editor/Scripts/Editor/BuildConfig.cs:209-235 | Filling the clone makes it the combined config and changes nothing else |
| LegacyConfig.BuildConfig.CombineVersionConfig | Unity/Assets/UnityFx.BuildTools.Editor/Scripts/Editor/BuildConfig.cs:504-520 | Fills only the clone's unset version settings |
| LegacyConfig.BuildConfig.CombineAppConfig | Unity/Assets/UnityFx.BuildTools.Editor/Scripts/Editor/BuildConfig.cs:522-548 | Fills only the clone's unset app settings |
| LegacyConfig.BuildConfig.Combine | Unity/Assets/UnityFx.BuildTools.Editor/Scripts/Editor/BuildConfig.cs:350-360 | A null fallback throws `ArgumentNullException("fallbackConfig")`; otherwise a fresh object holding the combined config, the receiver untouched |
| LegacyConfig.BuildConfig.CombineVersion | Unity/Assets/UnityFx.BuildTools.Editor/Scripts/Editor/BuildConfig.cs:365-375 | Null throws; otherwise a fresh object with only the version settings filled |
| LegacyConfig.BuildConfig.CombineApp | Unity/Assets/UnityFx.BuildTools.Editor/Scripts/Editor/BuildConfig.cs:380-390 | Null throws; otherwise a fresh object with only the app settings filled |
| CurrentConfig.Combined | Unity/Assets/UnityFx.BuildTools/Scripts/Editor/BuildConfig.cs:86-106 | The config `Combine(IBuildConfig)` returns in the newer tree: defines unioned, app and version merged; identities by `CombinedWithEmpty`, `EmptyCombined`, `CombinedIdempotent` |
| CurrentConfig.CombinedVersion | Unity/Assets/UnityFx.BuildTools/Scripts/Editor/BuildConfig.cs:170-180 | The config `Combine(IVersionConfig)` returns: only the version block merged |
| CurrentConfig.CombinedApp | Unity/Assets/UnityFx.BuildTools/Scripts/Editor/BuildConfig.cs:185-195 | The config `Combine(IAppConfig)` returns: only the app block merged |
| CurrentConfig.CombinedNormalized | Unity/Assets/UnityFx.BuildTools/Scripts/Editor/BuildConfig.cs:86-106 | Combining with a normal fallback gives a normal config |
| CurrentConfig.CombinedWithEmpty | Unity/Assets/UnityFx.BuildTools/Scripts/Editor/BuildConfig.cs:86-106 | Combining a normal config with the empty config that `FromEnvironment` returns gives it back |
| CurrentConfig.EmptyCombined | Unity/Assets/UnityFx.BuildTools/Scripts/Editor/BuildConfig.cs:86-106 | Combining the empty config with a fallback gives the fallback, with its defines deduplicated |
| CurrentConfig.CombinedIdempotent | Unity/Assets/UnityFx.BuildTools/Scripts/Editor/BuildConfig.cs:155-165 | Combining with the same fallback again changes nothing |
| CurrentConfig.BuildConfig.constructor | Unity/Assets/UnityFx.BuildTools/Scripts/Editor/BuildConfig.cs:53-67 | A new config has every setting unset |
| CurrentConfig.BuildConfig.FromXml | Unity/Assets/UnityFx.BuildTools/Scripts/Editor/BuildConfig.cs:36-48 | A missing file throws `FileNotFoundException`; otherwise a fresh config holding the file (a null type means `BuildConfig`) |
| CurrentConfig.BuildConfig.FromEnvironment | Unity/Assets/UnityFx.BuildTools/Scripts/Editor/BuildConfig.cs:53-67 | The prefix is ignored: a fresh config with every setting unset |
| CurrentConfig.BuildConfig.CombineInto | Unity/Assets/UnityFx.BuildTools/Scripts/Editor/BuildConfig.cs:86-106 | Filling the clone makes it the combined config: defines union, app and version settings filled |
| CurrentConfig.BuildConfig.CombineVersionConfig | Unity/Assets/UnityFx.BuildTools/Scripts/Editor/BuildConfig.cs:285-301 | Fills only the clone's unset version settings |
| CurrentConfig.BuildConfig.CombineAppConfig | Unity/Assets/UnityFx.BuildTools/Scripts/Editor/BuildConfig.cs:303-329 | Fills only the clone's unset app settings |
| CurrentConfig.BuildConfig.Combine | Unity/Assets/UnityFx.BuildTools/Scripts/Editor/BuildConfig.cs:155-165 | Null throws `ArgumentNullException("fallbackConfig")`; otherwise a fresh object holding the combined config |
| CurrentConfig.BuildConfig.CombineVersion | Unity/Assets/UnityFx.BuildTools/Scripts/Editor/BuildConfig.cs:170-180 | Null throws; otherwise a fresh object with the version settings filled |
| CurrentConfig.BuildConfig.CombineApp | Unity/Assets/UnityFx.BuildTools/Scripts/Editor/BuildConfig.cs:185-195 | Null throws; otherwise a fresh object with the app settings filled |
| Agreement.CombinedAgrees | Unity/Assets/UnityFx.BuildTools/Scripts/Editor/BuildConfig.cs:86-106 | On the defines, app and version settings both trees' three combines give the same result |
| AppVersion.GetBundleVersionCode | Unity/Assets/UnityFx.BuildTools/Scripts/Editor/AppVersionInfo.cs:182-185 | The code is an Int32, equal to `100000000*major + 1000000*minor + 10000*patch + build` whenever that fits |
| AppVersion.BundleVersionCodeDecodes | Unity/Assets/UnityFx.BuildTools/Scripts/Editor/AppVersionInfo.cs:182-185 | With major up to 20, minor and patch below 100 and build below 10000 the code decodes back into the four components |
| AppVersion.BundleVersionCodeOrdered | Unity/Assets/UnityFx.BuildTools/Scripts/Editor/AppVersionInfo.cs:182-185 | Within those ranges a higher version gives a higher code |
| AppVersion.BundleVersionCodeExample | Unity/Assets/UnityFx.BuildTools/Scripts/Editor/AppVersionInfo.cs:182-185 | (1, 2, 3, 4) gives 102030004 |
| AppVersion.BundleVersionCodeWraps | Unity/Assets/UnityFx.BuildTools/Scripts/Editor/AppVersionInfo.cs:182-185 | Major 22 overflows to a negative code |
| AppVersion.GetJsonNumber | Unity/Assets/UnityFx.BuildTools/Scripts/Editor/AppVersionInfo.cs:246-252 | Succeeds exactly when some `','` follows the start offset (first index of the key plus its length plus 2); the value is the text up to that comma; otherwise `ArgumentOutOfRangeException` |
| AppVersion.GetJsonValue | Unity/Assets/UnityFx.BuildTools/Scripts/Editor/AppVersionInfo.cs:254-260 | The same with offset plus 3 and `'"'` as terminator |
| AppVersion.IndexOfFirst | Unity/Assets/UnityFx.BuildTools/Scripts/Editor/AppVersionInfo.cs:246-252 | The lookup starts at the first occurrence of the key |
| AppVersion.JsonNumberReads | Unity/Assets/UnityFx.BuildTools/Scripts/Editor/AppVersionInfo.cs:246-252 | For text holding `key":value,` at the key's first occurrence the number read is exactly the value |
| AppVersion.JsonValueReads | Unity/Assets/UnityFx.BuildTools/Scripts/Editor/AppVersionInfo.cs:254-260 | For text holding `key":"value"` at the key's first occurrence the string read is exactly the value |
| AppVersion.JsonNumberExample | Unity/Assets/UnityFx.BuildTools/Scripts/Editor/AppVersionInfo.cs:246-252 | `"Major":1,` gives "1" |
| AppVersion.JsonValueExample | Unity/Assets/UnityFx.BuildTools/Scripts/Editor/AppVersionInfo.cs:254-260 | `"BranchName":"master"` gives "master" |
| AppVersion.AbsentKeyStillReads | Unity/Assets/UnityFx.BuildTools/Scripts/Editor/AppVersionInfo.cs:246-252 | An absent key does not always throw: `IndexOf` gives -1 and the read starts at the key's length plus 1 |
| AppVersion.ReadNumbers | Unity/Assets/UnityFx.BuildTools/Scripts/Editor/AppVersionInfo.cs:136-139 | The four numeric fields are read in order; a failure is `ArgumentOutOfRangeException` |
| AppVersion.ParseNumbers | Unity/Assets/UnityFx.BuildTools/Scripts/Editor/AppVersionInfo.cs:142-145 | Each parsed number is an Int32; a failure is `FormatException` or `OverflowException` |
| AppVersion.ReadStrings | Unity/Assets/UnityFx.BuildTools/Scripts/Editor/AppVersionInfo.cs:147-149 | The three string fields are read in order; a failure is `ArgumentOutOfRangeException` |
| AppVersion.Parse | Unity/Assets/UnityFx.BuildTools/Scripts/Editor/AppVersionInfo.cs:136-150 | A successful parse has the version code of (major, minor, patch, commits), the `Version` (major, minor, commits, patch), non-negative Int32 components and the given build number; failures are one of the three exceptions |
| AppVersion.ParseReadsFields | Unity/Assets/UnityFx.BuildTools/Scripts/Editor/AppVersionInfo.cs:136-150 | Output that prints every field gives back exactly those fields |
| AppVersion.ParseRejectsNonNumber | Unity/Assets/UnityFx.BuildTools/Scripts/Editor/AppVersionInfo.cs:142-145 | A non-numeric Major throws `FormatException` |
| AppVersion.ParseFailsOnNumbers | Unity/Assets/UnityFx.BuildTools/Scripts/Editor/AppVersionInfo.cs:142-145 | A number field `int.Parse` rejects makes the constructor throw that same exception |
| AppVersion.LetterMajorRejected | Unity/Assets/UnityFx.BuildTools/Scripts/Editor/AppVersionInfo.cs:142 | A Major field that is a letter throws `FormatException` before the other numbers are parsed |
| AppVersion.IsRelease | Unity/Assets/UnityFx.BuildTools/Scripts/Editor/AppVersionInfo.cs:83-89 | `IsRelease`: the branch name contains "release" or is "master"; `IsReleaseExamples` and `NoRelease` pin it down |
| AppVersion.BundleVersion | Unity/Assets/UnityFx.BuildTools/Scripts/Editor/AppVersionInfo.cs:194-209 | `BundleVersion` off iOS: "major.minor.patch.commits" on a release branch, else the SemVer; stated by `ReleaseBundleVersion` and `PreReleaseBundleVersion` |
| AppVersion.BuildNumber | Unity/Assets/UnityFx.BuildTools/Scripts/Editor/AppVersionInfo.cs:225-231 | `BuildNumber`: the constructor's number when positive, else the commit count; `BuildNumberIsFill` shows it is the integer merge rule |
| AppVersion.AsVersionConfig | Unity/Assets/UnityFx.BuildTools/Scripts/Editor/AppVersionInfo.cs:194-231 | The version-config view always has a bundle version |
| AppVersion.BuildNumberIsFill | Unity/Assets/UnityFx.BuildTools/Scripts/Editor/AppVersionInfo.cs:225-231 | `BuildNumber` is the given number when positive, else the commit count: the same rule as the config merge |
| AppVersion.ReleaseBundleVersion | Unity/Assets/UnityFx.BuildTools/Scripts/Editor/AppVersionInfo.cs:194-209 | On a release branch the bundle version is MajorMinorPatch, a dot, and a decimal that parses back to the commit count |
| AppVersion.PreReleaseBundleVersion | Unity/Assets/UnityFx.BuildTools/Scripts/Editor/AppVersionInfo.cs:194-209 | Off a release branch the bundle version is the SemVer |
| AppVersion.IsReleaseExamples | Unity/Assets/UnityFx.BuildTools/Scripts/Editor/AppVersionInfo.cs:83-89 | "release" matches anywhere and case-sensitively; "master" only as the whole name |
| AppVersion.NoRelease | Unity/Assets/UnityFx.BuildTools/Scripts/Editor/AppVersionInfo.cs:83-89 | A name in which no "r" is followed by "e" does not contain "release" |
| BuildHelpers.GetBuildTargetGroup | Unity/Assets/UnityFx.BuildTools.Editor/Scripts/Editor/BuildUtility.cs:152-171 | Android, iOS, tvOS and WebGL map to their own groups and every other target to Standalone, in both directions (the newer tree's copy at BuildUtility.cs:138-157 is the same) |
| BuildHelpers.GetBundleIdentifier | Unity/Assets/UnityFx.BuildTools.Editor/Scripts/Editor/BuildUtility.cs:135-147 | The explicit identifier when set; empty exactly when there is neither an identifier nor both ids |
| BuildHelpers.DerivedIdentifierParts | Unity/Assets/UnityFx.BuildTools.Editor/Scripts/Editor/BuildUtility.cs:135-147 | A derived identifier splits at its dots into "com", the company id and the product id |
| BuildHelpers.GetSharedConfigPath | Unity/Assets/UnityFx.BuildTools.Editor/Scripts/Editor/BuildScript.cs:307-310 | Succeeds exactly when the folder and the name are non-null |
| BuildHelpers.GetConfigPath | Unity/Assets/UnityFx.BuildTools.Editor/Scripts/Editor/BuildScript.cs:312-322 | Succeeds exactly when the folder and the name are non-null, otherwise throws as `Path.Combine` does (the newer tree's copy at BuildScript.cs:308-318 is the same) |
| BuildHelpers.NoTargetPathIsShared | Unity/Assets/UnityFx.BuildTools.Editor/Scripts/Editor/BuildScript.cs:312-322 | With NoTarget the platform path is the shared path |
| BuildHelpers.ConfigPathsDistinct | Unity/Assets/UnityFx.BuildTools.Editor/Scripts/Editor/BuildScript.cs:312-322 | Different targets, NoTarget included, get different config paths |
| BuildHelpers.InfixesDiffer | Unity/Assets/UnityFx.BuildTools.Editor/Scripts/Editor/BuildScript.cs:312-322 | Paths that differ only in the inserted part differ |
| BuildHelpers.ExecutableExtension | Unity/Assets/UnityFx.BuildTools.Editor/Scripts/Editor/BuildScript.cs:355-376 | Every extension is four characters |
| BuildHelpers.GetExecutableName | Unity/Assets/UnityFx.BuildTools.Editor/Scripts/Editor/BuildScript.cs:355-376 | The name, or "app" when empty, followed by the target's extension (the newer tree's copy at BuildScript.cs:330-351 is the same) |
| BuildHelpers.BuildFolderName | Unity/Assets/UnityFx.BuildTools.Editor/Scripts/Editor/BuildScript.cs:378-399 | The folder name is never empty |
| BuildHelpers.GetBuildPath | Unity/Assets/UnityFx.BuildTools/Scripts/Editor/BuildScript.cs:353-363 | Succeeds exactly when the build folder is non-null, else `ArgumentNullException("path1")` |
| BuildHelpers.BuildFolderNameShape | Unity/Assets/UnityFx.BuildTools.Editor/Scripts/Editor/BuildScript.cs:378-399 | The folder name is "v" and the version, preceded by the name and "_" when there is a name |
| BuildHelpers.BuildPathLayout | Unity/Assets/UnityFx.BuildTools.Editor/Scripts/Editor/BuildScript.cs:378-399 | A relative build folder gives `folder/name_vversion/target` |
| BuildHelpers.NameNotRooted | Unity/Assets/UnityFx.BuildTools.Editor/Scripts/Editor/BuildScript.cs:378-399 | A target name is never a rooted path, so it is always appended |
| BuildHelpers.GetBuildOptions | Unity/Assets/UnityFx.BuildTools.Editor/Scripts/Editor/BuildScript.cs:345-353 | Debug gives exactly Development and AllowDebugging, otherwise None (the newer tree's copy at BuildScript.cs:320-328 is the same) |
| LegacyUtility.AppApplied | Unity/Assets/UnityFx.BuildTools.Editor/Scripts/Editor/BuildUtility.cs:101-130 | The settings after the lax app apply; its frame by `AppAppliedFrame` |
| LegacyUtility.VersionApplied | Unity/Assets/UnityFx.BuildTools.Editor/Scripts/Editor/BuildUtility.cs:74-95 | The settings after the lax version apply; its frame by `VersionAppliedFrame`, the build number by `BuildNumberReadsBack` |
| LegacyUtility.KeystoreApplied | Unity/Assets/UnityFx.BuildTools.Editor/Scripts/Editor/BuildUtility.cs:36-54 | The keystore settings after the lax apply: names when non-empty, passwords when non-null; stated by `EmptyPasswordWritten` |
| LegacyUtility.DefinesApplied | Unity/Assets/UnityFx.BuildTools.Editor/Scripts/Editor/BuildUtility.cs:65-68 | The joined defines written to the config target's group when non-null; read back by `DefinesReadBack` |
| LegacyUtility.BuildApplied | Unity/Assets/UnityFx.BuildTools.Editor/Scripts/Editor/BuildUtility.cs:31-69 | App, version, keystore then defines, in source order; idempotent by `BuildAppliedIdempotent` |
| LegacyUtility.Preferred | Unity/Assets/UnityFx.BuildTools.Editor/Scripts/Editor/BuildUtility.cs:103-121 | The name written is the preferred value if set, else the second, else the current one |
| LegacyUtility.AppAppliedFrame | Unity/Assets/UnityFx.BuildTools.Editor/Scripts/Editor/BuildUtility.cs:101-130 | Apply writes only the product and company names and the target group's identifier, and the identifier only when one can be derived |
| LegacyUtility.VersionAppliedFrame | Unity/Assets/UnityFx.BuildTools.Editor/Scripts/Editor/BuildUtility.cs:74-95 | Apply writes only the bundle version, the three build numbers (all the same) and the Android version code |
| LegacyUtility.UnsetConfigChangesNothing | Unity/Assets/UnityFx.BuildTools.Editor/Scripts/Editor/BuildUtility.cs:31-130 | A config with nothing set leaves `PlayerSettings` as it is |
| LegacyUtility.BuildAppliedIdempotent | Unity/Assets/UnityFx.BuildTools.Editor/Scripts/Editor/BuildUtility.cs:31-69 | Applying a config twice is applying it once |
| LegacyUtility.BuildNumberReadsBack | Unity/Assets/UnityFx.BuildTools.Editor/Scripts/Editor/BuildUtility.cs:74-95 | The written build number parses back to the config's, the same for iOS, macOS and tvOS |
| LegacyUtility.EmptyPasswordWritten | Unity/Assets/UnityFx.BuildTools.Editor/Scripts/Editor/BuildUtility.cs:36-54 | An empty password is written, an empty keystore name is not |
| LegacyUtility.DefinesReadBack | Unity/Assets/UnityFx.BuildTools.Editor/Scripts/Editor/BuildUtility.cs:65-68 | The group's define symbols split at ';' into the config's defines |
| LegacyUtility.GetDefaultStore | Unity/Assets/UnityFx.BuildTools.Editor/Scripts/Editor/BuildUtility.cs:186-205 | Android gives Google Play, iOS and tvOS the Apple store, the OS X standalones the Mac store, the Windows standalones WinRT, in both directions; otherwise NotSpecified |
| LegacyUtility.ApplyAppConfig | Unity/Assets/UnityFx.BuildTools.Editor/Scripts/Editor/BuildUtility.cs:101-130 | The new settings are the lax app apply of the old ones |
| LegacyUtility.ApplyVersionConfig | Unity/Assets/UnityFx.BuildTools.Editor/Scripts/Editor/BuildUtility.cs:74-95 | The new settings are the lax version apply of the old ones |
| LegacyUtility.ApplyBuildConfig | Unity/Assets/UnityFx.BuildTools.Editor/Scripts/Editor/BuildUtility.cs:31-69 | The new settings are app, version, keystore and defines applied in turn |
| LegacyUtility.ApplyKeystore | Unity/Assets/UnityFx.BuildTools.Editor/Scripts/Editor/BuildUtility.cs:36-54 | Keystore and alias names are written when non-empty, passwords when non-null; nothing else changes |
| CurrentUtility.ProductNamed | Unity/Assets/UnityFx.BuildTools/Scripts/Editor/BuildUtility.cs:92-104 | The product-name step: the name, else the id, else `InvalidOperationException` with nothing written |
| CurrentUtility.CompanyNamed | Unity/Assets/UnityFx.BuildTools/Scripts/Editor/BuildUtility.cs:106-118 | The company-name step: the name, else the id, else the exception with nothing written |
| CurrentUtility.Identified | Unity/Assets/UnityFx.BuildTools/Scripts/Editor/BuildUtility.cs:120-132 | The identifier step for the active group: explicit, else derived from both ids, else the exception |
| CurrentUtility.AppApplied | Unity/Assets/UnityFx.BuildTools/Scripts/Editor/BuildUtility.cs:90-133 | The three steps in order, stopping at the first throw with earlier writes kept; failures by `AppAppliedFails`, partial state by `AppAppliedPartial` |
| CurrentUtility.VersionApplied | Unity/Assets/UnityFx.BuildTools/Scripts/Editor/BuildUtility.cs:51-84 | Bundle version, build numbers, version code in order, stopping at the first throw; failures by `VersionAppliedFails`, partial state by `VersionAppliedPartial` |
| CurrentUtility.BuildApplied | Unity/Assets/UnityFx.BuildTools/Scripts/Editor/BuildUtility.cs:30-45 | App, version, then the joined defines for the active group; failures by `BuildAppliedFails`, idempotence by `BuildAppliedIdempotent` |
| CurrentUtility.AppAppliedFails | Unity/Assets/UnityFx.BuildTools/Scripts/Editor/BuildUtility.cs:90-133 | The app apply throws `InvalidOperationException` exactly when there is no product name or id, no company name or id, or no identifier to use or derive; success writes the derived identifier to the active group |
| CurrentUtility.VersionAppliedFails | Unity/Assets/UnityFx.BuildTools/Scripts/Editor/BuildUtility.cs:51-84 | The version apply throws exactly when the bundle version is empty, the build number is not positive or the version code is not positive |
| CurrentUtility.VersionAppliedPartial | Unity/Assets/UnityFx.BuildTools/Scripts/Editor/BuildUtility.cs:51-84 | Writes before a failing check stay: a missing build number leaves only the bundle version written |
| CurrentUtility.AppAppliedPartial | Unity/Assets/UnityFx.BuildTools/Scripts/Editor/BuildUtility.cs:90-118 | A failing product check writes nothing; a failing company check leaves only the product name written |
| CurrentUtility.BuildAppliedFails | Unity/Assets/UnityFx.BuildTools/Scripts/Editor/BuildUtility.cs:30-45 | The whole apply fails exactly when the app or version settings are incomplete or the defines are null; null defines alone give `ArgumentNullException("value")` from `string.Join` |
| CurrentUtility.AppAppliedIdempotent | Unity/Assets/UnityFx.BuildTools/Scripts/Editor/BuildUtility.cs:90-133 | A successful app apply, repeated, succeeds and changes nothing more |
| CurrentUtility.ProductNamedStable | Unity/Assets/UnityFx.BuildTools/Scripts/Editor/BuildUtility.cs:92-104 | The product-name step succeeds without change on settings that already hold the name it writes |
| CurrentUtility.CompanyNamedStable | Unity/Assets/UnityFx.BuildTools/Scripts/Editor/BuildUtility.cs:106-118 | The company-name step succeeds without change on settings that already hold the name it writes |
| CurrentUtility.IdentifiedStable | Unity/Assets/UnityFx.BuildTools/Scripts/Editor/BuildUtility.cs:120-132 | The identifier step succeeds without change on settings whose active group already holds the identifier it writes |
| CurrentUtility.AppAppliedStable | Unity/Assets/UnityFx.BuildTools/Scripts/Editor/BuildUtility.cs:90-133 | The app apply succeeds without change on any settings that hold the product name, company name and active-group identifier a successful apply writes |
| CurrentUtility.VersionAppliedIdempotent | Unity/Assets/UnityFx.BuildTools/Scripts/Editor/BuildUtility.cs:51-84 | A successful version apply, repeated, succeeds and changes nothing more |
| CurrentUtility.VersionAppliedStable | Unity/Assets/UnityFx.BuildTools/Scripts/Editor/BuildUtility.cs:51-84 | The version apply succeeds without change on any settings that hold the bundle version, build numbers and version code a successful apply writes |
| CurrentUtility.BuildAppliedIdempotent | Unity/Assets/UnityFx.BuildTools/Scripts/Editor/BuildUtility.cs:30-45 | A successful apply, repeated, succeeds and changes nothing more |
| CurrentUtility.ApplyAppConfig | Unity/Assets/UnityFx.BuildTools/Scripts/Editor/BuildUtility.cs:90-133 | The new settings and the outcome are the strict app apply of the old settings |
| CurrentUtility.ApplyProductName | Unity/Assets/UnityFx.BuildTools/Scripts/Editor/BuildUtility.cs:92-104 | Writes the product name, else the product id, else throws `InvalidOperationException` with nothing written |
| CurrentUtility.ApplyCompanyName | Unity/Assets/UnityFx.BuildTools/Scripts/Editor/BuildUtility.cs:106-118 | Writes the company name, else the company id, else throws with nothing written |
| CurrentUtility.ApplyIdentifier | Unity/Assets/UnityFx.BuildTools/Scripts/Editor/BuildUtility.cs:120-132 | Writes the explicit identifier, else "com.company.product", to the active group, else throws with nothing written |
| CurrentUtility.ApplyVersionConfig | Unity/Assets/UnityFx.BuildTools/Scripts/Editor/BuildUtility.cs:51-84 | The new settings and the outcome are the strict version apply |
| CurrentUtility.ApplyBuildConfig | Unity/Assets/UnityFx.BuildTools/Scripts/Editor/BuildUtility.cs:30-45 | The new settings and the outcome are app, version and defines applied in turn, stopping at the first exception |
| Agreement.StrictAppAgreesWithLax | Unity/Assets/UnityFx.BuildTools/Scripts/Editor/BuildUtility.cs:90-133 | A strict app apply that succeeds leaves the settings the lax apply leaves |
| Agreement.StrictVersionAgreesWithLax | Unity/Assets/UnityFx.BuildTools/Scripts/Editor/BuildUtility.cs:51-84 | A strict version apply that succeeds leaves the settings the lax apply leaves |
| Agreement.LaxWritesWhatStrictRejects | Unity/Assets/UnityFx.BuildTools/Scripts/Editor/BuildUtility.cs:51-61 | With an empty bundle version the strict apply throws before writing, while the lax one still writes the build numbers |
| LegacyScript.GetStoreConfigPath | Unity/Assets/UnityFx.BuildTools.Editor/Scripts/Editor/BuildScript.cs:326-341 | Succeeds exactly when the folder and the name are non-null |
| LegacyScript.StoreConfigPathIsPlatformPath | Unity/Assets/UnityFx.BuildTools.Editor/Scripts/Editor/BuildScript.cs:326-341 | The store-aware path is the plain platform path exactly when the store is unspecified or the target's default |
| LegacyScript.GetBuildPath | Unity/Assets/UnityFx.BuildTools.Editor/Scripts/Editor/BuildScript.cs:378-399 | Succeeds exactly when the config's build folder is non-null, else `ArgumentNullException("path1")` |
| LegacyScript.FileCombined | Unity/Assets/UnityFx.BuildTools.Editor/Scripts/Editor/BuildScript.cs:154-166 | One file step: `config.Combine(FromXml(path))` when the file exists, else the config unchanged |
| LegacyScript.VersionCombined | Unity/Assets/UnityFx.BuildTools.Editor/Scripts/Editor/BuildScript.cs:168-172 | The GitVersion step: the parsed output combined into the version block when the tool exists, else unchanged |
| LegacyScript.Loaded | Unity/Assets/UnityFx.BuildTools.Editor/Scripts/Editor/BuildScript.cs:130-173 | `LoadConfig(config)`: the config, the platform file, the shared file, then the tool; a fold of `Combined` by `LoadedFold`, precedence by `LoadedPrecedence` |
| LegacyScript.Flagged | Unity/Assets/UnityFx.BuildTools.Editor/Scripts/Editor/BuildScript.cs:114-123 | The target and, for a development build, the development options set on the loaded config |
| LegacyScript.LoadedFor | Unity/Assets/UnityFx.BuildTools.Editor/Scripts/Editor/BuildScript.cs:106-125 | `LoadConfig(target, developmentBuild, configType)`: the environment config loaded then flagged; stated by `LoadedForTargetAndOptions` |
| LegacyScript.LoadedFails | Unity/Assets/UnityFx.BuildTools.Editor/Scripts/Editor/BuildScript.cs:130-173 | A load throws only for a null config folder or name (`Path.Combine`) or unreadable GitVersion output, and always succeeds without the tool |
| LegacyScript.LoadedWithoutSources | Unity/Assets/UnityFx.BuildTools.Editor/Scripts/Editor/BuildScript.cs:154-172 | With no file and no tool the config comes back unchanged |
| LegacyScript.FoldSnoc | Unity/Assets/UnityFx.BuildTools.Editor/Scripts/Editor/BuildScript.cs:154-166 | One more combine step extends the fold by one source |
| LegacyScript.FilesFold | Unity/Assets/UnityFx.BuildTools.Editor/Scripts/Editor/BuildScript.cs:154-166 | The two file steps are the fold over the config and the files that exist, in order; everything but the app and version settings (and defines, scenes) stays the config's |
| LegacyScript.LoadedFold | Unity/Assets/UnityFx.BuildTools.Editor/Scripts/Editor/BuildScript.cs:130-173 | The loaded app settings are the fold over the config, the platform file and the shared file; the version settings also fold in the GitVersion output last; location, target, options, paths and keystore are the config's |
| LegacyScript.LoadedPrecedence | Unity/Assets/UnityFx.BuildTools.Editor/Scripts/Editor/BuildScript.cs:154-172 | Each app setting is the first set value among the config, the platform file and the shared file, and one the config sets is never overridden |
| LegacyScript.LoadedVersionPrecedence | Unity/Assets/UnityFx.BuildTools.Editor/Scripts/Editor/BuildScript.cs:154-172 | Each version setting is the first set value among the config, the files and the GitVersion output, in that order: the files' bundle version takes precedence over the GitVersion output |
| LegacyScript.NoTargetReadsSharedOnce | Unity/Assets/UnityFx.BuildTools.Editor/Scripts/Editor/BuildScript.cs:150-166 | With NoTarget the shared file is combined twice, and the second time changes nothing |
| LegacyScript.LoadedForTargetAndOptions | Unity/Assets/UnityFx.BuildTools.Editor/Scripts/Editor/BuildScript.cs:106-125 | The loaded config builds for the given target; a development build adds Development and AllowDebugging to the options without clearing any; it always has a build folder |
| LegacyScript.LoadConfigFor | Unity/Assets/UnityFx.BuildTools.Editor/Scripts/Editor/BuildScript.cs:106-125 | Returns the environment config, flagged and loaded, or the exception thrown on the way |
| LegacyScript.Flag | Unity/Assets/UnityFx.BuildTools.Editor/Scripts/Editor/BuildScript.cs:114-123 | Sets the target and ORs in the development flags |
| LegacyScript.LoadConfig | Unity/Assets/UnityFx.BuildTools.Editor/Scripts/Editor/BuildScript.cs:130-173 | Null throws `ArgumentNullException("config")`; otherwise returns the loaded config or its exception |
| LegacyScript.CombineFile | Unity/Assets/UnityFx.BuildTools.Editor/Scripts/Editor/BuildScript.cs:154-166 | Combines the file when it exists, otherwise returns the config |
| LegacyScript.CombineVersionInfo | Unity/Assets/UnityFx.BuildTools.Editor/Scripts/Editor/BuildScript.cs:168-172 | Combines the GitVersion output when the tool exists, read with the config's build number |
| CurrentScript.Validated | Unity/Assets/UnityFx.BuildTools/Scripts/Editor/BuildScript.cs:75-101 | Validated settings are always usable: four non-empty paths and a non-null prefix |
| CurrentScript.DefaultsValid | Unity/Assets/UnityFx.BuildTools/Scripts/Editor/BuildScript.cs:63-70 | The defaults are usable and `Validate` leaves them alone |
| CurrentScript.ValidatedFixesExactlyInvalid | Unity/Assets/UnityFx.BuildTools/Scripts/Editor/BuildScript.cs:75-101 | `Validate` changes the settings exactly when they are not usable, and is idempotent |
| CurrentScript.ValidatedKeepsSet | Unity/Assets/UnityFx.BuildTools/Scripts/Editor/BuildScript.cs:75-101 | Set paths are kept and unset ones reset; an empty prefix is kept, only a null one is reset |
| CurrentScript.ValidatedBuildPath | Unity/Assets/UnityFx.BuildTools/Scripts/Editor/BuildScript.cs:230-233 | After `Validate`, the build path `Build` forms from the settings' build folder can always be formed |
| CurrentScript.Settings.constructor | Unity/Assets/UnityFx.BuildTools/Scripts/Editor/BuildScript.cs:63-70 | A new `Settings` holds the five defaults |
| CurrentScript.Settings.Validate | Unity/Assets/UnityFx.BuildTools/Scripts/Editor/BuildScript.cs:75-101 | The new settings are the validated old ones |
| CurrentScript.Started | Unity/Assets/UnityFx.BuildTools/Scripts/Editor/BuildScript.cs:174-177 | The caller config combined with the (empty) environment config, or null |
| CurrentScript.PlatformCombined | Unity/Assets/UnityFx.BuildTools/Scripts/Editor/BuildScript.cs:179-183 | The platform step as written: the environment config combined with the platform file replaces the working config |
| CurrentScript.SharedCombined | Unity/Assets/UnityFx.BuildTools/Scripts/Editor/BuildScript.cs:185-189 | The shared step: combined into the working config, `NullReferenceException` when that is null |
| CurrentScript.VersionCombined | Unity/Assets/UnityFx.BuildTools/Scripts/Editor/BuildScript.cs:191-195 | The GitVersion step: the output parsed with build number 0, then combined, or `NullReferenceException` on a null config |
| CurrentScript.Loaded | Unity/Assets/UnityFx.BuildTools/Scripts/Editor/BuildScript.cs:151-198 | `LoadConfig(settings, target, configType, config)` as written: argument checks, `Validate`, then the four steps; stated by the lemmas below |
| CurrentScript.LoadedArgumentChecks | Unity/Assets/UnityFx.BuildTools/Scripts/Editor/BuildScript.cs:153-166 | NoTarget throws `ArgumentException`, then null settings and then a null type throw `ArgumentNullException`, in that order; any other failure is a null dereference or a GitVersion read failure |
| CurrentScript.LoadedNothing | Unity/Assets/UnityFx.BuildTools/Scripts/Editor/BuildScript.cs:174-197 | With no caller config and no file or tool, the result is null |
| CurrentScript.NullConfigSharedFileThrows | Unity/Assets/UnityFx.BuildTools/Scripts/Editor/BuildScript.cs:185-189 | With no caller config and no platform file, an existing shared file makes the load throw `NullReferenceException` |
| CurrentScript.CallerConfigDiscarded | Unity/Assets/UnityFx.BuildTools/Scripts/Editor/BuildScript.cs:174-183 | Once the platform file exists, any two caller configs load the same result |
| CurrentScript.LoadedPlatformOnly | Unity/Assets/UnityFx.BuildTools/Scripts/Editor/BuildScript.cs:174-197 | With only the platform file present and no GitVersion tool, a load without a caller config returns that file combined with the empty environment config |
| CurrentScript.CallerBuildNumberLost | Unity/Assets/UnityFx.BuildTools/Scripts/Editor/BuildScript.cs:174-183 | A caller's build number 7 comes back as 0 for Android with an empty platform file |
| CurrentScript.LoadedIntended | Unity/Assets/UnityFx.BuildTools/Scripts/Editor/BuildScript.cs:174-197 | The corrected fold: the caller config (or the environment config) then platform file, shared file and tool; never dereferences null (`IntendedFailsOnlyOnTool`), keeps the caller's settings (`IntendedKeepsCaller`) |
| CurrentScript.IntendedFailsOnlyOnTool | Unity/Assets/UnityFx.BuildTools/Scripts/Editor/BuildScript.cs:174-197 | The corrected fold, with valid arguments, fails only when the GitVersion output exists and cannot be read |
| CurrentScript.IntendedKeepsCaller | Unity/Assets/UnityFx.BuildTools/Scripts/Editor/BuildScript.cs:174-197 | The corrected fold keeps every app setting and positive version number the caller sets |
| CurrentScript.IntendedAgreesWithoutCaller | Unity/Assets/UnityFx.BuildTools/Scripts/Editor/BuildScript.cs:174-197 | Without a caller config and with the platform file, the code as written and the corrected fold give the same result |
| CurrentScript.LoadConfig | Unity/Assets/UnityFx.BuildTools/Scripts/Editor/BuildScript.cs:151-198 | Returns the loaded config (or null) or the exception; the settings are validated in place once the arguments pass |
| CurrentScript.StartStep | Unity/Assets/UnityFx.BuildTools/Scripts/Editor/BuildScript.cs:174-177 | A caller config is combined with the empty environment config; null stays null |
| CurrentScript.PlatformStep | Unity/Assets/UnityFx.BuildTools/Scripts/Editor/BuildScript.cs:179-183 | An existing platform file gives the environment config combined with it |
| CurrentScript.SharedStep | Unity/Assets/UnityFx.BuildTools/Scripts/Editor/BuildScript.cs:185-189 | An existing shared file is combined in, or throws on a null config |
| CurrentScript.VersionStep | Unity/Assets/UnityFx.BuildTools/Scripts/Editor/BuildScript.cs:191-195 | The GitVersion output is read with build number 0, then combined in, or throws on a null config |
| UnityEditor.ParseBuildTarget | Unity/Assets/UnityFx.BuildTools.Editor/Scripts/Editor/BuildConfig.cs:157 | `Enum.Parse` gives the target with exactly that name, else `ArgumentException` |
| UnityEditor.ParseTargetName | Unity/Assets/UnityFx.BuildTools.Editor/Scripts/Editor/BuildConfig.cs:157 | Every target's name parses back to it |
| UnityEditor.PlayerSettings.SetApplicationIdentifier | Unity/Assets/UnityFx.BuildTools.Editor/Scripts/Editor/BuildUtility.cs:124-129 | Writes the identifier of one group and nothing else |
| UnityEditor.PlayerSettings.SetScriptingDefineSymbolsForGroup | Unity/Assets/UnityFx.BuildTools.Editor/Scripts/Editor/BuildUtility.cs:65-68 | Writes the define symbols of one group and nothing else |
| DotNet.IndexOf | Unity/Assets/UnityFx.BuildTools/Scripts/Editor/AppVersionInfo.cs:248 | `string.IndexOf`: -1 or the first ordinal occurrence |
| DotNet.Substring | Unity/Assets/UnityFx.BuildTools/Scripts/Editor/AppVersionInfo.cs:250 | `Substring` succeeds exactly on an in-range slice and returns it |
| DotNet.ParseInt | Unity/Assets/UnityFx.BuildTools.Editor/Scripts/Editor/BuildConfig.cs:192 | `int.Parse` gives an Int32 or throws `FormatException` or `OverflowException` |
| DotNet.IntToString | Unity/Assets/UnityFx.BuildTools.Editor/Scripts/Editor/BuildUtility.cs:85-87 | `int.ToString(InvariantInfo)`: an optional minus and the shortest decimal digits; `int.Parse` reads it back by `ParseIntToString` |
| DotNet.ParseIntToString | Unity/Assets/UnityFx.BuildTools.Editor/Scripts/Editor/BuildUtility.cs:85-87 | Every Int32 written in invariant decimal parses back to itself |
| DotNet.ParseIntRejectsChar | Unity/Assets/UnityFx.BuildTools/Scripts/Editor/AppVersionInfo.cs:142-145 | `int.Parse` of one character that is not a digit, sign or white space throws `FormatException` |
| DotNet.ParseTrimmedNat | Unity/Assets/UnityFx.BuildTools.Editor/Scripts/Editor/BuildUtility.cs:85-87 | Unsigned decimal digits of an Int32 read back as its value |
| DotNet.ParseTrimmedNegative | Unity/Assets/UnityFx.BuildTools.Editor/Scripts/Editor/BuildUtility.cs:85-87 | A minus sign and the digits of a value read back as its negation, within Int32 |
| DotNet.SplitJoin | Unity/Assets/UnityFx.BuildTools.Editor/Scripts/Editor/BuildUtility.cs:65-68 | Joining with a separator none of the items contain and splitting again gives the items back |
| DotNet.WrapInt32 | Unity/Assets/UnityFx.BuildTools/Scripts/Editor/AppVersionInfo.cs:182-185 | Unchecked Int32 arithmetic: the result is an Int32 congruent to the input modulo 2^32, and equal to it when it fits |
| DotNet.PathCombine | Unity/Assets/UnityFx.BuildTools.Editor/Scripts/Editor/BuildScript.cs:309 | `Path.Combine` throws `ArgumentNullException` naming the first null argument |
| DotNet.CombinePaths | Unity/Assets/UnityFx.BuildTools.Editor/Scripts/Editor/BuildScript.cs:309 | `Path.Combine` on two non-null paths: an empty side yields the other, a rooted second path wins, else the second appended to the first with exactly one separator between them |
| DotNet.NewVersion | Unity/Assets/UnityFx.BuildTools/Scripts/Editor/AppVersionInfo.cs:150 | `new Version` succeeds exactly on four non-negative components |

## Left out

- The `UNITY_PURCHASING` load path and the `Store` property: they do not compile as written. Only the store-aware `GetConfigPath` and `GetDefaultStore` are modelled.
- XML serialization and deserialization. A file is modelled as the parsed values it holds, and malformed XML is not modelled.
- Launching the GitVersion process (AppVersionInfo.cs:96-134) and the `UNITY_IOS` branch of `BundleVersion`. The model goes from the tool's text to the record.
- `Enum.Parse` is limited to exact member names over a subset of `BuildTarget`. Case-insensitive, numeric and comma-separated forms are not modelled.
- A `HashSet` that is only added to is modelled as a duplicate-free sequence in insertion order. The order-dependent results rely on that choice: `UnionWith`, `UnionWithFresh`, `UnionDefinesKeeps`, `UnionDefinesIdempotent` and the `Combined` identities (`CombinedIdempotent`, `CombinedWithEmpty`, `EmptyCombined`).
- LegacyConfig.BuildConfig.LoadFromEnvironment: the fields a failing load has already written are not stated, only the exception.
- Derived config types and the reflection in `GetBuildConfigType`: a config type is only null or not.
- `DebugLog`, `Build`, `BuildPipeline.BuildPlayer`, `Serialize`, the `BuildConfig.Apply` and `AppVersionInfo.Apply` forwarders, and the parameterless `ApplyBuildConfig()` wrappers: I/O or one-line calls.
- The Cloud Build hooks and `CloudBuildInfo`: I/O.
- The environment is keyed by the variable names the older tree reads. The newer tree's `FromEnvironment` reads nothing.
- File paths and tool paths are separate maps, so a file and the tool cannot share a path.
- The older tree calls an `AppVersionInfo(target, path, buildNumber)` constructor that is not part of this model. The newer tree's parser is used with the config's build number, and the target is ignored.
- AppVersion.GetBundleVersionCode wraps around instead of requiring the result to fit in an `int`. Inside the `int` range it is the plain formula.
- `Path.Combine` is modelled with '/' as the only separator.

## Findings

| source | as written | input that shows it | evidently intended | confidence | as-written member | corrected member |
|---|---|---|---|---|---|---|
| Unity/Assets/UnityFx.BuildTools/Scripts/Editor/BuildScript.cs:185-189 | `config.Combine(sharedConfig)` runs when `config` is still null | no caller config, no platform file, shared file present: `NullReferenceException` | start from the environment config, so the shared file is combined into it | not executed | CurrentScript.NullConfigSharedFileThrows | CurrentScript.LoadedIntended, CurrentScript.IntendedFailsOnlyOnTool |
| Unity/Assets/UnityFx.BuildTools/Scripts/Editor/BuildScript.cs:179-183 | `config = envConfig.Combine(platformConfig)` replaces the caller's config | caller config with build number 7, Android, empty platform file: build number 0 | `config.Combine(platformConfig)`, keeping what the caller set | not executed | CurrentScript.CallerBuildNumberLost | CurrentScript.LoadedIntended, CurrentScript.IntendedKeepsCaller |
