/**
 * `AppVersionInfo`: what the build reads out of the JSON text GitVersion
 * prints, and the bundle version, version code and build number it derives
 * from it.
 */
module AppVersion {
  import opened Common
  import opened DotNet
  import opened Coalesce

  /** The fields the constructor fills in from the tool's output. */
  datatype AppVersionInfo = AppVersionInfo(
    branch: string,
    bundleVersionFull: string,
    bundleVersionMmp: string,
    version: Version,
    major: int,
    minor: int,
    patch: int,
    buildCode: int,
    commitsSinceVersionSource: int,
    buildNumber: int)

  // ---------------------------------------------------------------- version code

  /** `100000000 * major + 1000000 * minor + 10000 * patch + build` in unchecked 32-bit arithmetic. */
  function GetBundleVersionCode(major: int, minor: int, patch: int, build: int): (r: int)
    ensures IsInt32(r)
    ensures IsInt32(100000000 * major + 1000000 * minor + 10000 * patch + build) ==>
      r == 100000000 * major + 1000000 * minor + 10000 * patch + build
  {
    WrapInt32(100000000 * major + 1000000 * minor + 10000 * patch + build)
  }

  /** The ranges in which the four components occupy separate decimal digit groups of the code. */
  predicate InCodeRange(major: int, minor: int, patch: int, build: int) {
    0 <= major <= 20 && 0 <= minor < 100 && 0 <= patch < 100 && 0 <= build < 10000
  }

  /** Within those ranges the code decodes back into its components. */
  lemma BundleVersionCodeDecodes(major: int, minor: int, patch: int, build: int)
    requires InCodeRange(major, minor, patch, build)
    ensures var code := GetBundleVersionCode(major, minor, patch, build);
      code >= 0 &&
      code / 100000000 == major &&
      code / 1000000 % 100 == minor &&
      code / 10000 % 100 == patch &&
      code % 10000 == build
  {
    var low := 10000 * patch + build;
    assert 0 <= low < 1000000;
    var mid := 1000000 * minor + low;
    assert 0 <= mid < 100000000;
    var code := 100000000 * major + mid;
    assert code <= 2099999999;
    assert GetBundleVersionCode(major, minor, patch, build) == code;
    assert code / 100000000 == major;
    assert code / 1000000 == 100 * major + minor;
    assert code / 10000 == 10000 * major + 100 * minor + patch;
    assert code % 10000 == build;
  }

  /** A later version (in component order) has a larger code, within the decodable ranges. */
  lemma BundleVersionCodeOrdered(a: (int, int, int, int), b: (int, int, int, int))
    requires InCodeRange(a.0, a.1, a.2, a.3) && InCodeRange(b.0, b.1, b.2, b.3)
    requires a.0 < b.0
      || (a.0 == b.0 && a.1 < b.1)
      || (a.0 == b.0 && a.1 == b.1 && a.2 < b.2)
      || (a.0 == b.0 && a.1 == b.1 && a.2 == b.2 && a.3 < b.3)
    ensures GetBundleVersionCode(a.0, a.1, a.2, a.3) < GetBundleVersionCode(b.0, b.1, b.2, b.3)
  {
    BundleVersionCodeDecodes(a.0, a.1, a.2, a.3);
    BundleVersionCodeDecodes(b.0, b.1, b.2, b.3);
  }

  /** Version 1.2.3 with 4 commits gets code 102030004. */
  lemma BundleVersionCodeExample()
    ensures GetBundleVersionCode(1, 2, 3, 4) == 102030004
  {
  }

  /** From major version 22 on the code wraps to a negative number. */
  lemma BundleVersionCodeWraps()
    ensures GetBundleVersionCode(22, 0, 0, 0) == 2200000000 - 0x1_0000_0000
    ensures GetBundleVersionCode(22, 0, 0, 0) < 0
  {
    assert (2200000000 - Int32Min) % 0x1_0000_0000 == 2200000000 - Int32Min - 0x1_0000_0000;
  }

  // ---------------------------------------------------------------- reading the tool's output

  /** `key` occurs at `pos` and nowhere before. */
  predicate FirstOccurrence(text: string, key: string, pos: int) {
    OccursAt(text, key, pos) && forall i :: 0 <= i < pos ==> !OccursAt(text, key, i)
  }

  /** Where `GetJsonNumber` starts reading: past the key, its closing quote and the colon. */
  function NumberStart(text: string, key: string): int {
    IndexOf(text, key) + |key| + 2
  }

  /** Where `GetJsonValue` starts reading: past the key, its closing quote, the colon and the opening quote. */
  function ValueStart(text: string, key: string): int {
    IndexOf(text, key) + |key| + 3
  }

  /**
   * `GetJsonNumber(text, key)`: the text from two characters past the key up
   * to the next comma; throws when reading starts past the end or no comma follows.
   */
  function GetJsonNumber(text: string, key: string): (r: Result<string>)
    ensures r.Success? <==> NumberStart(text, key) <= |text| && CharIndexFrom(text, ',', NumberStart(text, key)) >= 0
    ensures r.Failure? ==> r.error == ArgumentOutOfRange
    ensures r.Success? ==> ',' !in r.value && OccursAt(text, r.value + [','], NumberStart(text, key))
  {
    var keyPos := IndexOf(text, key);
    var valuePos := keyPos + |key| + 2;
    var valueEndPos :- IndexOfChar(text, ',', valuePos);
    Substring(text, valuePos, valueEndPos - valuePos)
  }

  /**
   * `GetJsonValue(text, key)`: the text from three characters past the key up
   * to the next double quote; throws when reading starts past the end or no quote follows.
   */
  function GetJsonValue(text: string, key: string): (r: Result<string>)
    ensures r.Success? <==> ValueStart(text, key) <= |text| && CharIndexFrom(text, '"', ValueStart(text, key)) >= 0
    ensures r.Failure? ==> r.error == ArgumentOutOfRange
    ensures r.Success? ==> '"' !in r.value && OccursAt(text, r.value + ['"'], ValueStart(text, key))
  {
    var keyPos := IndexOf(text, key);
    var valuePos := keyPos + |key| + 3;
    var valueEndPos :- IndexOfChar(text, '"', valuePos);
    Substring(text, valuePos, valueEndPos - valuePos)
  }

  /** The first occurrence of a key decides where reading starts. */
  lemma IndexOfFirst(text: string, key: string, pos: int)
    requires FirstOccurrence(text, key, pos)
    ensures IndexOf(text, key) == pos
  {
  }

  /** A number field `"key":value,` at the key's first occurrence is read back exactly. */
  lemma JsonNumberReads(text: string, key: string, pos: int, value: string)
    requires FirstOccurrence(text, key, pos)
    requires OccursAt(text, "\":" + value + ",", pos + |key|)
    requires ',' !in value
    ensures GetJsonNumber(text, key) == Success(value)
  {
    IndexOfFirst(text, key, pos);
    var start := pos + |key| + 2;
    var field := "\":" + value + ",";
    assert forall k :: 0 <= k < |field| ==> text[pos + |key| + k] == field[k];
    assert text[start + |value|] == ',';
    assert forall k :: 0 <= k < |value| ==> text[start + k] == value[k];
    assert CharIndexFrom(text, ',', start) == start + |value|;
    assert text[start..start + |value|] == value;
  }

  /** A string field `"key":"value"` at the key's first occurrence is read back exactly. */
  lemma JsonValueReads(text: string, key: string, pos: int, value: string)
    requires FirstOccurrence(text, key, pos)
    requires OccursAt(text, "\":\"" + value + "\"", pos + |key|)
    requires '"' !in value
    ensures GetJsonValue(text, key) == Success(value)
  {
    IndexOfFirst(text, key, pos);
    var start := pos + |key| + 3;
    var field := "\":\"" + value + "\"";
    assert forall k :: 0 <= k < |field| ==> text[pos + |key| + k] == field[k];
    assert text[start + |value|] == '"';
    assert forall k :: 0 <= k < |value| ==> text[start + k] == value[k];
    assert CharIndexFrom(text, '"', start) == start + |value|;
    assert text[start..start + |value|] == value;
  }

  /** `"Major":1,` reads as "1". */
  lemma JsonNumberExample()
    ensures GetJsonNumber("\"Major\":1,", "Major") == Success("1")
  {
    var text := "\"Major\":1,";
    assert OccursAt(text, "Major", 1);
    assert text[0..5][0] != 'M';
    assert FirstOccurrence(text, "Major", 1);
    assert text[6..10] == "\":" + "1" + ",";
    assert OccursAt(text, "\":" + "1" + ",", 6);
    JsonNumberReads(text, "Major", 1, "1");
  }

  /** `"BranchName":"master"` reads as "master". */
  lemma JsonValueExample()
    ensures GetJsonValue("\"BranchName\":\"master\"", "BranchName") == Success("master")
  {
    var text := "\"BranchName\":\"master\"";
    assert OccursAt(text, "BranchName", 1);
    assert text[0..10][0] != 'B';
    assert FirstOccurrence(text, "BranchName", 1);
    assert text[11..21] == "\":\"" + "master" + "\"";
    assert OccursAt(text, "\":\"" + "master" + "\"", 11);
    JsonValueReads(text, "BranchName", 1, "master");
  }

  /**
   * An absent key does not make the read fail: reading then starts at
   * `|key| + 1`, as if the key had been found at index -1.
   */
  lemma AbsentKeyStillReads()
    ensures !Contains("0123456,", "Major")
    ensures GetJsonNumber("0123456,", "Major") == Success("6")
  {
    var text := "0123456,";
    assert IndexOf(text, "Major") == -1 by {
      forall i | 0 <= i
        ensures !OccursAt(text, "Major", i)
      {
        if i + 5 <= |text| {
          assert text[i..i + 5][0] != 'M';
        }
      }
    }
    assert CharIndexFrom(text, ',', 6) == 7;
    assert text[6..7] == "6";
  }

  // ---------------------------------------------------------------- the constructor's parse

  /** The four numbers `Parse` reads first, still as text. */
  datatype NumberTexts = NumberTexts(major: string, minor: string, patch: string, commits: string)

  /** The four numbers after `int.Parse`. */
  datatype Numbers = Numbers(major: int, minor: int, patch: int, commits: int)

  /** Lines 136-139: the four number fields, read in order. */
  function ReadNumbers(text: string): (r: Result<NumberTexts>)
    ensures r.Failure? ==> r.error == ArgumentOutOfRange
  {
    var major :- GetJsonNumber(text, "Major");
    var minor :- GetJsonNumber(text, "Minor");
    var patch :- GetJsonNumber(text, "Patch");
    var n :- GetJsonNumber(text, "CommitsSinceVersionSource");
    Success(NumberTexts(major, minor, patch, n))
  }

  /** Lines 142-145: `int.Parse` of each, in order. */
  function ParseNumbers(t: NumberTexts): (r: Result<Numbers>)
    ensures r.Success? ==> IsInt32(r.value.major) && IsInt32(r.value.minor)
    ensures r.Success? ==> IsInt32(r.value.patch) && IsInt32(r.value.commits)
    ensures r.Failure? ==> r.error == Format || r.error == Overflow
  {
    var major :- ParseInt(t.major);
    var minor :- ParseInt(t.minor);
    var patch :- ParseInt(t.patch);
    var commits :- ParseInt(t.commits);
    Success(Numbers(major, minor, patch, commits))
  }

  /** The three string fields `Parse` reads after the numbers. */
  datatype Strings = Strings(branch: string, semVer: string, majorMinorPatch: string)

  /** Lines 147-149: branch name, SemVer and "major.minor.patch" text, read in order. */
  function ReadStrings(text: string): (r: Result<Strings>)
    ensures r.Failure? ==> r.error == ArgumentOutOfRange
  {
    var branch :- GetJsonValue(text, "BranchName");
    var semVer :- GetJsonValue(text, "SemVer");
    var mmp :- GetJsonValue(text, "MajorMinorPatch");
    Success(Strings(branch, semVer, mmp))
  }

  /**
   * Lines 136-150 of the constructor: the four numbers are read and parsed,
   * the code computed, the three strings read, and the `Version` built as
   * (major, minor, commits, patch). Each step can throw, in that order.
   */
  function Parse(text: string, buildNumber: int): (r: Result<AppVersionInfo>)
    ensures r.Success? ==> r.value.buildNumber == buildNumber
    ensures r.Success? ==> (r.value.buildCode ==
      GetBundleVersionCode(r.value.major, r.value.minor, r.value.patch, r.value.commitsSinceVersionSource))
    ensures r.Success? ==> (r.value.version ==
      Version(r.value.major, r.value.minor, r.value.commitsSinceVersionSource, r.value.patch))
    ensures r.Success? ==> (r.value.major >= 0 && r.value.minor >= 0 && r.value.patch >= 0
      && r.value.commitsSinceVersionSource >= 0)
    ensures r.Success? ==> (IsInt32(r.value.major) && IsInt32(r.value.minor) && IsInt32(r.value.patch)
      && IsInt32(r.value.commitsSinceVersionSource))
    ensures r.Failure? ==> r.error in {ArgumentOutOfRange, Format, Overflow}
  {
    var texts :- ReadNumbers(text);
    var n :- ParseNumbers(texts);
    var buildCode := GetBundleVersionCode(n.major, n.minor, n.patch, n.commits);
    var strings :- ReadStrings(text);
    var version :- NewVersion(n.major, n.minor, n.commits, n.patch);
    Success(AppVersionInfo(strings.branch, strings.semVer, strings.majorMinorPatch, version,
      n.major, n.minor, n.patch, buildCode, n.commits, buildNumber))
  }

  /** The expected fields of a tool output, as the tool prints them. */
  datatype GitVersionFields = GitVersionFields(
    major: int, minor: int, patch: int, commits: int,
    branch: string, semVer: string, majorMinorPatch: string)

  /** The tool prints every field `Parse` reads, numbers in invariant decimal form. */
  predicate PrintsFields(text: string, f: GitVersionFields) {
    && GetJsonNumber(text, "Major") == Success(IntToString(f.major))
    && GetJsonNumber(text, "Minor") == Success(IntToString(f.minor))
    && GetJsonNumber(text, "Patch") == Success(IntToString(f.patch))
    && GetJsonNumber(text, "CommitsSinceVersionSource") == Success(IntToString(f.commits))
    && GetJsonValue(text, "BranchName") == Success(f.branch)
    && GetJsonValue(text, "SemVer") == Success(f.semVer)
    && GetJsonValue(text, "MajorMinorPatch") == Success(f.majorMinorPatch)
  }

  /**
   * Reading back: an output that prints non-negative 32-bit numbers parses to
   * exactly those numbers and strings, with the code of the four numbers.
   */
  lemma ParseReadsFields(text: string, f: GitVersionFields, buildNumber: int)
    requires PrintsFields(text, f)
    requires 0 <= f.major <= Int32Max && 0 <= f.minor <= Int32Max
    requires 0 <= f.patch <= Int32Max && 0 <= f.commits <= Int32Max
    ensures Parse(text, buildNumber) == Success(AppVersionInfo(
      f.branch, f.semVer, f.majorMinorPatch, Version(f.major, f.minor, f.commits, f.patch),
      f.major, f.minor, f.patch, GetBundleVersionCode(f.major, f.minor, f.patch, f.commits),
      f.commits, buildNumber))
  {
    ParseIntToString(f.major);
    ParseIntToString(f.minor);
    ParseIntToString(f.patch);
    ParseIntToString(f.commits);
  }

  /** A number field `int.Parse` rejects makes the whole parse throw the same exception. */
  lemma ParseFailsOnNumbers(text: string, buildNumber: int)
    requires ReadNumbers(text).Success?
    requires ParseNumbers(ReadNumbers(text).value).Failure?
    ensures Parse(text, buildNumber) == Failure(ParseNumbers(ReadNumbers(text).value).error)
  {
  }

  /** A major number that is a letter is rejected before the other numbers are looked at. */
  lemma LetterMajorRejected(texts: NumberTexts)
    requires texts.major == "x"
    ensures ParseNumbers(texts) == Failure(Format)
  {
    ParseIntRejectsChar('x');
    assert ParseInt(texts.major) == Failure(Format) by {
      assert texts.major == ['x'];
    }
  }

  /** A number that is not a number throws `FormatException`. */
  lemma ParseRejectsNonNumber(text: string)
    requires GetJsonNumber(text, "Major") == Success("x")
    requires ReadNumbers(text).Success?
    ensures Parse(text, 0) == Failure(Format)
  {
    var texts := ReadNumbers(text).value;
    assert texts.major == "x";
    LetterMajorRejected(texts);
    ParseFailsOnNumbers(text, 0);
  }

  // ---------------------------------------------------------------- derived properties

  /** `IsRelease`: the branch name contains "release" or is exactly "master". */
  predicate IsRelease(info: AppVersionInfo) {
    Contains(info.branch, "release") || info.branch == "master"
  }

  /** `BundleVersion` off iOS: "major.minor.patch.commits" on a release branch, the SemVer otherwise. */
  function BundleVersion(info: AppVersionInfo): string {
    if IsRelease(info) then info.bundleVersionMmp + "." + IntToString(info.commitsSinceVersionSource)
    else info.bundleVersionFull
  }

  /** `BuildNumber`: the constructor's build number when positive, else the commit count. */
  function BuildNumber(info: AppVersionInfo): int {
    if info.buildNumber > 0 then info.buildNumber else info.commitsSinceVersionSource
  }

  /** The `IVersionConfig` view a config is combined with. */
  function AsVersionConfig(info: AppVersionInfo): (v: VersionFields)
    ensures v.bundleVersion.Some?
  {
    VersionFields(Some(BundleVersion(info)), info.buildCode, BuildNumber(info))
  }

  /** The build number follows the merge rule: a positive explicit number wins over the commit count. */
  lemma BuildNumberIsFill(info: AppVersionInfo)
    ensures BuildNumber(info) == FillInt(info.buildNumber, info.commitsSinceVersionSource)
    ensures BuildNumber(info) == GetIntValue(info.buildNumber, info.commitsSinceVersionSource, info.commitsSinceVersionSource)
    ensures info.commitsSinceVersionSource >= 0 ==> BuildNumber(info) >= 0
  {
    FillIntIsCoalesced(info.buildNumber, info.commitsSinceVersionSource);
  }

  /**
   * On a release branch the bundle version is the "major.minor.patch" text, a
   * dot, and the commit count, which reads back as that count.
   */
  lemma ReleaseBundleVersion(info: AppVersionInfo)
    requires IsRelease(info) && IsInt32(info.commitsSinceVersionSource)
    ensures var v := BundleVersion(info);
      var mmp := info.bundleVersionMmp;
      |v| > |mmp| + 1 && v[..|mmp|] == mmp && v[|mmp|] == '.' &&
      ParseInt(v[|mmp| + 1..]) == Success(info.commitsSinceVersionSource)
  {
    var mmp := info.bundleVersionMmp;
    var count := IntToString(info.commitsSinceVersionSource);
    var v := mmp + ("." + count);
    assert BundleVersion(info) == v;
    assert v[..|mmp|] == mmp;
    assert v[|mmp|] == '.';
    assert v[|mmp| + 1..] == count;
    ParseIntToString(info.commitsSinceVersionSource);
  }

  /** Off a release branch the bundle version is the SemVer as printed. */
  lemma PreReleaseBundleVersion(info: AppVersionInfo)
    requires !IsRelease(info)
    ensures BundleVersion(info) == info.bundleVersionFull
  {
  }

  /** "release" matches anywhere and case-sensitively, "master" only as the whole name. */
  lemma IsReleaseExamples(info: AppVersionInfo)
    ensures IsRelease(info.(branch := "master"))
    ensures IsRelease(info.(branch := "release/1.2"))
    ensures IsRelease(info.(branch := "hotfix-release"))
    ensures !IsRelease(info.(branch := "Release/1.2"))
    ensures !IsRelease(info.(branch := "master-fix"))
  {
    assert OccursAt("release/1.2", "release", 0);
    assert OccursAt("hotfix-release", "release", 7);
    NoRelease("Release/1.2");
    NoRelease("master-fix");
  }

  /** A name without a lower-case "r" followed by "elease" does not contain "release". */
  lemma NoRelease(s: string)
    requires forall i :: 0 <= i < |s| ==> s[i] != 'r' || i + 1 == |s| || s[i + 1] != 'e'
    ensures !Contains(s, "release")
  {
    forall i | 0 <= i
      ensures !OccursAt(s, "release", i)
    {
      if i + 7 <= |s| {
        assert s[i..i + 7][0] == s[i] && s[i..i + 7][1] == s[i + 1];
      }
    }
  }
}
