/**
 * The merge rules both `BuildConfig` classes share: "earliest non-empty wins"
 * for scalar settings (a string is set when it is neither null nor empty, an
 * integer when it is positive) and a duplicate-free union for the scripting
 * defines.
 */
module Coalesce {
  import opened Common
  import opened DotNet

  /** The `IAppConfig` view of a configuration. */
  datatype AppFields = AppFields(
    productId: Option<string>,
    productName: Option<string>,
    companyId: Option<string>,
    companyName: Option<string>,
    bundleIdentifier: Option<string>)

  /** The `IVersionConfig` view of a configuration. */
  datatype VersionFields = VersionFields(
    bundleVersion: Option<string>,
    bundleVersionCode: int,
    buildNumber: int)

  /** App fields of a freshly constructed config: all null. */
  const NoApp: AppFields := AppFields(None, None, None, None, None)

  /** Version fields of a freshly constructed config: null and zeros. */
  const NoVersion: VersionFields := VersionFields(None, 0, 0)

  // ---------------------------------------------------------------- reference definitions

  /**
   * Precedence over a list of candidate strings, earliest first: the first
   * one that is set, or the last candidate when none is.
   */
  function Coalesced(values: seq<Option<string>>): Option<string>
    requires |values| >= 1
  {
    if |values| == 1 || !IsNullOrEmpty(values[0]) then values[0] else Coalesced(values[1..])
  }

  /** The same precedence over integers, where only positive values are set. */
  function CoalescedInt(values: seq<int>): int
    requires |values| >= 1
  {
    if |values| == 1 || values[0] > 0 then values[0] else CoalescedInt(values[1..])
  }

  // ---------------------------------------------------------------- GetValue

  /** `GetValue(string value, string value2, string defaulValue)`. */
  function GetValue(value: Option<string>, value2: Option<string>, defaultValue: Option<string>): (r: Option<string>)
    ensures r == Coalesced([value, value2, defaultValue])
    ensures r == value || r == value2 || r == defaultValue
  {
    assert [value, value2, defaultValue][1..] == [value2, defaultValue];
    assert [value2, defaultValue][1..] == [defaultValue];
    assert Coalesced([defaultValue]) == defaultValue;
    if !IsNullOrEmpty(value) then value
    else if !IsNullOrEmpty(value2) then value2
    else defaultValue
  }

  /** `GetValue(int value, int value2, int defaulValue)`: zero and negatives both mean unset. */
  function GetIntValue(value: int, value2: int, defaultValue: int): (r: int)
    ensures r == CoalescedInt([value, value2, defaultValue])
    ensures r > 0 <==> value > 0 || value2 > 0 || defaultValue > 0
  {
    assert [value, value2, defaultValue][1..] == [value2, defaultValue];
    assert [value2, defaultValue][1..] == [defaultValue];
    assert CoalescedInt([defaultValue]) == defaultValue;
    if value > 0 then value
    else if value2 > 0 then value2
    else defaultValue
  }

  // ---------------------------------------------------------------- field rules of Combine

  /** A string field of the clone after `if (string.IsNullOrEmpty(result.F)) result.F = fallback.F;`. */
  function Fill(mine: Option<string>, fallback: Option<string>): Option<string> {
    if IsNullOrEmpty(mine) then fallback else mine
  }

  /** An integer field of the clone after `if (result.F <= 0) result.F = fallback.F;`. */
  function FillInt(mine: int, fallback: int): int {
    if mine <= 0 then fallback else mine
  }

  /** The app fields after `CombineAppConfig`. */
  function MergeApp(mine: AppFields, fallback: AppFields): AppFields {
    AppFields(
      Fill(mine.productId, fallback.productId),
      Fill(mine.productName, fallback.productName),
      Fill(mine.companyId, fallback.companyId),
      Fill(mine.companyName, fallback.companyName),
      Fill(mine.bundleIdentifier, fallback.bundleIdentifier))
  }

  /** The version fields after `CombineVersionConfig`. */
  function MergeVersion(mine: VersionFields, fallback: VersionFields): VersionFields {
    VersionFields(
      Fill(mine.bundleVersion, fallback.bundleVersion),
      FillInt(mine.bundleVersionCode, fallback.bundleVersionCode),
      FillInt(mine.buildNumber, fallback.buildNumber))
  }

  /**
   * Filling is `GetValue` with the fallback as its own default: unlike
   * `GetValue`, an unset fallback replaces an unset receiver (a receiver's ""
   * becomes the fallback's null).
   */
  lemma FillIsCoalesced(mine: Option<string>, fallback: Option<string>)
    ensures Fill(mine, fallback) == Coalesced([mine, fallback])
    ensures Fill(mine, fallback) == GetValue(mine, fallback, fallback)
  {
  }

  lemma FillIntIsCoalesced(mine: int, fallback: int)
    ensures FillInt(mine, fallback) == CoalescedInt([mine, fallback])
    ensures FillInt(mine, fallback) == GetIntValue(mine, fallback, fallback)
  {
  }

  /** Folding one more source into a coalesced list is filling from it. */
  lemma {:induction false} CoalescedSnoc(values: seq<Option<string>>, next: Option<string>)
    requires |values| >= 1
    ensures Coalesced(values + [next]) == Fill(Coalesced(values), next)
  {
    if |values| > 1 && IsNullOrEmpty(values[0]) {
      assert (values + [next])[1..] == values[1..] + [next];
      CoalescedSnoc(values[1..], next);
    }
  }

  lemma {:induction false} CoalescedIntSnoc(values: seq<int>, next: int)
    requires |values| >= 1
    ensures CoalescedInt(values + [next]) == FillInt(CoalescedInt(values), next)
  {
    if |values| > 1 && values[0] <= 0 {
      assert (values + [next])[1..] == values[1..] + [next];
      CoalescedIntSnoc(values[1..], next);
    }
  }

  /** A field that is already set is never overridden by a later source. */
  lemma {:induction false} CoalescedKeepsFirst(values: seq<Option<string>>)
    requires |values| >= 1
    ensures !IsNullOrEmpty(values[0]) ==> Coalesced(values) == values[0]
    ensures IsNullOrEmpty(Coalesced(values)) <==> forall k :: 0 <= k < |values| ==> IsNullOrEmpty(values[k])
  {
    if |values| > 1 && IsNullOrEmpty(values[0]) {
      CoalescedKeepsFirst(values[1..]);
      assert forall k :: 1 <= k < |values| ==> values[k] == values[1..][k - 1];
    }
  }

  // ---------------------------------------------------------------- folding several sources

  /** Names one of the five app settings. */
  datatype AppSetting = ProductId | ProductName | CompanyId | CompanyName | BundleIdentifier

  /** The value of one app setting. */
  function AppGet(a: AppFields, setting: AppSetting): Option<string> {
    match setting
    case ProductId => a.productId
    case ProductName => a.productName
    case CompanyId => a.companyId
    case CompanyName => a.companyName
    case BundleIdentifier => a.bundleIdentifier
  }

  /** Sources combined one after the other, highest precedence first. */
  function MergeApps(sources: seq<AppFields>): AppFields
    requires |sources| >= 1
  {
    if |sources| == 1 then sources[0]
    else MergeApp(MergeApps(sources[..|sources| - 1]), sources[|sources| - 1])
  }

  function MergeVersions(sources: seq<VersionFields>): VersionFields
    requires |sources| >= 1
  {
    if |sources| == 1 then sources[0]
    else MergeVersion(MergeVersions(sources[..|sources| - 1]), sources[|sources| - 1])
  }

  /** One app setting of every source, in order. */
  function AppColumn(sources: seq<AppFields>, setting: AppSetting): (column: seq<Option<string>>)
    ensures |column| == |sources|
    ensures forall k :: 0 <= k < |sources| ==> column[k] == AppGet(sources[k], setting)
  {
    if |sources| == 0 then [] else AppColumn(sources[..|sources| - 1], setting) + [AppGet(sources[|sources| - 1], setting)]
  }

  /**
   * Folding sources with `Combine` gives every app setting the value of the
   * first source that sets it.
   */
  lemma {:induction false} MergeAppsPrecedence(sources: seq<AppFields>, setting: AppSetting)
    requires |sources| >= 1
    ensures AppGet(MergeApps(sources), setting) == Coalesced(AppColumn(sources, setting))
  {
    var n := |sources|;
    if n > 1 {
      MergeAppsPrecedence(sources[..n - 1], setting);
      assert AppColumn(sources, setting) == AppColumn(sources[..n - 1], setting) + [AppGet(sources[n - 1], setting)];
      CoalescedSnoc(AppColumn(sources[..n - 1], setting), AppGet(sources[n - 1], setting));
      var m := MergeApps(sources[..n - 1]);
      assert AppGet(MergeApp(m, sources[n - 1]), setting) == Fill(AppGet(m, setting), AppGet(sources[n - 1], setting));
    } else {
      assert AppColumn(sources, setting) == [AppGet(sources[0], setting)];
    }
  }

  /**
   * The same for the version settings: the bundle version of the first source
   * that sets it, and the first positive version code and build number.
   */
  lemma {:induction false} MergeVersionsPrecedence(sources: seq<VersionFields>)
    requires |sources| >= 1
    ensures MergeVersions(sources).bundleVersion == Coalesced(seq(|sources|, k requires 0 <= k < |sources| => sources[k].bundleVersion))
    ensures MergeVersions(sources).bundleVersionCode == CoalescedInt(seq(|sources|, k requires 0 <= k < |sources| => sources[k].bundleVersionCode))
    ensures MergeVersions(sources).buildNumber == CoalescedInt(seq(|sources|, k requires 0 <= k < |sources| => sources[k].buildNumber))
  {
    var n := |sources|;
    var versions := seq(n, k requires 0 <= k < n => sources[k].bundleVersion);
    var codes := seq(n, k requires 0 <= k < n => sources[k].bundleVersionCode);
    var numbers := seq(n, k requires 0 <= k < n => sources[k].buildNumber);
    if n > 1 {
      var init := sources[..n - 1];
      MergeVersionsPrecedence(init);
      assert versions == seq(n - 1, k requires 0 <= k < n - 1 => init[k].bundleVersion) + [sources[n - 1].bundleVersion];
      assert codes == seq(n - 1, k requires 0 <= k < n - 1 => init[k].bundleVersionCode) + [sources[n - 1].bundleVersionCode];
      assert numbers == seq(n - 1, k requires 0 <= k < n - 1 => init[k].buildNumber) + [sources[n - 1].buildNumber];
      CoalescedSnoc(seq(n - 1, k requires 0 <= k < n - 1 => init[k].bundleVersion), sources[n - 1].bundleVersion);
      CoalescedIntSnoc(seq(n - 1, k requires 0 <= k < n - 1 => init[k].bundleVersionCode), sources[n - 1].bundleVersionCode);
      CoalescedIntSnoc(seq(n - 1, k requires 0 <= k < n - 1 => init[k].buildNumber), sources[n - 1].buildNumber);
    } else {
      assert versions == [sources[0].bundleVersion];
      assert codes == [sources[0].bundleVersionCode];
      assert numbers == [sources[0].buildNumber];
    }
  }

  /** Merging is associative: folding sources left to right equals merging the tail first. */
  lemma MergeAppAssociative(a: AppFields, b: AppFields, c: AppFields)
    ensures MergeApp(MergeApp(a, b), c) == MergeApp(a, MergeApp(b, c))
  {
  }

  lemma MergeVersionAssociative(a: VersionFields, b: VersionFields, c: VersionFields)
    ensures MergeVersion(MergeVersion(a, b), c) == MergeVersion(a, MergeVersion(b, c))
  {
  }

  /** Merging the same fallback a second time changes nothing. */
  lemma MergeAppIdempotent(a: AppFields, b: AppFields)
    ensures MergeApp(MergeApp(a, b), b) == MergeApp(a, b)
  {
  }

  lemma MergeVersionIdempotent(a: VersionFields, b: VersionFields)
    ensures MergeVersion(MergeVersion(a, b), b) == MergeVersion(a, b)
  {
  }

  /** Merging is not commutative: the receiver's set values win. */
  lemma MergeAppNotCommutative()
    ensures exists a: AppFields, b: AppFields :: MergeApp(a, b) != MergeApp(b, a)
  {
    var a := NoApp.(productId := Some("a"));
    var b := NoApp.(productId := Some("b"));
    assert MergeApp(a, b).productId == Some("a");
  }

  /** No setting is held in its "empty but not null" form ("" or a negative number). */
  predicate NormalApp(a: AppFields) {
    a.productId != Some("") && a.productName != Some("") && a.companyId != Some("") &&
    a.companyName != Some("") && a.bundleIdentifier != Some("")
  }

  predicate NormalVersion(v: VersionFields) {
    v.bundleVersion != Some("") && v.bundleVersionCode >= 0 && v.buildNumber >= 0
  }

  /**
   * Merging from a normal fallback gives normal settings, and merging from
   * nothing at all leaves normal settings as they are.
   */
  lemma MergeNormal(a: AppFields, b: AppFields, v: VersionFields, w: VersionFields)
    ensures NormalApp(b) ==> NormalApp(MergeApp(a, b))
    ensures NormalVersion(w) ==> NormalVersion(MergeVersion(v, w))
    ensures NormalApp(a) <==> MergeApp(a, NoApp) == a
    ensures NormalVersion(v) <==> MergeVersion(v, NoVersion) == v
  {
  }

  // ---------------------------------------------------------------- defines

  predicate NoDuplicates(s: seq<string>) {
    forall i, j :: 0 <= i < j < |s| ==> s[i] != s[j]
  }

  /**
   * `HashSet<string>.UnionWith(items)` followed by `ToArray()`: each item
   * not yet present is appended, in enumeration order.
   */
  function UnionWith(acc: seq<string>, items: seq<string>): (r: seq<string>)
    ensures NoDuplicates(acc) ==> NoDuplicates(r)
    ensures forall x :: x in r <==> x in acc || x in items
    ensures |acc| <= |r| && r[..|acc|] == acc
    decreases |items|
  {
    if items == [] then acc
    else UnionWith(if items[0] in acc then acc else acc + [items[0]], items[1..])
  }

  /** A null array contributes nothing to the union. */
  function Items(values: Option<seq<string>>): seq<string> {
    if values.Some? then values.value else []
  }

  /** `Defines` of the combined config: both sides' defines, once each, receiver's first. */
  function UnionDefines(mine: Option<seq<string>>, fallback: Option<seq<string>>): (r: seq<string>)
    ensures NoDuplicates(r)
    ensures forall x :: x in r <==> x in Items(mine) || x in Items(fallback)
  {
    UnionWith(UnionWith([], Items(mine)), Items(fallback))
  }

  /** Items already present leave the set untouched. */
  lemma {:induction false} UnionWithPresent(acc: seq<string>, items: seq<string>)
    requires forall x :: x in items ==> x in acc
    ensures UnionWith(acc, items) == acc
    decreases |items|
  {
    if items != [] {
      assert items[0] in acc;
      UnionWithPresent(acc, items[1..]);
    }
  }

  /** Distinct new items are appended in order. */
  lemma {:induction false} UnionWithFresh(acc: seq<string>, items: seq<string>)
    requires NoDuplicates(acc + items)
    ensures UnionWith(acc, items) == acc + items
    decreases |items|
  {
    if items != [] {
      var i := |acc|;
      assert (acc + items)[i] == items[0];
      assert forall j :: 0 <= j < i ==> (acc + items)[j] == acc[j];
      assert items[0] !in acc;
      assert (acc + [items[0]]) + items[1..] == acc + items;
      UnionWithFresh(acc + [items[0]], items[1..]);
    }
  }

  /** A duplicate-free receiver merged with no new defines keeps its defines and their order. */
  lemma UnionDefinesKeeps(mine: seq<string>, fallback: Option<seq<string>>)
    requires NoDuplicates(mine)
    requires forall x :: x in Items(fallback) ==> x in mine
    ensures UnionDefines(Some(mine), fallback) == mine
  {
    assert [] + mine == mine;
    UnionWithFresh([], mine);
    UnionWithPresent(mine, Items(fallback));
  }

  /** Re-merging a fallback whose defines are already in the union changes nothing. */
  lemma UnionDefinesIdempotent(mine: Option<seq<string>>, fallback: Option<seq<string>>)
    ensures UnionDefines(Some(UnionDefines(mine, fallback)), fallback) == UnionDefines(mine, fallback)
  {
    UnionDefinesKeeps(UnionDefines(mine, fallback), fallback);
  }
}
