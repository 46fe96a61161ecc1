/**
 * The pieces of the .NET base class library the build scripts rely on:
 * `string.IsNullOrEmpty`, ordinal `IndexOf`, `Substring`, `string.Join`,
 * `int.Parse` / `int.ToString` (invariant culture), unchecked 32-bit
 * arithmetic, `Path.Combine` and `System.Version`.
 */
module DotNet {
  import opened Common

  // ---------------------------------------------------------------- strings

  /** `string.IsNullOrEmpty`. */
  predicate IsNullOrEmpty(s: Option<string>) {
    s.None? || s.value == ""
  }

  /** What C# string concatenation makes of an operand: `null` reads as "". */
  function OrEmpty(s: Option<string>): string {
    if s.Some? then s.value else ""
  }

  /** `key` occurs in `text` starting at index `i`. */
  predicate OccursAt(text: string, key: string, i: int) {
    0 <= i && i + |key| <= |text| && text[i..i + |key|] == key
  }

  /** First ordinal occurrence of `key` at or after `start`, or -1. */
  function IndexOfFrom(text: string, key: string, start: nat): (r: int)
    ensures r == -1 || (start <= r && OccursAt(text, key, r))
    ensures forall i :: start <= i && (r == -1 || i < r) ==> !OccursAt(text, key, i)
    decreases |text| + 1 - start
  {
    if start + |key| > |text| then -1
    else if text[start..start + |key|] == key then start
    else IndexOfFrom(text, key, start + 1)
  }

  /** `text.IndexOf(key, StringComparison.Ordinal)`: the first occurrence, or -1. */
  function IndexOf(text: string, key: string): (r: int)
    ensures r == -1 || OccursAt(text, key, r)
    ensures forall i :: 0 <= i && (r == -1 || i < r) ==> !OccursAt(text, key, i)
  {
    IndexOfFrom(text, key, 0)
  }

  /** `text.Contains(key)`: ordinal, case-sensitive. */
  predicate Contains(text: string, key: string)
    ensures Contains(text, key) <==> exists i :: OccursAt(text, key, i)
  {
    IndexOf(text, key) >= 0
  }

  /** First index of character `c` at or after `start`, or -1. */
  function CharIndexFrom(text: string, c: char, start: nat): (r: int)
    ensures r == -1 || (start <= r < |text| && text[r] == c)
    ensures forall i :: start <= i < |text| && (r == -1 || i < r) ==> text[i] != c
    decreases |text| - start
  {
    if start >= |text| then -1
    else if text[start] == c then start
    else CharIndexFrom(text, c, start + 1)
  }

  /** `text.IndexOf(c, startIndex)`: throws when the start lies outside 0..Length. */
  function IndexOfChar(text: string, c: char, startIndex: int): (r: Result<int>)
    ensures r.Failure? <==> startIndex < 0 || startIndex > |text|
    ensures r.Success? ==> r.value == -1 || (startIndex <= r.value < |text| && text[r.value] == c)
  {
    if startIndex < 0 || startIndex > |text| then Failure(ArgumentOutOfRange)
    else Success(CharIndexFrom(text, c, startIndex))
  }

  /** `text.Substring(startIndex, length)`: throws unless the range lies inside the text. */
  function Substring(text: string, startIndex: int, length: int): (r: Result<string>)
    ensures r.Success? <==> 0 <= startIndex && 0 <= length && startIndex + length <= |text|
    ensures r.Success? ==> |r.value| == length && r.value == text[startIndex..startIndex + length]
  {
    if startIndex < 0 || length < 0 || startIndex + length > |text| then Failure(ArgumentOutOfRange)
    else Success(text[startIndex..startIndex + length])
  }

  /** `string.Join(separator, values)` over a non-null array. */
  function Join(separator: string, values: seq<string>): string {
    if |values| == 0 then ""
    else if |values| == 1 then values[0]
    else values[0] + separator + Join(separator, values[1..])
  }

  /**
   * Splitting at every occurrence of `c`, as a reader of a `Join` result does
   * (Unity reads the scripting define symbols back this way).
   */
  function Split(s: string, c: char): (r: seq<string>)
    ensures |r| >= 1
    decreases |s|
  {
    var i := CharIndexFrom(s, c, 0);
    if i < 0 then [s] else [s[..i]] + Split(s[i + 1..], c)
  }

  /** In `head + [c] + tail` with no `c` in `head`, the first `c` is the one after `head`. */
  lemma FirstSeparator(head: string, c: char, tail: string)
    requires c !in head
    ensures CharIndexFrom(head + [c] + tail, c, 0) == |head|
  {
    var s := head + [c] + tail;
    var i := CharIndexFrom(s, c, 0);
    assert s[|head|] == c;
    forall j | 0 <= j < |head|
      ensures s[j] != c
    {
      assert s[j] == head[j];
    }
  }

  /** A separator-free value is split into itself alone. */
  lemma NoSeparator(s: string, c: char)
    requires c !in s
    ensures Split(s, c) == [s]
  {
  }

  /** Joining with a one-character separator that no value contains loses nothing. */
  lemma {:induction false} SplitJoin(values: seq<string>, c: char)
    requires |values| >= 1
    requires forall k :: 0 <= k < |values| ==> c !in values[k]
    ensures Split(Join([c], values), c) == values
  {
    if |values| == 1 {
      NoSeparator(values[0], c);
    } else {
      var head := values[0];
      var tail := Join([c], values[1..]);
      var s := head + [c] + tail;
      assert Join([c], values) == s;
      FirstSeparator(head, c, tail);
      assert s[..|head|] == head;
      assert s[|head| + 1..] == tail;
      SplitJoin(values[1..], c);
    }
  }

  // ---------------------------------------------------------------- int32

  const Int32Min: int := -0x8000_0000
  const Int32Max: int := 0x7FFF_FFFF

  predicate IsInt32(x: int) {
    Int32Min <= x <= Int32Max
  }

  /** Unchecked C# `int` arithmetic: the mathematical result taken modulo 2^32. */
  function WrapInt32(x: int): (r: int)
    ensures IsInt32(r)
    ensures (r - x) % 0x1_0000_0000 == 0
    ensures IsInt32(x) ==> r == x
  {
    (x - Int32Min) % 0x1_0000_0000 + Int32Min
  }

  // ---------------------------------------------------------------- int.Parse / ToString

  predicate IsDigit(c: char) {
    '0' <= c <= '9'
  }

  predicate AllDigits(s: string) {
    forall i :: 0 <= i < |s| ==> IsDigit(s[i])
  }

  /** The white space `NumberStyles.Integer` lets `int.Parse` skip at either end. */
  predicate IsWhite(c: char) {
    c == ' ' || '\t' <= c <= '\r'
  }

  function TrimStart(s: string): (r: string)
    ensures |r| <= |s| && r == s[|s| - |r|..]
    ensures |r| > 0 ==> !IsWhite(r[0])
  {
    if |s| > 0 && IsWhite(s[0]) then TrimStart(s[1..]) else s
  }

  function TrimEnd(s: string): (r: string)
    ensures |r| <= |s| && r == s[..|r|]
    ensures |r| > 0 ==> !IsWhite(r[|r| - 1])
  {
    if |s| > 0 && IsWhite(s[|s| - 1]) then TrimEnd(s[..|s| - 1]) else s
  }

  /** The value of a run of decimal digits. */
  function DigitsValue(s: string): nat
    requires AllDigits(s)
  {
    if s == [] then 0 else 10 * DigitsValue(s[..|s| - 1]) + (s[|s| - 1] as int - '0' as int)
  }

  function DigitChar(d: nat): (c: char)
    requires d < 10
    ensures IsDigit(c) && c as int - '0' as int == d
  {
    (d + '0' as int) as char
  }

  /** Shortest decimal form of a natural number. */
  function NatToString(n: nat): (s: string)
    ensures |s| > 0 && AllDigits(s)
  {
    if n < 10 then [DigitChar(n)] else NatToString(n / 10) + [DigitChar(n % 10)]
  }

  /** `n.ToString(NumberFormatInfo.InvariantInfo)`. */
  function IntToString(n: int): (s: string)
    ensures |s| > 0
  {
    if n < 0 then "-" + NatToString(-n) else NatToString(n)
  }

  /** `int.Parse` on text whose ends are already free of white space. */
  function ParseTrimmed(t: string): (r: Result<int>)
    ensures r.Success? ==> IsInt32(r.value)
    ensures r.Failure? ==> r.error == Format || r.error == Overflow
  {
    var negative := |t| > 0 && t[0] == '-';
    var digits := if |t| > 0 && (t[0] == '-' || t[0] == '+') then t[1..] else t;
    if digits == [] || !AllDigits(digits) then Failure(Format)
    else
      var v: int := if negative then -(DigitsValue(digits) as int) else DigitsValue(digits);
      if IsInt32(v) then Success(v) else Failure(Overflow)
  }

  /**
   * `int.Parse(s)` with `NumberStyles.Integer`: optional white space at both
   * ends, an optional leading sign, then one or more decimal digits; a value
   * outside the 32-bit range throws `OverflowException`, anything else that
   * does not fit the pattern throws `FormatException`.
   */
  function ParseInt(s: string): (r: Result<int>)
    ensures r.Success? ==> IsInt32(r.value)
    ensures r.Failure? ==> r.error == Format || r.error == Overflow
  {
    ParseTrimmed(TrimEnd(TrimStart(s)))
  }

  lemma {:induction false} NatToStringValue(n: nat)
    ensures DigitsValue(NatToString(n)) == n
  {
    if n >= 10 {
      NatToStringValue(n / 10);
      var s := NatToString(n);
      assert s[..|s| - 1] == NatToString(n / 10);
    }
  }

  /** Text that neither starts nor ends with white space is left alone by the trimming. */
  lemma TrimUnchanged(s: string)
    requires |s| > 0 && !IsWhite(s[0]) && !IsWhite(s[|s| - 1])
    ensures TrimEnd(TrimStart(s)) == s
  {
  }

  /** A single character that is not a digit, a sign or white space throws `FormatException`. */
  lemma ParseIntRejectsChar(c: char)
    requires !IsDigit(c) && !IsWhite(c) && c != '-' && c != '+'
    ensures ParseInt([c]) == Failure(Format)
  {
    var t := [c];
    assert TrimStart(t) == t;
    assert TrimEnd(t) == t;
    assert !AllDigits(t) by {
      assert !IsDigit(t[0]);
    }
    assert ParseTrimmed(t) == Failure(Format);
  }

  /** Unsigned digits read back as their value. */
  lemma ParseTrimmedNat(m: nat)
    requires IsInt32(m)
    ensures ParseTrimmed(NatToString(m)) == Success(m)
  {
    var digits := NatToString(m);
    assert IsDigit(digits[0]);
    NatToStringValue(m);
  }

  /** A minus sign before the digits reads back as the negated value. */
  lemma ParseTrimmedNegative(m: nat)
    requires IsInt32(-(m as int))
    ensures ParseTrimmed("-" + NatToString(m)) == Success(-(m as int))
  {
    var digits := NatToString(m);
    var t := "-" + digits;
    assert t[0] == '-';
    assert t[1..] == digits;
    NatToStringValue(m);
  }

  /** `int.Parse` reads back what `ToString` writes, for every 32-bit value. */
  lemma ParseIntToString(n: int)
    requires IsInt32(n)
    ensures ParseInt(IntToString(n)) == Success(n)
  {
    var s := IntToString(n);
    var m: nat := if n < 0 then -n else n;
    var digits := NatToString(m);
    assert IsDigit(digits[|digits| - 1]);
    if n < 0 {
      assert s == "-" + digits;
      assert s[|s| - 1] == digits[|digits| - 1];
      TrimUnchanged(s);
      ParseTrimmedNegative(m);
    } else {
      assert s == digits;
      assert IsDigit(digits[0]);
      TrimUnchanged(s);
      ParseTrimmedNat(m);
    }
  }

  // ---------------------------------------------------------------- Path.Combine

  /** The editor host's directory separator (the Unix one: also the volume and alternate separator). */
  const DirectorySeparatorChar: char := '/'

  predicate IsPathRooted(path: string) {
    |path| > 0 && path[0] == DirectorySeparatorChar
  }

  /** `Path.Combine` on two non-null paths. */
  function CombinePaths(path1: string, path2: string): (r: string)
    ensures |path2| == 0 ==> r == path1
    ensures |path1| == 0 || IsPathRooted(path2) ==> r == path2
    ensures |path1| > 0 && |path2| > 0 && !IsPathRooted(path2) ==>
      |path1| + |path2| <= |r| <= |path1| + |path2| + 1 &&
      r[..|path1|] == path1 && r[|r| - |path2|..] == path2 &&
      DirectorySeparatorChar in r[|path1| - 1..|r| - |path2|]
  {
    if |path2| == 0 then path1
    else if |path1| == 0 then path2
    else if IsPathRooted(path2) then path2
    else if path1[|path1| - 1] == DirectorySeparatorChar then
      var r := path1 + path2;
      assert r[|path1| - 1..|r| - |path2|] == [DirectorySeparatorChar];
      r
    else
      var r := path1 + [DirectorySeparatorChar] + path2;
      assert r[|path1| - 1..|r| - |path2|] == [path1[|path1| - 1], DirectorySeparatorChar];
      r
  }

  /** `Path.Combine(path1, path2)`: throws `ArgumentNullException` on a null argument. */
  function PathCombine(path1: Option<string>, path2: Option<string>): (r: Result<string>)
    ensures r.Success? <==> path1.Some? && path2.Some?
    ensures path1.None? ==> r == Failure(ArgumentNull("path1"))
    ensures path1.Some? && path2.None? ==> r == Failure(ArgumentNull("path2"))
  {
    if path1.None? then Failure(ArgumentNull("path1"))
    else if path2.None? then Failure(ArgumentNull("path2"))
    else Success(CombinePaths(path1.value, path2.value))
  }

  // ---------------------------------------------------------------- System.Version

  datatype Version = Version(major: int, minor: int, build: int, revision: int)

  /** `new Version(major, minor, build, revision)`: every component must be non-negative. */
  function NewVersion(major: int, minor: int, build: int, revision: int): (r: Result<Version>)
    ensures r.Success? <==> major >= 0 && minor >= 0 && build >= 0 && revision >= 0
    ensures r.Failure? ==> r.error == ArgumentOutOfRange
  {
    if major < 0 || minor < 0 || build < 0 || revision < 0 then Failure(ArgumentOutOfRange)
    else Success(Version(major, minor, build, revision))
  }

  // ---------------------------------------------------------------- System.Type

  /**
   * The `Type` argument naming the config class to instantiate; only
   * `BuildConfig` itself is modelled, `None` stands for a null `Type`.
   */
  datatype ConfigType = BuildConfigType
}
