/**
 * Versions and version ranges. The repository's Version and VersionRange classes are not part of
 * this model; this module declares the minimal behaviour the extensions rely on: a three-part
 * version ordered lexicographically, a dotted-text parser, a rendering, and an interval with
 * independently inclusive bounds.
 */
module Versions {
  import opened Wrappers
  import opened JavaString

  datatype Version = Version(major: nat, minor: nat, patch: nat)

  /** Lexicographic order on (major, minor, patch). */
  predicate Less(a: Version, b: Version) {
    a.major < b.major
    || (a.major == b.major && a.minor < b.minor)
    || (a.major == b.major && a.minor == b.minor && a.patch < b.patch)
  }

  /** Less is a strict total order. */
  lemma LessIsStrictTotalOrder(a: Version, b: Version, c: Version)
    ensures !Less(a, a)
    ensures Less(a, b) && Less(b, c) ==> Less(a, c)
    ensures a == b || Less(a, b) || Less(b, a)
    ensures !(Less(a, b) && Less(b, a))
  {
  }

  /** An interval over versions; an absent bound leaves that side open. */
  datatype VersionRange = VersionRange(minIncluded: bool, min: Option<Version>, max: Option<Version>, maxIncluded: bool) {

    predicate AboveMin(v: Version) {
      min.None? || Less(min.value, v) || (v == min.value && minIncluded)
    }

    predicate BelowMax(v: Version) {
      max.None? || Less(v, max.value) || (v == max.value && maxIncluded)
    }

    /** VersionRange.includes: the lower bound is checked first, then the upper one. */
    predicate Includes(v: Version) {
      AboveMin(v) && BelowMax(v)
    }
  }

  /** A range with only an inclusive lower bound holds exactly the versions at or above it. */
  lemma AtLeast(m: Version, v: Version)
    ensures VersionRange(true, Some(m), None, false).Includes(v) <==> !Less(v, m)
  {
    LessIsStrictTotalOrder(v, m, v);
  }

  // ---------------------------------------------------------------------------------------------
  // Decimal text

  predicate IsDigit(c: char) {
    '0' <= c <= '9'
  }

  function DigitChar(d: nat): (c: char)
    requires d < 10
    ensures IsDigit(c) && (c as int) - ('0' as int) == d
  {
    ('0' as int + d) as char
  }

  function DigitValue(c: char): nat
    requires IsDigit(c)
  {
    (c as int) - ('0' as int)
  }

  function DigitsValue(s: string): nat
    requires forall i :: 0 <= i < |s| ==> IsDigit(s[i])
  {
    if s == [] then 0 else 10 * DigitsValue(s[..|s| - 1]) + DigitValue(s[|s| - 1])
  }

  /** A non-empty run of decimal digits, read as a number; anything else is malformed. */
  function ParseNat(s: string): (r: Option<nat>)
    ensures r.Some? <==> s != [] && forall i :: 0 <= i < |s| ==> IsDigit(s[i])
  {
    if s != [] && forall i :: 0 <= i < |s| ==> IsDigit(s[i]) then Some(DigitsValue(s)) else None
  }

  /** The decimal rendering of n, without leading zeros. */
  function NatToString(n: nat): (s: string)
    ensures s != [] && forall i :: 0 <= i < |s| ==> IsDigit(s[i])
  {
    if n < 10 then [DigitChar(n)] else NatToString(n / 10) + [DigitChar(n % 10)]
  }

  /** Reading back a rendered number gives the number. */
  lemma {:induction false} ParseNatToString(n: nat)
    ensures ParseNat(NatToString(n)) == Some(n)
  {
    var s := NatToString(n);
    if n < 10 {
      assert s[..|s| - 1] == [];
      assert DigitsValue(s) == DigitValue(s[0]) == n;
    } else {
      ParseNatToString(n / 10);
      assert s[..|s| - 1] == NatToString(n / 10);
      assert DigitsValue(s) == 10 * (n / 10) + n % 10 == n;
    }
  }

  // ---------------------------------------------------------------------------------------------
  // Splitting on a separator

  /** The pieces of s between occurrences of sep, left to right. */
  function Split(s: string, sep: char): (parts: seq<string>)
    ensures |parts| >= 1
    decreases |s|
  {
    var k := IndexOf(s, sep);
    if k == -1 then [s] else [s[..k]] + Split(s[k + 1..], sep)
  }

  /** The pieces, separated by sep. */
  function Join(parts: seq<string>, sep: char): string
    requires |parts| >= 1
  {
    if |parts| == 1 then parts[0] else parts[0] + [sep] + Join(parts[1..], sep)
  }

  /** The first piece ends at the first separator. */
  lemma SplitFirst(a: string, rest: string, sep: char)
    requires sep !in a
    ensures Split(a + [sep] + rest, sep) == [a] + Split(rest, sep)
  {
    var s := a + [sep] + rest;
    IndexOfUnique(s, sep, |a|);
    assert s[..|a|] == a && s[|a| + 1..] == rest;
  }

  // ---------------------------------------------------------------------------------------------
  // Version text

  /** The i-th dotted component: absent components read as 0, malformed ones fail. */
  function Component(parts: seq<string>, i: nat): Option<nat> {
    if i < |parts| then ParseNat(parts[i]) else Some(0)
  }

  /** The i-th component is absent or a non-empty run of digits. */
  predicate WellFormedComponent(parts: seq<string>, i: nat) {
    i >= |parts| || (parts[i] != [] && forall k :: 0 <= k < |parts[i]| ==> IsDigit(parts[i][k]))
  }

  /**
   * Version.parseVersion on non-null text: the first three dot-separated components; missing ones
   * are 0, components past the third are ignored, and a malformed component gives None.
   */
  function ParseVersion(text: string): (r: Option<Version>)
    ensures r.Some? <==> (WellFormedComponent(Split(text, '.'), 0) && WellFormedComponent(Split(text, '.'), 1)
                          && WellFormedComponent(Split(text, '.'), 2))
  {
    var parts := Split(text, '.');
    var a, b, c := Component(parts, 0), Component(parts, 1), Component(parts, 2);
    if a.Some? && b.Some? && c.Some? then Some(Version(a.value, b.value, c.value)) else None
  }

  /** Version.toString: "major.minor.patch". */
  function VersionToString(v: Version): string {
    Join([NatToString(v.major), NatToString(v.minor), NatToString(v.patch)], '.')
  }

  /** Text with one to three numeric components, possibly followed by more components. */
  lemma ParseDotted(text: string, parts: seq<string>, values: seq<nat>)
    requires Split(text, '.') == parts && 1 <= |values| <= |parts| && |values| <= 3
    requires forall i :: 0 <= i < |values| ==> parts[i] == NatToString(values[i])
    requires |values| < 3 ==> |parts| == |values|
    ensures ParseVersion(text) == Some(Version(values[0],
                                               if |values| > 1 then values[1] else 0,
                                               if |values| > 2 then values[2] else 0))
  {
    forall i | 0 <= i < |values| ensures ParseNat(parts[i]) == Some(values[i]) {
      ParseNatToString(values[i]);
    }
  }

  /** "a.b" reads as a.b.0. */
  lemma ParseMajorMinor(text: string, a: nat, b: nat)
    requires text == NatToString(a) + "." + NatToString(b)
    ensures ParseVersion(text) == Some(Version(a, b, 0))
  {
    var sa, sb := NatToString(a), NatToString(b);
    assert '.' !in sa by { assert forall k :: 0 <= k < |sa| ==> IsDigit(sa[k]); }
    assert IndexOf(sb, '.') == -1 by { assert forall k :: 0 <= k < |sb| ==> IsDigit(sb[k]); }
    SplitFirst(sa, sb, '.');
    ParseDotted(text, [sa, sb], [a, b]);
  }

  /** "a" reads as a.0.0. */
  lemma ParseMajor(text: string, a: nat)
    requires text == NatToString(a)
    ensures ParseVersion(text) == Some(Version(a, 0, 0))
  {
    assert IndexOf(text, '.') == -1 by { assert forall k :: 0 <= k < |text| ==> IsDigit(text[k]); }
    ParseDotted(text, [text], [a]);
  }

  /** VersionRange.toString: interval notation, an absent bound rendered as nothing. */
  function RangeToString(r: VersionRange): string {
    (if r.minIncluded then "[" else "(")
    + (if r.min.Some? then VersionToString(r.min.value) else "")
    + ", "
    + (if r.max.Some? then VersionToString(r.max.value) else "")
    + (if r.maxIncluded then "]" else ")")
  }
}
