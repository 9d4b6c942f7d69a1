/** Version numbers as the core compares them: numeric `major.minor.patch`
    triples ordered by the precedence rule of section 11 of Semantic
    Versioning 2.0.0, their canonical text form (`0|[1-9][0-9]*` for each
    number), and the ascending sort the source asks of `Array.prototype.sort`
    with `semver.compare`. */
module Semver {
  import opened Common
  import Text

  datatype Version = Version(major: nat, minor: nat, patch: nat)

  /** Precedence: major, minor and patch compared numerically, left to right. */
  predicate Less(a: Version, b: Version) {
    || a.major < b.major
    || (a.major == b.major && a.minor < b.minor)
    || (a.major == b.major && a.minor == b.minor && a.patch < b.patch)
  }

  predicate LessEq(a: Version, b: Version) {
    Less(a, b) || a == b
  }

  /** `semver.compare`: -1, 0 or 1 as `a` precedes, equals or follows `b`. */
  function Compare(a: Version, b: Version): (r: int)
    ensures r == -1 <==> Less(a, b)
    ensures r == 0 <==> a == b
    ensures r == 1 <==> Less(b, a)
  {
    if a.major != b.major then (if a.major < b.major then -1 else 1)
    else if a.minor != b.minor then (if a.minor < b.minor then -1 else 1)
    else if a.patch != b.patch then (if a.patch < b.patch then -1 else 1)
    else 0
  }

  lemma LessTransitive(a: Version, b: Version, c: Version)
    requires Less(a, b) && Less(b, c)
    ensures Less(a, c)
  {
  }

  lemma LessTrichotomy(a: Version, b: Version)
    ensures Less(a, b) || a == b || Less(b, a)
    ensures !(Less(a, b) && Less(b, a))
    ensures !Less(a, a)
  {
  }

  // ----- canonical text form -------------------------------------------------

  function DigitValue(c: char): (d: nat)
    requires Text.IsDigit(c)
    ensures d < 10
  {
    (c as int) - 48
  }

  /** The number a digit string denotes. */
  function DigitsValue(s: string): nat
    requires Text.AllDigits(s)
  {
    if s == [] then 0 else 10 * DigitsValue(s[..|s| - 1]) + DigitValue(s[|s| - 1])
  }

  lemma {:induction false} DigitsValueOfNatToString(n: nat)
    ensures DigitsValue(Text.NatToString(n)) == n
  {
    if n >= 10 {
      DigitsValueOfNatToString(n / 10);
      var s := Text.NatToString(n);
      assert s[..|s| - 1] == Text.NatToString(n / 10);
    }
  }

  lemma {:induction false} NumeralValuePositive(s: string)
    requires s != [] && Text.AllDigits(s) && s[0] != '0'
    ensures DigitsValue(s) >= 1
  {
    if |s| > 1 {
      NumeralValuePositive(s[..|s| - 1]);
    }
  }

  lemma {:induction false} NatToStringOfDigitsValue(s: string)
    requires Text.IsNumeral(s)
    ensures Text.NatToString(DigitsValue(s)) == s
  {
    if |s| > 1 {
      var p := s[..|s| - 1];
      NumeralValuePositive(p);
      NatToStringOfDigitsValue(p);
      var n := DigitsValue(s);
      assert n / 10 == DigitsValue(p) && n % 10 == DigitValue(s[|s| - 1]);
      assert s == p + [s[|s| - 1]];
    }
  }

  /** `major.minor.patch` in decimal. */
  function Format(v: Version): string {
    Text.Join([Text.NatToString(v.major), Text.NatToString(v.minor), Text.NatToString(v.patch)], '.')
  }

  /** Reading a canonical `major.minor.patch` text; None where node-semver
      would report an invalid version. */
  function Parse(s: string): Option<Version> {
    var parts := Text.Split(s, '.');
    if |parts| == 3 && Text.IsNumeral(parts[0]) && Text.IsNumeral(parts[1]) && Text.IsNumeral(parts[2]) then
      Some(Version(DigitsValue(parts[0]), DigitsValue(parts[1]), DigitsValue(parts[2])))
    else
      None
  }

  lemma NumeralHasNoDot(s: string)
    requires Text.IsNumeral(s)
    ensures '.' !in s
  {
  }

  /** The text form of a version reads back as that version, and it is the
      only text that does: `Parse(s) == Some(v)` exactly when `s == Format(v)`. */
  lemma ParseFormat(s: string, v: Version)
    ensures Parse(s) == Some(v) <==> s == Format(v)
  {
    var parts := [Text.NatToString(v.major), Text.NatToString(v.minor), Text.NatToString(v.patch)];
    NumeralHasNoDot(parts[0]);
    NumeralHasNoDot(parts[1]);
    NumeralHasNoDot(parts[2]);
    Text.SplitJoin(parts, '.');
    DigitsValueOfNatToString(v.major);
    DigitsValueOfNatToString(v.minor);
    DigitsValueOfNatToString(v.patch);
    if Parse(s) == Some(v) {
      var q := Text.Split(s, '.');
      NatToStringOfDigitsValue(q[0]);
      NatToStringOfDigitsValue(q[1]);
      NatToStringOfDigitsValue(q[2]);
      assert q == parts;
    }
  }

  /** Two versions with the same text are the same version, so comparing
      canonical version strings for equality (`indexOf`, `===`) is comparing
      versions. */
  lemma FormatInjective(a: Version, b: Version)
    ensures Format(a) == Format(b) <==> a == b
  {
    ParseFormat(Format(a), a);
    ParseFormat(Format(a), b);
  }

  // ----- ascending sort by version ---------------------------------------------

  predicate SortedBy<T>(s: seq<T>, key: T -> Version) {
    forall i, j :: 0 <= i < j < |s| ==> LessEq(key(s[i]), key(s[j]))
  }

  /** Places `x` after every element whose key is not greater than its own. */
  function InsertBy<T>(s: seq<T>, x: T, key: T -> Version): (r: seq<T>)
    requires SortedBy(s, key)
    ensures SortedBy(r, key)
    ensures multiset(r) == multiset(s) + multiset{x}
  {
    if s == [] then [x]
    else if Less(key(x), key(s[|s| - 1])) then
      var last := s[|s| - 1];
      var init := InsertBy(s[..|s| - 1], x, key);
      assert s == s[..|s| - 1] + [last];
      forall i | 0 <= i < |init| ensures LessEq(key(init[i]), key(last)) {
        assert init[i] in multiset(init);
        if init[i] != x {
          assert init[i] in multiset(s[..|s| - 1]);
          var j :| 0 <= j < |s| - 1 && s[j] == init[i];
        }
      }
      init + [last]
    else
      s + [x]
  }

  /** `array.sort((l, r) => semver.compare(key(l), key(r)))`: a stable
      insertion sort, ascending by key. */
  function SortBy<T>(s: seq<T>, key: T -> Version): (r: seq<T>)
    ensures SortedBy(r, key)
    ensures multiset(r) == multiset(s)
    ensures |r| == |s|
  {
    if s == [] then []
    else
      var init := SortBy(s[..|s| - 1], key);
      var r := InsertBy(init, s[|s| - 1], key);
      assert s == s[..|s| - 1] + [s[|s| - 1]];
      assert multiset(s) == multiset(s[..|s| - 1]) + multiset{s[|s| - 1]};
      assert |r| == |multiset(r)|;
      r
  }

  /** The first element after sorting carries the smallest key of the list. */
  lemma SortedHeadIsMinimum<T>(s: seq<T>, key: T -> Version)
    requires s != []
    ensures var r := SortBy(s, key); forall x :: x in s ==> LessEq(key(r[0]), key(x))
  {
    var r := SortBy(s, key);
    forall x | x in s ensures LessEq(key(r[0]), key(x)) {
      assert x in multiset(r);
      var j :| 0 <= j < |r| && r[j] == x;
      if j > 0 {
        assert LessEq(key(r[0]), key(r[j]));
      }
    }
  }
}
