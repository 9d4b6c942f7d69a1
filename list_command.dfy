/** The listing command (lib/commands/list.js): the minimum Shopware
    version a plugin's latest binary is compatible with, the comparators the
    listing can be sorted by, the validation of the sort option, the filter
    that hides disabled plugins and the rows of the printed table. A plugin
    here is the object the account listing returned, read as its fields;
    its `latestBinary` is the raw object of that listing. */
module ListCommand {
  import opened Common
  import Text
  import Semver
  import PI = PluginInfo
  import SO = StoreObjects

  type Fields = map<string, Json>

  // ----- getShopwareCompatibility --------------------------------------------

  /** `v.length === 0` for a value whose `length` is read: arrays and
      strings by their length, objects by their `length` property; reading
      it of undefined or null throws. */
  function LengthIsZero(v: Option<Json>): Result<bool> {
    match v
    case None => Fail(TypeError("cannot read property length of undefined"))
    case Some(JNull) => Fail(TypeError("cannot read property length of null"))
    case Some(JArr(items)) => Ok(items == [])
    case Some(JStr(s)) => Ok(s == "")
    case Some(JObj(props)) => Ok(SO.Lookup(props, "length") == Some(JNum(0)))
    case Some(_) => Ok(false)
  }

  /** The `name` an entry gives, `None` for `undefined`. */
  function NameOf(entry: Json): Option<Json> {
    if entry.JObj? && "name" in entry.props then Some(entry.props["name"]) else None
  }

  /** The values among `names` that are defined, in their order. */
  function Defined(names: seq<Option<Json>>): (r: seq<Json>)
    ensures forall n :: n in r <==> Some(n) in names
    ensures |r| <= |names|
  {
    if names == [] then []
    else (if names[0].Some? then [names[0].value] else []) + Defined(names[1..])
  }

  /** `entries.map(e => e.name)`, leaving out the `undefined` names, which
      `sort` moves to the end without handing them to the comparator. */
  function DefinedNames(entries: seq<Json>): (r: Result<seq<Json>>)
    ensures r.Ok? <==> forall i :: 0 <= i < |entries| ==> !entries[i].JNull?
    ensures r.Ok? ==> |r.value| <= |entries|
    ensures r.Ok? ==> r.value == Defined(seq(|entries|, i requires 0 <= i < |entries| => NameOf(entries[i])))
  {
    if entries == [] then Ok([])
    else
      var name :- Prop(Some(entries[0]), "name");
      var rest :- DefinedNames(entries[1..]);
      assert seq(|entries|, i requires 0 <= i < |entries| => NameOf(entries[i]))[1..]
          == seq(|entries[1..]|, i requires 0 <= i < |entries[1..]| => NameOf(entries[1..][i]));
      Ok(if name.Some? then [name.value] + rest else rest)
  }

  /** `names.sort(semver.compare).shift()`: a single name is returned
      without any comparison; with two or more, every name is compared, so
      one that `semver` cannot read throws. */
  function MinimumName(names: seq<Json>): (r: Result<Option<Json>>)
    ensures names == [] ==> r == Ok(None)
    ensures |names| == 1 ==> r == Ok(Some(names[0]))
    ensures |names| >= 2 ==> (r.Ok? <==> forall i :: 0 <= i < |names| ==> PI.SemverOf(names[i]).Ok?)
    ensures |names| >= 2 && r.Fail? ==> r.error.TypeError?
  {
    if names == [] then Ok(None)
    else if |names| == 1 then Ok(Some(names[0]))
    else if forall i :: 0 <= i < |names| ==> PI.SemverOf(names[i]).Ok? then
      Ok(Some(Semver.SortBy(names, PI.SemverKey)[0]))
    else
      Fail(TypeError("Invalid Version"))
  }

  /** The name `MinimumName` picks is one of the names, and no name `semver`
      reads has a lower version. */
  lemma MinimumNameIsLeast(names: seq<Json>)
    requires names != [] && MinimumName(names).Ok?
    ensures var m := MinimumName(names).value;
      && m.Some? && m.value in names
      && forall x :: x in names && PI.SemverOf(x).Ok? ==>
           PI.SemverOf(m.value).Ok? && Semver.LessEq(PI.SemverOf(m.value).value, PI.SemverOf(x).value)
  {
    if |names| >= 2 {
      var sorted := Semver.SortBy(names, PI.SemverKey);
      assert sorted[0] in multiset(names);
      Semver.SortedHeadIsMinimum(names, PI.SemverKey);
      forall x | x in names ensures PI.SemverOf(x).Ok? {
        var i :| 0 <= i < |names| && names[i] == x;
      }
    }
  }

  /** `getShopwareCompatibility(plugin)`: null without a truthy
      `latestBinary` or with an empty compatibility list, and otherwise the
      lowest version name of the list. */
  function ShopwareCompatibility(p: Fields): (r: Result<Option<Json>>)
    ensures !IsTruthy(SO.Lookup(p, "latestBinary")) ==> r == Ok(None)
  {
    var latest := SO.Lookup(p, "latestBinary");
    if !IsTruthy(latest) then Ok(None)
    else
      var list := Prop(latest, "compatibleSoftwareVersions").value;
      var empty :- LengthIsZero(list);
      if empty then Ok(None)
      else if !list.value.JArr? then Fail(TypeError("map is not a function"))
      else
        var names :- DefinedNames(list.value.items);
        MinimumName(names)
  }

  /** A compatibility list whose entries name canonical versions yields
      null when it is empty and otherwise the name of its lowest version. */
  lemma {:induction false} CompatibilityIsLowestVersion(p: Fields, binary: Fields, entries: seq<Json>, versions: seq<Semver.Version>)
    requires SO.Lookup(p, "latestBinary") == Some(JObj(binary))
    requires SO.Lookup(binary, "compatibleSoftwareVersions") == Some(JArr(entries))
    requires |entries| == |versions|
    requires forall i :: 0 <= i < |entries| ==> entries[i].JObj? && SO.Lookup(entries[i].props, "name") == Some(JStr(Semver.Format(versions[i])))
    ensures versions == [] ==> ShopwareCompatibility(p) == Ok(None)
    ensures versions != [] ==> var r := ShopwareCompatibility(p);
      && r.Ok? && r.value.Some? && r.value.value.JStr?
      && exists i :: 0 <= i < |versions| && r.value.value.s == Semver.Format(versions[i])
           && forall j :: 0 <= j < |versions| ==> Semver.LessEq(versions[i], versions[j])
  {
    var names := CompatibilityNames(entries, versions);
    CompatibilityOfNames(p, binary, entries, names);
    if versions != [] {
      forall i | 0 <= i < |names| ensures PI.SemverOf(names[i]).Ok? {
        PI.SemverOfFormat(versions[i]);
      }
      MinimumNameIsLeast(names);
      var m := MinimumName(names).value.value;
      var k :| 0 <= k < |names| && names[k] == m;
      PI.SemverOfFormat(versions[k]);
      forall j | 0 <= j < |versions| ensures Semver.LessEq(versions[k], versions[j]) {
        PI.SemverOfFormat(versions[j]);
        assert names[j] in names;
      }
    }
  }

  /** A non-empty compatibility list gives the minimum of its defined names. */
  lemma CompatibilityOfNames(p: Fields, binary: Fields, entries: seq<Json>, names: seq<Json>)
    requires SO.Lookup(p, "latestBinary") == Some(JObj(binary))
    requires SO.Lookup(binary, "compatibleSoftwareVersions") == Some(JArr(entries))
    requires DefinedNames(entries) == Ok(names)
    ensures ShopwareCompatibility(p) == if entries == [] then Ok(None) else MinimumName(names)
  {
    var list := Prop(SO.Lookup(p, "latestBinary"), "compatibleSoftwareVersions");
    assert list == Ok(Some(JArr(entries)));
    assert LengthIsZero(list.value) == Ok(entries == []);
  }

  /** The names the list of `CompatibilityIsLowestVersion` yields: all of
      them, in order. */
  lemma {:induction false} CompatibilityNames(entries: seq<Json>, versions: seq<Semver.Version>) returns (names: seq<Json>)
    requires |entries| == |versions|
    requires forall i :: 0 <= i < |entries| ==> entries[i].JObj? && SO.Lookup(entries[i].props, "name") == Some(JStr(Semver.Format(versions[i])))
    ensures DefinedNames(entries) == Ok(names)
    ensures |names| == |versions| && forall i :: 0 <= i < |names| ==> names[i] == JStr(Semver.Format(versions[i]))
  {
    if entries == [] {
      names := [];
    } else {
      var rest := CompatibilityNames(entries[1..], versions[1..]);
      names := [JStr(Semver.Format(versions[0]))] + rest;
    }
  }

  // ----- pluginComparators ---------------------------------------------------

  /** What the comparators ask of the runtime: `localeCompare` as a
      collation of two texts, and the time in milliseconds of `new Date(x)`. */
  datatype Runtime = Runtime(collate: (string, string) -> int, time: Option<Json> -> int)

  const Epoch := JStr("1970-01-01T00:00:00Z")

  /** The sign of a comparator's result, which is all `sort` looks at. */
  function Sign(n: int): int {
    if n < 0 then -1 else if n > 0 then 1 else 0
  }

  /** A collation that orders two texts oppositely when they are swapped. */
  ghost predicate Antisymmetric(collate: (string, string) -> int) {
    forall s: string, t: string :: Sign(collate(s, t)) == -Sign(collate(t, s))
  }

  /** `receiver.localeCompare(arg)`: only a string has the method; the
      argument is converted to a string. */
  function LocaleCompare(receiver: Option<Json>, arg: Option<Json>, collate: (string, string) -> int): Result<int> {
    if receiver.Some? && receiver.value.JStr? then Ok(collate(receiver.value.s, JsString(arg)))
    else Fail(TypeError("localeCompare is not a function"))
  }

  /** `semver.compare(a, b)`. */
  function SemverCompare(a: Option<Json>, b: Option<Json>): Result<int> {
    if a.None? || b.None? then Fail(TypeError("Invalid Version"))
    else
      var x :- PI.SemverOf(a.value);
      var y :- PI.SemverOf(b.value);
      Ok(Semver.Compare(x, y))
  }

  /** `p.latestBinary ? p.latestBinary[key] : fallback`. */
  function LatestOr(p: Fields, key: string, fallback: Json): Option<Json> {
    var latest := SO.Lookup(p, "latestBinary");
    if IsTruthy(latest) then Prop(latest, key).value else Some(fallback)
  }

  /** `p.latestBinary ? p.latestBinary.status.description : 'none'`. */
  function ReviewStatus(p: Fields): Result<Option<Json>> {
    var latest := SO.Lookup(p, "latestBinary");
    if IsTruthy(latest) then Prop(Prop(latest, "status").value, "description")
    else Ok(Some(JStr("none")))
  }

  /** `getShopwareCompatibility(p) || '10000.0.0'`. */
  function CompatibilityOr(p: Fields): Result<Option<Json>> {
    var c :- ShopwareCompatibility(p);
    Ok(if IsTruthy(c) then c else Some(JStr("10000.0.0")))
  }

  datatype SortKey = ByName | ByVersion | ByActive | ByReviewStatus | ByReleaseDate | ByShopwareCompatibility

  /** `a.activationStatus.name.localeCompare(b.activationStatus.name)`. */
  function CompareActivation(a: Fields, b: Fields, rt: Runtime): Result<int> {
    var nameA :- Prop(SO.Lookup(a, "activationStatus"), "name");
    var nameB :- Prop(SO.Lookup(b, "activationStatus"), "name");
    LocaleCompare(nameA, nameB, rt.collate)
  }

  /** The review statuses of the two latest binaries, `'none'` for a plugin
      without one, compared as texts. */
  function CompareReviewStatus(a: Fields, b: Fields, rt: Runtime): Result<int> {
    var statusA :- ReviewStatus(a);
    var statusB :- ReviewStatus(b);
    LocaleCompare(statusA, statusB, rt.collate)
  }

  /** The two minimum compatibilities, `'10000.0.0'` for a plugin without
      one, compared as versions. */
  function CompareCompatibility(a: Fields, b: Fields): Result<int> {
    var vA :- CompatibilityOr(a);
    var vB :- CompatibilityOr(b);
    SemverCompare(vA, vB)
  }

  /** `a.name.localeCompare(b.name)`. */
  function CompareNames(a: Fields, b: Fields, rt: Runtime): Result<int> {
    LocaleCompare(SO.Lookup(a, "name"), SO.Lookup(b, "name"), rt.collate)
  }

  /** The versions of the two latest binaries, `'0.0.0'` for a plugin
      without one, compared as versions. */
  function CompareVersions(a: Fields, b: Fields): Result<int> {
    SemverCompare(LatestOr(a, "version", JStr("0.0.0")), LatestOr(b, "version", JStr("0.0.0")))
  }

  /** The time of `b`'s latest binary minus that of `a`'s, the epoch for a
      plugin without one. */
  function CompareReleaseDates(a: Fields, b: Fields, rt: Runtime): int {
    rt.time(LatestOr(b, "lastChangeDate", Epoch)) - rt.time(LatestOr(a, "lastChangeDate", Epoch))
  }

  /** `pluginComparators[key](a, b)`. */
  function Comparator(key: SortKey, a: Fields, b: Fields, rt: Runtime): Result<int> {
    match key
    case ByName => CompareNames(a, b, rt)
    case ByVersion => CompareVersions(a, b)
    case ByActive => CompareActivation(a, b, rt)
    case ByReviewStatus => CompareReviewStatus(a, b, rt)
    case ByReleaseDate => Ok(CompareReleaseDates(a, b, rt))
    case ByShopwareCompatibility => CompareCompatibility(a, b)
  }

  /** Swapping the texts swaps the sign of `localeCompare`. */
  lemma LocaleCompareAntisymmetric(x: Option<Json>, y: Option<Json>, collate: (string, string) -> int)
    requires Antisymmetric(collate)
    requires LocaleCompare(x, y, collate).Ok? && LocaleCompare(y, x, collate).Ok?
    ensures Sign(LocaleCompare(x, y, collate).value) == -Sign(LocaleCompare(y, x, collate).value)
  {
    assert JsString(y) == y.value.s && JsString(x) == x.value.s;
    assert Sign(collate(x.value.s, y.value.s)) == -Sign(collate(y.value.s, x.value.s));
  }

  /** Swapping the versions swaps the sign of `semver.compare`. */
  lemma SemverCompareAntisymmetric(x: Option<Json>, y: Option<Json>)
    requires SemverCompare(x, y).Ok? && SemverCompare(y, x).Ok?
    ensures SemverCompare(x, y).value == -SemverCompare(y, x).value
  {
    Semver.LessTrichotomy(PI.SemverOf(x.value).value, PI.SemverOf(y.value).value);
  }

  /** Every comparator orders two plugins oppositely when they are swapped
      (given a collation that does), as `sort` needs of a consistent
      comparator. */
  lemma ComparatorAntisymmetric(key: SortKey, a: Fields, b: Fields, rt: Runtime)
    requires Antisymmetric(rt.collate)
    requires Comparator(key, a, b, rt).Ok? && Comparator(key, b, a, rt).Ok?
    ensures Sign(Comparator(key, a, b, rt).value) == -Sign(Comparator(key, b, a, rt).value)
  {
    match key
    case ByName =>
      LocaleCompareAntisymmetric(SO.Lookup(a, "name"), SO.Lookup(b, "name"), rt.collate);
    case ByVersion =>
      SemverCompareAntisymmetric(LatestOr(a, "version", JStr("0.0.0")), LatestOr(b, "version", JStr("0.0.0")));
    case ByActive =>
      var nameA := Prop(SO.Lookup(a, "activationStatus"), "name").value;
      var nameB := Prop(SO.Lookup(b, "activationStatus"), "name").value;
      LocaleCompareAntisymmetric(nameA, nameB, rt.collate);
    case ByReviewStatus =>
      LocaleCompareAntisymmetric(ReviewStatus(a).value, ReviewStatus(b).value, rt.collate);
    case ByReleaseDate =>
    case ByShopwareCompatibility =>
      SemverCompareAntisymmetric(CompatibilityOr(a).value, CompatibilityOr(b).value);
  }

  /** `semver` reads the text `0.0.0` as version 0.0.0. */
  lemma ZeroReads()
    ensures PI.SemverOf(JStr("0.0.0")) == Ok(Semver.Version(0, 0, 0))
  {
    assert Text.NatToString(0) == "0";
    assert Semver.Format(Semver.Version(0, 0, 0)) == "0.0.0";
    PI.SemverOfFormat(Semver.Version(0, 0, 0));
  }

  /** The version comparator reads a plugin without a latest binary as
      0.0.0: it sorts before every plugin whose binary has a higher version
      and ties with one at 0.0.0. */
  lemma VersionTreatsMissingBinaryAsZero(a: Fields, b: Fields, binary: Fields, v: Semver.Version)
    requires !IsTruthy(SO.Lookup(a, "latestBinary"))
    requires SO.Lookup(b, "latestBinary") == Some(JObj(binary)) && SO.Lookup(binary, "version") == Some(JStr(Semver.Format(v)))
    ensures CompareVersions(a, b) == Ok(if v == Semver.Version(0, 0, 0) then 0 else -1)
  {
    assert LatestOr(a, "version", JStr("0.0.0")) == Some(JStr("0.0.0"));
    assert LatestOr(b, "version", JStr("0.0.0")) == Some(JStr(Semver.Format(v)));
    CompareWithZero(v);
  }

  /** The comparison behind `VersionTreatsMissingBinaryAsZero`, on the two
      compared values. */
  lemma CompareWithZero(v: Semver.Version)
    ensures SemverCompare(Some(JStr("0.0.0")), Some(JStr(Semver.Format(v)))) == Ok(if v == Semver.Version(0, 0, 0) then 0 else -1)
  {
    ZeroReads();
    PI.SemverOfFormat(v);
  }

  /** `semver` reads the text `10000.0.0` as version 10000.0.0. */
  lemma TenThousandReads()
    ensures PI.SemverOf(JStr("10000.0.0")) == Ok(Semver.Version(10000, 0, 0))
  {
    assert Text.NatToString(0) == "0";
    assert Text.NatToString(1) == "1";
    assert Text.NatToString(10) == "10";
    assert Text.NatToString(100) == "100";
    assert Text.NatToString(1000) == "1000";
    assert Text.NatToString(10000) == "10000";
    assert Semver.Format(Semver.Version(10000, 0, 0)) == "10000.0.0";
    PI.SemverOfFormat(Semver.Version(10000, 0, 0));
  }

  /** The compatibility comparator reads a plugin without a compatibility as
      10000.0.0, so it sorts after every plugin whose minimum compatible
      version is lower, whichever side it is on. */
  lemma CompatibilityMissingSortsLast(a: Fields, b: Fields, v: Semver.Version)
    requires ShopwareCompatibility(a) == Ok(None)
    requires ShopwareCompatibility(b) == Ok(Some(JStr(Semver.Format(v))))
    requires Semver.Less(v, Semver.Version(10000, 0, 0))
    ensures CompareCompatibility(a, b) == Ok(1)
    ensures CompareCompatibility(b, a) == Ok(-1)
  {
    FormatNonEmpty(v);
    assert CompatibilityOr(a) == Ok(Some(JStr("10000.0.0")));
    assert CompatibilityOr(b) == Ok(Some(JStr(Semver.Format(v))));
    CompareWithDefaultCompatibility(a, b, v);
  }

  /** The comparison behind `CompatibilityMissingSortsLast`, on the two
      compared values. */
  lemma CompareWithDefaultCompatibility(a: Fields, b: Fields, v: Semver.Version)
    requires CompatibilityOr(a) == Ok(Some(JStr("10000.0.0")))
    requires CompatibilityOr(b) == Ok(Some(JStr(Semver.Format(v))))
    requires Semver.Less(v, Semver.Version(10000, 0, 0))
    ensures CompareCompatibility(a, b) == Ok(1)
    ensures CompareCompatibility(b, a) == Ok(-1)
  {
    TenThousandReads();
    PI.SemverOfFormat(v);
    var top, text := Some(JStr("10000.0.0")), Some(JStr(Semver.Format(v)));
    assert SemverCompare(top, text) == Ok(1);
    assert SemverCompare(text, top) == Ok(-1);
  }

  /** The text of a version is never empty, so never falsy. */
  lemma FormatNonEmpty(v: Semver.Version)
    ensures Semver.Format(v) != ""
  {
    var parts := [Text.NatToString(v.major), Text.NatToString(v.minor), Text.NatToString(v.patch)];
    assert Text.Join(parts, '.') == parts[0] + ['.'] + Text.Join(parts[1..], '.');
  }

  /** The release-date comparator orders newer binaries first and reads a
      plugin without a latest binary as dated at the epoch: it sorts after
      every plugin whose binary is dated after the epoch. */
  lemma ReleaseDateEpochDefault(a: Fields, b: Fields, rt: Runtime)
    requires !IsTruthy(SO.Lookup(a, "latestBinary")) && IsTruthy(SO.Lookup(b, "latestBinary"))
    requires rt.time(Some(Epoch)) == 0
    ensures CompareReleaseDates(a, b, rt) > 0 <==> rt.time(Prop(SO.Lookup(b, "latestBinary"), "lastChangeDate").value) > 0
    ensures CompareReleaseDates(b, a, rt) == -CompareReleaseDates(a, b, rt)
  {
  }

  // ----- the sort option -----------------------------------------------------

  /** `Object.keys(pluginComparators)`, in declaration order. */
  const SortOrders: seq<string> := ["name", "version", "active", "reviewStatus", "releaseDate", "shopwareCompatibility"]

  function KeyName(key: SortKey): string {
    match key
    case ByName => "name"
    case ByVersion => "version"
    case ByActive => "active"
    case ByReviewStatus => "reviewStatus"
    case ByReleaseDate => "releaseDate"
    case ByShopwareCompatibility => "shopwareCompatibility"
  }

  function KeyNamed(name: string): Option<SortKey> {
    if name == "name" then Some(ByName)
    else if name == "version" then Some(ByVersion)
    else if name == "active" then Some(ByActive)
    else if name == "reviewStatus" then Some(ByReviewStatus)
    else if name == "releaseDate" then Some(ByReleaseDate)
    else if name == "shopwareCompatibility" then Some(ByShopwareCompatibility)
    else None
  }

  /** The `--sort` option: the first comparator key when it is not given,
      and otherwise a comparator key or an error naming the keys. */
  function SortOrder(sort: Option<string>): (r: Result<SortKey>)
    ensures sort.None? ==> r == Ok(ByName) && KeyName(ByName) == SortOrders[0]
    ensures sort.Some? ==> (r.Ok? <==> sort.value in SortOrders)
    ensures sort.Some? && r.Ok? ==> KeyName(r.value) == sort.value
    ensures r.Fail? ==> r.error == UnknownSortOrder(sort.value)
  {
    var name := if sort.None? then SortOrders[0] else sort.value;
    var key := KeyNamed(name);
    if key.None? then Fail(UnknownSortOrder(name)) else Ok(key.value)
  }

  /** The members every object literal inherits from `Object.prototype`. */
  const InheritedMembers: seq<string> := ["constructor", "hasOwnProperty", "isPrototypeOf", "propertyIsEnumerable",
    "toLocaleString", "toString", "valueOf", "__defineGetter__", "__defineSetter__", "__lookupGetter__",
    "__lookupSetter__", "__proto__"]

  /** `!pluginComparators[Program.sort]` as written: the lookup also finds
      the inherited members, which are all truthy. */
  predicate RejectedAsWritten(sort: string) {
    sort !in SortOrders && sort !in InheritedMembers
  }

  /** An inherited member name passes the validation as written although
      it names no comparator, while `SortOrder` rejects it. */
  lemma InheritedNamePassesValidation()
    ensures !RejectedAsWritten("toString") && !RejectedAsWritten("constructor")
    ensures SortOrder(Some("toString")) == Fail(UnknownSortOrder("toString"))
    ensures forall s :: s in SortOrders ==> !RejectedAsWritten(s) && SortOrder(Some(s)).Ok?
  {
    assert InheritedMembers[5] == "toString" && InheritedMembers[0] == "constructor";
  }

  // ----- the listed plugins --------------------------------------------------

  /** `p.activationStatus.id === 1`. */
  function IsActive(p: Fields): (r: Result<bool>)
    ensures r.Fail? <==> SO.Lookup(p, "activationStatus").None? || SO.Lookup(p, "activationStatus").value.JNull?
  {
    var id :- Prop(SO.Lookup(p, "activationStatus"), "id");
    Ok(id == Some(JNum(1)))
  }

  /** `plugins.filter(p => p.activationStatus.id === 1)`. */
  function Active(plugins: seq<Fields>): Result<seq<Fields>> {
    if plugins == [] then Ok([])
    else
      var keep :- IsActive(plugins[0]);
      var rest :- Active(plugins[1..]);
      Ok(if keep then [plugins[0]] + rest else rest)
  }

  /** The listed plugins: all of them with `--show-all`, the active ones
      otherwise. */
  function Listed(plugins: seq<Fields>, showAll: bool): (r: Result<seq<Fields>>)
    ensures showAll ==> r == Ok(plugins)
    ensures !showAll ==> r == Active(plugins)
  {
    if showAll then Ok(plugins) else Active(plugins)
  }

  /** The filter fails exactly when some plugin has no activation status to
      read, and otherwise keeps exactly the active plugins. */
  lemma {:induction false} ActiveKeepsExactlyActive(plugins: seq<Fields>)
    ensures Active(plugins).Ok? <==> forall i :: 0 <= i < |plugins| ==> IsActive(plugins[i]).Ok?
    ensures Active(plugins).Ok? ==> forall p :: p in Active(plugins).value <==> p in plugins && IsActive(p) == Ok(true)
  {
    if plugins != [] {
      ActiveKeepsExactlyActive(plugins[1..]);
      if Active(plugins).Ok? {
        forall p ensures p in Active(plugins).value <==> p in plugins && IsActive(p) == Ok(true) {
          assert p in plugins <==> p == plugins[0] || p in plugins[1..];
        }
      }
      if forall i :: 0 <= i < |plugins| ==> IsActive(plugins[i]).Ok? {
        assert forall i :: 0 <= i < |plugins[1..]| ==> IsActive(plugins[1..][i]).Ok? by {
          forall i | 0 <= i < |plugins[1..]| ensures IsActive(plugins[1..][i]).Ok? {
            assert plugins[1..][i] == plugins[i + 1];
          }
        }
      } else {
        var i :| 0 <= i < |plugins| && IsActive(plugins[i]).Fail?;
        if i > 0 {
          assert plugins[1..][i - 1] == plugins[i];
        }
      }
    }
  }

  /** The filter keeps the listing's order: filtering two parts and joining
      them is filtering the whole. */
  lemma {:induction false} ActiveKeepsOrder(xs: seq<Fields>, ys: seq<Fields>)
    requires Active(xs).Ok? && Active(ys).Ok?
    ensures Active(xs + ys) == Ok(Active(xs).value + Active(ys).value)
  {
    if xs != [] {
      var zs := xs + ys;
      assert zs != [] && zs[0] == xs[0] && zs[1..] == xs[1..] + ys;
      ActiveKeepsOrder(xs[1..], ys);
      var rest := Active(xs[1..]).value + Active(ys).value;
      assert Active(zs[1..]) == Ok(rest);
      if IsActive(xs[0]).value {
        assert Active(zs) == Ok([xs[0]] + rest);
        assert [xs[0]] + rest == ([xs[0]] + Active(xs[1..]).value) + Active(ys).value;
      } else {
        assert Active(zs) == Ok(rest);
      }
    } else {
      assert xs + ys == ys;
      assert Active(xs).value + Active(ys).value == Active(ys).value;
    }
  }

  // ----- the table rows ------------------------------------------------------

  const Check := "\U{2713}"
  const Cross := "\U{274C}"

  /** One row of the table: name, version, date, active mark, review status
      and minimum Shopware compatibility. */
  datatype Row = Row(name: Option<Json>, version: Option<Json>, date: Option<Json>, active: string,
                     reviewStatus: Option<Json>, compatibility: Option<Json>)

  /** The row `forEach` pushes for a plugin: a plugin without a latest
      binary shows version 0.0.0, no date and review status `none`, and a
      missing compatibility shows `none`. */
  function RowOf(p: Fields): (r: Result<Row>)
    ensures r.Ok? <==> IsActive(p).Ok? && ReviewStatus(p).Ok? && ShopwareCompatibility(p).Ok?
    ensures r.Ok? ==> (r.value.active == Check <==> IsActive(p) == Ok(true))
    ensures r.Ok? && !IsTruthy(SO.Lookup(p, "latestBinary")) ==>
      r.value.version == Some(JStr("0.0.0")) && r.value.date == Some(JStr("")) && r.value.reviewStatus == Some(JStr("none"))
    ensures r.Ok? ==> (r.value.compatibility == Some(JStr("none")) <==> !IsTruthy(ShopwareCompatibility(p).value) || ShopwareCompatibility(p).value == Some(JStr("none")))
  {
    var version := LatestOr(p, "version", JStr("0.0.0"));
    var date := LatestOr(p, "lastChangeDate", JStr(""));
    var active :- IsActive(p);
    var reviewStatus :- ReviewStatus(p);
    var compatibility :- ShopwareCompatibility(p);
    Ok(Row(SO.Lookup(p, "name"), version, date, if active then Check else Cross, reviewStatus,
           if IsTruthy(compatibility) then compatibility else Some(JStr("none"))))
  }

  /** The `forEach` over the sorted plugins that pushes one row each; a
      plugin whose row throws ends the listing. */
  method Rows(plugins: seq<Fields>) returns (r: Result<seq<Row>>)
    ensures r.Ok? <==> forall i :: 0 <= i < |plugins| ==> RowOf(plugins[i]).Ok?
    ensures r.Ok? ==> |r.value| == |plugins| && forall i :: 0 <= i < |plugins| ==> r.value[i] == RowOf(plugins[i]).value
    ensures r.Fail? ==> exists i :: 0 <= i < |plugins| && RowOf(plugins[i]) == Fail(r.error)
  {
    var table: seq<Row> := [];
    for i := 0 to |plugins|
      invariant |table| == i
      invariant forall j :: 0 <= j < i ==> RowOf(plugins[j]).Ok? && table[j] == RowOf(plugins[j]).value
    {
      var row := RowOf(plugins[i]);
      if row.Fail? {
        return Fail(row.error);
      }
      table := table + [row.value];
    }
    r := Ok(table);
  }
}
