/** `PluginInfo` (lib/plugin_info.js): the name of a plugin and the parsed
    content of its `plugin.json`, with lookups that apply defaults and throw
    for missing entries. Nothing is changed after construction, so a
    plugin info is a value. */
module PluginInfo {
  import opened Common
  import Text
  import Semver

  /** `new PluginInfo(name, info)`: both stored as given; `info` is None
      (`undefined`) when the constructor is called with one argument. */
  datatype PluginInfo = PluginInfo(name: Json, info: Option<Json>)

  function GetName(p: PluginInfo): Json {
    p.name
  }

  /** `this.info.currentVersion`. */
  function GetCurrentVersion(p: PluginInfo): Result<Option<Json>> {
    Prop(p.info, "currentVersion")
  }

  function GetAuthor(p: PluginInfo): Result<Option<Json>> {
    Prop(p.info, "author")
  }

  function GetCopyright(p: PluginInfo): Result<Option<Json>> {
    Prop(p.info, "copyright")
  }

  function GetLicense(p: PluginInfo): Result<Option<Json>> {
    Prop(p.info, "license")
  }

  function GetLink(p: PluginInfo): Result<Option<Json>> {
    Prop(p.info, "link")
  }

  function GetCompatibility(p: PluginInfo): Result<Option<Json>> {
    Prop(p.info, "compatibility")
  }

  /** `language || 'en'`. */
  function Language(language: Option<string>): string {
    if Present(language) then language.value else "en"
  }

  /** The text of an optional string argument in a message (`${language}`). */
  function ArgText(s: Option<string>): string {
    if s.Some? then s.value else "undefined"
  }

  /** `getLabel(language)`: the truthy entry of `info.label` for the language. */
  function GetLabel(p: PluginInfo, language: Option<string>): (r: Result<Json>)
    ensures r.Ok? ==> Truthy(r.value)
  {
    var lang := Language(language);
    var labels :- Prop(p.info, "label");
    var entry :- Prop(labels, lang);
    if !IsTruthy(entry) then Fail(LabelNotAvailable(lang)) else Ok(entry.value)
  }

  /** `getChangelogs(language)`: the truthy entry of `info.changelogs` for the language. */
  function GetChangelogs(p: PluginInfo, language: Option<string>): (r: Result<Json>)
    ensures r.Ok? ==> Truthy(r.value)
  {
    var lang := Language(language);
    var all :- Prop(p.info, "changelogs");
    var changelogs :- Prop(all, lang);
    if !IsTruthy(changelogs) then Fail(ChangelogNotAvailable(lang)) else Ok(changelogs.value)
  }

  /** The key `getChangelog` looks up: the given version, or else the
      current version converted to a property key. */
  function ChangelogVersion(p: PluginInfo, version: Option<string>): Result<string> {
    if Present(version) then Ok(version.value)
    else
      var current :- GetCurrentVersion(p);
      Ok(JsString(current))
  }

  /** `getChangelog(language, version)`: the truthy changelog text of that
      language and version. The message names the language argument as
      given, before defaulting. */
  function GetChangelog(p: PluginInfo, language: Option<string>, version: Option<string>): (r: Result<Json>)
    ensures r.Ok? ==> Truthy(r.value)
  {
    var changelogs :- GetChangelogs(p, language);
    var useVersion :- ChangelogVersion(p, version);
    var entry := Prop(Some(changelogs), useVersion).value;
    if !IsTruthy(entry) then Fail(ChangelogVersionNotAvailable(ArgText(language), useVersion))
    else Ok(entry.value)
  }

  /** The three lookups fall back to English exactly when no language, or
      the empty one, is given. */
  lemma LanguageDefaultsToEnglish(p: PluginInfo, lang: string)
    ensures GetLabel(p, None) == GetLabel(p, Some("")) == GetLabel(p, Some("en"))
    ensures GetChangelogs(p, None) == GetChangelogs(p, Some("")) == GetChangelogs(p, Some("en"))
    ensures lang != "" ==> Language(Some(lang)) == lang
  {
  }

  /** `getLabel` returns the label stored for the language when it is
      truthy and throws "Label for language … not available" when it is
      missing or falsy. */
  lemma GetLabelFromLabels(p: PluginInfo, labels: map<string, Json>, language: Option<string>)
    requires Prop(p.info, "label") == Ok(Some(JObj(labels)))
    ensures var lang := Language(language);
      GetLabel(p, language) == if lang in labels && Truthy(labels[lang]) then Ok(labels[lang]) else Fail(LabelNotAvailable(lang))
  {
  }

  /** Without a version argument, `getChangelog` reads the entry of the
      current version, and throws naming that version when it is missing. */
  lemma GetChangelogOfCurrentVersion(p: PluginInfo, language: Option<string>, current: string, byVersion: map<string, Json>)
    requires GetCurrentVersion(p) == Ok(Some(JStr(current)))
    requires GetChangelogs(p, language) == Ok(JObj(byVersion))
    ensures GetChangelog(p, language, None) ==
      if current in byVersion && Truthy(byVersion[current]) then Ok(byVersion[current])
      else Fail(ChangelogVersionNotAvailable(ArgText(language), current))
  {
  }

  // ----- isCompatible ----------------------------------------------------------

  const DefaultMinimum := JStr("0.0.0")
  const DefaultMaximum := JStr("99.99.99")

  /** `minimumVersion || '0.0.0'`, `maximumVersion || '99.99.99'` and
      `blacklist || []` read from `info.compatibility`. */
  function Constraints(p: PluginInfo): (r: Result<(Json, Json, Json)>)
    ensures r.Ok? ==> GetCompatibility(p).Ok?
  {
    var compatibility :- GetCompatibility(p);
    var min :- Prop(compatibility, "minimumVersion");
    var max := Prop(compatibility, "maximumVersion").value;
    var blacklist := Prop(compatibility, "blacklist").value;
    Ok((if IsTruthy(min) then min.value else DefaultMinimum,
        if IsTruthy(max) then max.value else DefaultMaximum,
        if IsTruthy(blacklist) then blacklist.value else JArr([])))
  }

  /** The version a value names for `semver`; anything else is an invalid
      version and throws a TypeError. */
  function SemverOf(v: Json): (r: Result<Semver.Version>)
    ensures r.Ok? <==> v.JStr? && Semver.Parse(v.s).Some?
  {
    if v.JStr? && Semver.Parse(v.s).Some? then Ok(Semver.Parse(v.s).value)
    else Fail(TypeError("Invalid Version"))
  }

  /** The version `semver` reads from a value, and 0.0.0 for a value it
      rejects; a sort key once every value is known to be read. */
  function SemverKey(v: Json): Semver.Version {
    if SemverOf(v).Ok? then SemverOf(v).value else Semver.Version(0, 0, 0)
  }

  /** `t` occurs in `s` as a substring. */
  predicate Occurs(t: string, s: string) {
    Text.StartsWith(s, t) || (s != [] && Occurs(t, s[1..]))
  }

  /** `blacklist.indexOf(version) === -1`: an array is searched for the
      string, a string for the substring; other values have no `indexOf`. */
  function NotListed(blacklist: Json, version: string): Result<bool> {
    match blacklist
    case JArr(items) => Ok(JStr(version) !in items)
    case JStr(s) => Ok(!Occurs(version, s))
    case _ => Fail(TypeError("blacklist.indexOf is not a function"))
  }

  /** `isCompatible(version)`: `semver.gte(version, min) &&
      semver.lte(version, max) && blacklist.indexOf(version) === -1`,
      evaluated left to right with short-circuiting. */
  function IsCompatible(p: PluginInfo, version: string): Result<bool> {
    var (min, max, blacklist) :- Constraints(p);
    var v :- SemverOf(JStr(version));
    var lo :- SemverOf(min);
    if !Semver.LessEq(lo, v) then Ok(false)
    else
      var hi :- SemverOf(max);
      if !Semver.LessEq(v, hi) then Ok(false)
      else NotListed(blacklist, version)
  }

  /** The blacklist entries as `plugin.json` writes them. */
  function Names(versions: seq<Semver.Version>): (r: seq<Json>)
    ensures |r| == |versions| && forall i :: 0 <= i < |r| ==> r[i] == JStr(Semver.Format(versions[i]))
  {
    if versions == [] then [] else [JStr(Semver.Format(versions[0]))] + Names(versions[1..])
  }

  /** `semver` reads the text form of a version back as that version. */
  lemma SemverOfFormat(v: Semver.Version)
    ensures SemverOf(JStr(Semver.Format(v))) == Ok(v)
  {
    Semver.ParseFormat(Semver.Format(v), v);
  }

  /** Looking a canonical version up by its text in a canonical blacklist
      is looking the version up. */
  lemma {:induction false} NotListedByVersion(v: Semver.Version, blacklist: seq<Semver.Version>)
    ensures NotListed(JArr(Names(blacklist)), Semver.Format(v)) == Ok(v !in blacklist)
  {
    var names := Names(blacklist);
    var text := JStr(Semver.Format(v));
    forall i | 0 <= i < |names| ensures names[i] == text <==> blacklist[i] == v {
      Semver.FormatInjective(blacklist[i], v);
    }
    assert v in blacklist ==> text in names;
  }

  /** With canonical bounds and blacklist, a canonical version is compatible
      exactly when it lies between the bounds (both inclusive) by version
      precedence and is not blacklisted. */
  lemma {:induction false} IsCompatibleMeaning(p: PluginInfo, v: Semver.Version, lo: Semver.Version, hi: Semver.Version, blacklist: seq<Semver.Version>)
    requires Constraints(p) == Ok((JStr(Semver.Format(lo)), JStr(Semver.Format(hi)), JArr(Names(blacklist))))
    ensures IsCompatible(p, Semver.Format(v)) == Ok(Semver.LessEq(lo, v) && Semver.LessEq(v, hi) && v !in blacklist)
  {
    SemverOfFormat(v);
    SemverOfFormat(lo);
    SemverOfFormat(hi);
    NotListedByVersion(v, blacklist);
  }

  /** When `info.compatibility` sets none of the three constraints, every
      canonical version up to 99.99.99 is compatible and none above it. */
  lemma IsCompatibleDefaults(p: PluginInfo, v: Semver.Version)
    requires GetCompatibility(p) == Ok(Some(JObj(map[])))
    ensures IsCompatible(p, Semver.Format(v)) == Ok(Semver.LessEq(v, Semver.Version(99, 99, 99)))
  {
    var zero, top := Semver.Version(0, 0, 0), Semver.Version(99, 99, 99);
    assert Semver.Format(zero) == "0.0.0" by {
      assert Text.NatToString(0) == "0";
    }
    assert Semver.Format(top) == "99.99.99" by {
      assert Text.NatToString(99) == "99";
    }
    assert Names([]) == [];
    IsCompatibleMeaning(p, v, zero, top, []);
  }

  /** A version `semver` cannot read makes `isCompatible` throw. */
  lemma IsCompatibleRejectsInvalid(p: PluginInfo, version: string)
    requires Constraints(p).Ok? && Semver.Parse(version).None?
    ensures IsCompatible(p, version).Fail? && IsCompatible(p, version).error.TypeError?
  {
  }
}
