/** The upload command (lib/commands/upload.js): the plugin info of the
    archive, with the changelogs of its CHANGELOG.md, decides whether the
    binary is uploaded as a new version or, with `--force`, replaces the
    binary of the same version; the latest binary then gets the version,
    the changelog text of each of its locales and the store's selectable
    Shopware versions the plugin is compatible with, and is saved. Unless
    `--no_release` is given, a review is requested and the release succeeds
    only when that review is approved. */
module UploadCommand {
  import opened Common
  import opened Http
  import Text
  import Semver
  import Archive
  import PI = PluginInfo
  import PJR = PluginJsonReader
  import CP = ChangelogParser
  import SO = StoreObjects
  import SC = StoreCommander
  import CC = CompatibilityCommand

  // ----- the plugin info --------------------------------------------------------

  /** The changelogs `PluginChangelogParser.readZip` gives, as the JSON
      value stored in the plugin info: locale, then version, then text. */
  function ChangelogJson(m: map<string, map<string, string>>): Json {
    JObj(map l | l in m :: JObj(map v | v in m[l] :: JStr(m[l][v])))
  }

  /** `pluginInfo.info.changelogs = pluginChangeLog`: the parsed changelog
      (always truthy, an object even when empty) replaces the changelogs of
      `plugin.json`; assigning to a property of undefined or null throws,
      and a primitive ignores the assignment. */
  function WithChangelogs(p: PI.PluginInfo, m: map<string, map<string, string>>): (r: Result<PI.PluginInfo>)
    ensures r.Fail? <==> p.info.None? || p.info.value.JNull?
    ensures r.Ok? ==> r.value.name == p.name && PI.GetCurrentVersion(r.value) == PI.GetCurrentVersion(p)
    ensures r.Ok? && p.info.value.JObj? ==> Prop(r.value.info, "changelogs") == Ok(Some(ChangelogJson(m)))
    ensures r.Ok? && p.info.value.JObj? ==> forall k :: k != "changelogs" ==> Prop(r.value.info, k) == Prop(p.info, k)
    ensures r.Ok? && !p.info.value.JObj? ==> r.value == p
  {
    match p.info
    case None => Fail(TypeError("cannot set property changelogs of undefined"))
    case Some(JNull) => Fail(TypeError("cannot set property changelogs of null"))
    case Some(JObj(props)) => Ok(PI.PluginInfo(p.name, Some(JObj(props["changelogs" := ChangelogJson(m)]))))
    case Some(_) => Ok(p)
  }

  /** After the parsed changelog replaced the changelogs, the changelog of
      a language for the current version is the text CHANGELOG.md holds
      for that locale and version, and there is none for a locale it does
      not have. */
  lemma ParsedChangelogIsUsed(p: PI.PluginInfo, m: map<string, map<string, string>>, lang: string, current: string)
    requires p.info.Some? && p.info.value.JObj? && SO.Lookup(p.info.value.props, "currentVersion") == Some(JStr(current))
    requires lang != ""
    ensures var q := WithChangelogs(p, m).value;
      && (lang in m && current in m[lang] && m[lang][current] != "" ==> PI.GetChangelog(q, Some(lang), None) == Ok(JStr(m[lang][current])))
      && (lang !in m ==> PI.GetChangelog(q, Some(lang), None) == Fail(ChangelogNotAvailable(lang)))
      && (lang in m && current !in m[lang] ==> PI.GetChangelog(q, Some(lang), None) == Fail(ChangelogVersionNotAvailable(lang, current)))
  {
    var q := WithChangelogs(p, m).value;
    var all := ChangelogJson(m);
    assert Prop(q.info, "changelogs") == Ok(Some(all));
    assert PI.GetCurrentVersion(q) == Ok(Some(JStr(current)));
    if lang in m {
      assert Prop(Some(all), lang) == Ok(Some(JObj(map v | v in m[lang] :: JStr(m[lang][v]))));
    }
  }

  // ----- the changelogs of the latest binary ----------------------------------

  /** `name.split('_').shift()`: the language of a locale name such as
      `de_DE`, the part before the first underscore. */
  function LocaleLanguage(name: string): (r: string)
    ensures '_' !in r && |r| <= |name| && r == name[..|r|]
    ensures r == name || name[|r|] == '_'
  {
    var pieces := Text.Split(name, '_');
    if |pieces| == 1 then pieces[0]
    else
      assert name == pieces[0] + ['_'] + Text.Join(pieces[1..], '_');
      pieces[0]
  }

  /** The locale name of a changelog of the binary, when its `locale`
      holds a string `name`. */
  function LocaleName(item: Json): Option<string> {
    if && item.JObj? && "locale" in item.props && item.props["locale"].JObj?
       && "name" in item.props["locale"].props && item.props["locale"].props["name"].JStr?
    then Some(item.props["locale"].props["name"].s)
    else None
  }

  /** `changelog.locale.name.split('_').shift()`: reading through undefined
      or null throws, and so does a name that is not a string. */
  function ChangelogLanguage(item: Json): (r: Result<string>)
    ensures r.Ok? <==> LocaleName(item).Some?
    ensures r.Ok? ==> r.value == LocaleLanguage(LocaleName(item).value)
    ensures r.Fail? ==> r.error.TypeError?
  {
    var locale :- Prop(Some(item), "locale");
    var name :- Prop(locale, "name");
    if name.Some? && name.value.JStr? then Ok(LocaleLanguage(name.value.s))
    else Fail(TypeError("name.split is not a function"))
  }

  /** One changelog of the binary: its text becomes the plugin's changelog
      of its language for the current version; when there is none, the
      error is only reported and the changelog stays as it was. */
  function Relabelled(item: Json, info: PI.PluginInfo): (r: Json)
    requires ChangelogLanguage(item).Ok?
    ensures var text := PI.GetChangelog(info, Some(ChangelogLanguage(item).value), None);
      && r.JObj? && item.JObj?
      && r.props.Keys == item.props.Keys + (if text.Ok? then {"text"} else {})
      && (forall k :: k in item.props && k != "text" ==> r.props[k] == item.props[k])
      && (text.Ok? ==> r.props["text"] == text.value)
      && (text.Fail? ==> r == item)
  {
    var text := PI.GetChangelog(info, Some(ChangelogLanguage(item).value), None);
    if text.Ok? then JObj(item.props["text" := text.value]) else item
  }

  /** `changelogs.forEach(...)`: every changelog relabelled in order; a
      changelog whose language cannot be read stops the command. */
  function RelabelAll(items: seq<Json>, info: PI.PluginInfo): (r: Result<seq<Json>>)
    ensures r.Ok? <==> forall i :: 0 <= i < |items| ==> ChangelogLanguage(items[i]).Ok?
    ensures r.Ok? ==> |r.value| == |items| && forall i :: 0 <= i < |items| ==> r.value[i] == Relabelled(items[i], info)
    ensures r.Fail? ==> r.error.TypeError?
  {
    if items == [] then Ok([])
    else
      var lang := ChangelogLanguage(items[0]);
      var rest := RelabelAll(items[1..], info);
      assert forall i :: 0 < i < |items| ==> items[i] == items[1..][i - 1];
      if lang.Fail? then Fail(lang.error)
      else if rest.Fail? then Fail(rest.error)
      else Ok([Relabelled(items[0], info)] + rest.value)
  }

  // ----- the compatible Shopware versions ---------------------------------------

  /** `version.selectable && pluginInfo.isCompatible(version.name)`: a
      name that is not a string is not a version `semver` can read. */
  function Compatible(e: Json, info: PI.PluginInfo): (r: Result<bool>)
    ensures r == Ok(true) <==>
      && CC.Selected(e) && SO.Lookup(e.props, "name").Some? && e.props["name"].JStr?
      && PI.IsCompatible(info, e.props["name"].s) == Ok(true)
  {
    var s :- CC.IsSelectable(e);
    if !s then Ok(false)
    else
      var name := SO.Lookup(e.props, "name");
      if name.Some? && name.value.JStr? then PI.IsCompatible(info, name.value.s)
      else
        var constraints :- PI.Constraints(info);
        Fail(TypeError("Invalid Version"))
  }

  /** `shopwareVersions.filter(...)`: the catalog entries that are
      selectable and compatible with the plugin, in catalog order. */
  function CompatibleVersions(catalog: Option<Json>, info: PI.PluginInfo): Result<seq<Json>> {
    var items :- CC.CatalogItems(catalog);
    CC.Kept(items, e => Compatible(e, info))
  }

  /** With canonical bounds and blacklist in `plugin.json`, a catalog entry
      of a canonical version is kept exactly when it is selectable, lies
      between the bounds and is not blacklisted. */
  lemma CompatibleVersionsMeaning(catalog: seq<Json>, info: PI.PluginInfo, lo: Semver.Version, hi: Semver.Version,
                                  blacklist: seq<Semver.Version>, e: Json, v: Semver.Version)
    requires PI.Constraints(info) == Ok((JStr(Semver.Format(lo)), JStr(Semver.Format(hi)), JArr(PI.Names(blacklist))))
    requires CompatibleVersions(Some(JArr(catalog)), info).Ok?
    requires e.JObj? && SO.Lookup(e.props, "name") == Some(JStr(Semver.Format(v)))
    ensures e in CompatibleVersions(Some(JArr(catalog)), info).value <==>
      e in catalog && CC.Selected(e) && Semver.LessEq(lo, v) && Semver.LessEq(v, hi) && v !in blacklist
  {
    PI.IsCompatibleMeaning(info, v, lo, hi, blacklist);
  }

  /** The entries kept from a catalog made of two parts are those kept from
      the first part followed by those kept from the second. */
  lemma CompatibleVersionsInOrder(a: seq<Json>, b: seq<Json>, info: PI.PluginInfo)
    requires CompatibleVersions(Some(JArr(a + b)), info).Ok?
    ensures CompatibleVersions(Some(JArr(a)), info).Ok? && CompatibleVersions(Some(JArr(b)), info).Ok?
    ensures CompatibleVersions(Some(JArr(a + b)), info).value
      == CompatibleVersions(Some(JArr(a)), info).value + CompatibleVersions(Some(JArr(b)), info).value
  {
    CC.KeptAppend(a, b, e => Compatible(e, info));
  }

  // ----- preparing the latest binary ------------------------------------------

  /** Lines 103 to 128 on the latest binary's properties: the version
      becomes the plugin's current version, every changelog is relabelled,
      and the compatible versions replace the binary's list; nothing else
      changes. */
  function Prepared(props: map<string, Json>, info: PI.PluginInfo, statics: Json): (r: Result<map<string, Json>>)
    ensures r.Ok? ==> PI.GetCurrentVersion(info).Ok? && SO.Lookup(r.value, "version") == PI.GetCurrentVersion(info).value
    ensures r.Ok? ==> forall k :: k != "version" && k != "changelogs" && k != CC.CompatibilityKey ==> SO.Lookup(r.value, k) == SO.Lookup(props, k)
  {
    var current :- PI.GetCurrentVersion(info);
    var versioned := SO.Assigned(props, "version", current);
    var changelogs := SO.Lookup(versioned, "changelogs");
    if changelogs.None? || !changelogs.value.JArr? then Fail(TypeError("changelogs.forEach is not a function"))
    else
      var relabelled :- RelabelAll(changelogs.value.items, info);
      var catalog :- Prop(Some(statics), "softwareVersions");
      var compatible :- CompatibleVersions(catalog, info);
      Ok(versioned["changelogs" := JArr(relabelled)][CC.CompatibilityKey := JArr(compatible)])
  }

  /** The prepared binary carries every changelog relabelled and exactly
      the compatible versions of the store's catalog; the preparation
      fails when the binary has no changelog array. */
  lemma PreparedListsAndTexts(props: map<string, Json>, info: PI.PluginInfo, statics: Json)
    requires Prepared(props, info, statics).Ok?
    ensures "changelogs" in props && props["changelogs"].JArr? && RelabelAll(props["changelogs"].items, info).Ok?
    ensures SO.Lookup(Prepared(props, info, statics).value, "changelogs") == Some(JArr(RelabelAll(props["changelogs"].items, info).value))
    ensures Prop(Some(statics), "softwareVersions").Ok? && CompatibleVersions(Prop(Some(statics), "softwareVersions").value, info).Ok?
    ensures SO.Lookup(Prepared(props, info, statics).value, CC.CompatibilityKey)
      == Some(JArr(CompatibleVersions(Prop(Some(statics), "softwareVersions").value, info).value))
  {
  }

  /** A binary without a changelog array cannot be prepared. */
  lemma PreparedNeedsChangelogs(props: map<string, Json>, info: PI.PluginInfo, statics: Json)
    requires PI.GetCurrentVersion(info).Ok?
    requires "changelogs" !in props || !props["changelogs"].JArr?
    ensures Prepared(props, info, statics).Fail? && Prepared(props, info, statics).error.TypeError?
  {
  }

  /** A body some uploaded binary's properties prepare to. */
  ghost predicate IsPrepared(put: map<string, Json>, info: PI.PluginInfo, statics: Json) {
    exists props :: Prepared(props, info, statics) == Ok(put)
  }

  // ----- the version conflict and the review verdict ---------------------------

  /** The version `semver` reads from a value that may be undefined. */
  function VersionOf(v: Option<Json>): (r: Result<Semver.Version>)
    ensures r.Ok? <==> v.Some? && PI.SemverOf(v.value).Ok?
    ensures r.Ok? ==> r == PI.SemverOf(v.value)
    ensures r.Fail? ==> r.error.TypeError?
  {
    if v.None? then Fail(TypeError("Invalid Version")) else PI.SemverOf(v.value)
  }

  /** `binaries.find(b => semver.eq(b.version, currentVersion))`, as the
      index of the first binary of the current version; a version `semver`
      cannot read, met before such a binary, throws. */
  function Conflict(versions: seq<Option<Json>>, current: Option<Json>): (r: Result<Option<nat>>)
    ensures r.Ok? && r.value.Some? ==>
      && r.value.value < |versions| && VersionOf(versions[r.value.value]).Ok?
      && VersionOf(versions[r.value.value]) == VersionOf(current)
      && forall j :: 0 <= j < r.value.value ==> VersionOf(versions[j]).Ok? && VersionOf(versions[j]) != VersionOf(current)
    ensures r == Ok(None) <==>
      || versions == []
      || (&& VersionOf(current).Ok?
          && forall j :: 0 <= j < |versions| ==> VersionOf(versions[j]).Ok? && VersionOf(versions[j]) != VersionOf(current))
    ensures VersionOf(current).Ok? && (forall j :: 0 <= j < |versions| ==> VersionOf(versions[j]).Ok?) ==> r.Ok?
    ensures r.Fail? ==> r.error.TypeError?
  {
    if versions == [] then Ok(None)
    else
      var a :- VersionOf(versions[0]);
      var b :- VersionOf(current);
      if a == b then Ok(Some(0))
      else
        var rest :- Conflict(versions[1..], current);
        assert forall j :: 0 < j < |versions| ==> versions[j] == versions[1..][j - 1];
        Ok(if rest.Some? then Some(rest.value + 1) else None)
  }

  /** The text forms of versions, as binaries carry them. */
  function Texts(versions: seq<Semver.Version>): (r: seq<Option<Json>>)
    ensures |r| == |versions| && forall i :: 0 <= i < |r| ==> r[i] == Some(JStr(Semver.Format(versions[i])))
  {
    if versions == [] then [] else [Some(JStr(Semver.Format(versions[0])))] + Texts(versions[1..])
  }

  /** When every version can be read, the conflicting binary is the first
      binary whose version is the current version. */
  lemma ConflictIsFirstEqual(texts: seq<Option<Json>>, current: Option<Json>, versions: seq<Semver.Version>, v: Semver.Version)
    requires |texts| == |versions| && forall i :: 0 <= i < |texts| ==> VersionOf(texts[i]) == Ok(versions[i])
    requires VersionOf(current) == Ok(v)
    ensures var r := Conflict(texts, current);
      && r.Ok?
      && (r.value.None? <==> v !in versions)
      && (r.value.Some? ==>
            && r.value.value < |versions| && versions[r.value.value] == v
            && forall j :: 0 <= j < r.value.value ==> versions[j] != v)
  {
  }

  /** With canonical version texts, the conflicting binary is the first
      binary whose version is the current version. */
  lemma ConflictIsSameVersion(versions: seq<Semver.Version>, current: Semver.Version)
    ensures var r := Conflict(Texts(versions), Some(JStr(Semver.Format(current))));
      && r.Ok?
      && (r.value.None? <==> current !in versions)
      && (r.value.Some? ==>
            && r.value.value < |versions| && versions[r.value.value] == current
            && forall j :: 0 <= j < r.value.value ==> versions[j] != current)
  {
    var texts := Texts(versions);
    PI.SemverOfFormat(current);
    forall i | 0 <= i < |versions|
      ensures VersionOf(texts[i]) == Ok(versions[i])
    {
      PI.SemverOfFormat(versions[i]);
    }
    ConflictIsFirstEqual(texts, Some(JStr(Semver.Format(current))), versions, current);
  }

  /** The versions of the plugin's binaries, from their properties. */
  function BinaryVersions(binaries: seq<map<string, Json>>): (r: seq<Option<Json>>)
    ensures |r| == |binaries| && forall i :: 0 <= i < |binaries| ==> r[i] == SO.Lookup(binaries[i], "version")
  {
    if binaries == [] then []
    else [SO.Lookup(binaries[0], "version")] + BinaryVersions(binaries[1..])
  }

  /** Lines 86 to 98 on values, for a plugin with properties `props` and
      binaries with properties `binaries`: the request that transfers the
      file. `find` throws when the plugin's binaries are not an array; the
      first binary of the current version is replaced only with `force`,
      and without a binary of that version the file is a new binary. */
  function TransferRequest(generation: SC.Generation, props: map<string, Json>, binaries: seq<map<string, Json>>,
                           current: Option<Json>, filePath: string, force: bool): Result<Sent>
  {
    if !SO.HoldsArray(props, "binaries") then Fail(TypeError("plugin.binaries.find is not a function"))
    else
      var conflict :- Conflict(BinaryVersions(binaries), current);
      var id := JsString(SO.Lookup(props, "id"));
      if conflict.None? then Ok(SC.Upload(generation, SC.BinariesPath(id), filePath))
      else if !force then Fail(VersionExists(JsString(SO.Lookup(binaries[conflict.value], "version")), JsString(SO.Lookup(props, "name"))))
      else Ok(SC.Upload(generation, SC.BinaryPath(id, JsString(SO.Lookup(binaries[conflict.value], "id"))) + "/file", filePath))
  }

  /** With canonical version texts, a version the plugin has no binary of
      is uploaded as a new binary; otherwise the command stops with
      `VersionExists` unless `force` is given, and with it the file
      replaces the first binary of that version. */
  lemma TransferChoosesBinary(generation: SC.Generation, props: map<string, Json>, binaries: seq<map<string, Json>>,
                              versions: seq<Semver.Version>, current: Semver.Version, filePath: string, force: bool)
    requires SO.HoldsArray(props, "binaries")
    requires |binaries| == |versions|
    requires forall i :: 0 <= i < |binaries| ==> SO.Lookup(binaries[i], "version") == Some(JStr(Semver.Format(versions[i])))
    ensures var r := TransferRequest(generation, props, binaries, Some(JStr(Semver.Format(current))), filePath, force);
      var id := JsString(SO.Lookup(props, "id"));
      && (current !in versions ==> r == Ok(SC.Upload(generation, SC.BinariesPath(id), filePath)))
      && (current in versions && !force ==> r == Fail(VersionExists(Semver.Format(current), JsString(SO.Lookup(props, "name")))))
      && (current in versions && force ==>
            exists k :: && 0 <= k < |versions| && versions[k] == current && (forall j :: 0 <= j < k ==> versions[j] != current)
                        && r == Ok(SC.Upload(generation, SC.BinaryPath(id, JsString(SO.Lookup(binaries[k], "id"))) + "/file", filePath)))
  {
    ConflictIsSameVersion(versions, current);
    assert BinaryVersions(binaries) == Texts(versions);
    var conflict := Conflict(Texts(versions), Some(JStr(Semver.Format(current))));
    if conflict.value.Some? {
      var k := conflict.value.value;
      assert versions[k] == current;
    }
  }

  /** A review whose status is named `approved`. */
  predicate Approved(review: map<string, Json>) {
    && "status" in review && review["status"].JObj?
    && SO.Lookup(review["status"].props, "name") == Some(JStr("approved"))
  }

  /** `review.status.name !== 'approved'` on the last review, undefined
      when there is none: reading through undefined or null throws, and any
      other name fails the release with the reviewer's comment. */
  function Verdict(review: Option<map<string, Json>>, pluginName: string): (r: Result<()>)
    ensures r.Ok? <==> review.Some? && Approved(review.value)
    ensures r.Fail? ==> (r.error.TypeError? <==> review.None? || SO.Lookup(review.value, "status") in {None, Some(JNull)})
    ensures r.Fail? && !r.error.TypeError? ==> r.error.ReviewNotApproved? && r.error.plugin == pluginName
  {
    var status :- if review.None? then Fail(TypeError("cannot read property status of undefined")) else Ok(SO.Lookup(review.value, "status"));
    var name :- Prop(status, "name");
    if name == Some(JStr("approved")) then Ok(())
    else Fail(ReviewNotApproved(pluginName, JsString(name), JsString(SO.Lookup(review.value, "comment"))))
  }


  // ----- the steps on values ----------------------------------------------------

  /** The properties of the latest binary after `plugin.binaries = data`:
      those of the array's last item, and none for an empty array or a body
      that is not an array. */
  function LatestOf(data: Json): Option<map<string, Json>> {
    if data.JArr? && data.items != [] then Some(SO.Fields(data.items[|data.items| - 1])) else None
  }

  /** Lines 103 to 130 on values, from the latest binary's properties
      (None when there is no latest binary): the result, the latest
      binary's properties afterwards and the trace. The binary is prepared
      and put; a binary it cannot prepare is neither changed nor sent, a
      put that fails leaves it prepared, and a put that succeeds writes the
      store's changelogs, compatible versions and status back into it. */
  function Saving(latest: Option<map<string, Json>>, info: PI.PluginInfo, statics: Json, pluginId: string, net: Net)
    : (Result<()>, Option<map<string, Json>>, Net)
  {
    if latest.None? then (Fail(TypeError("cannot set property version of undefined")), None, net)
    else
      var prepared := Prepared(latest.value, info, statics);
      if prepared.Fail? then (Fail(prepared.error), latest, net)
      else
        var t := Transmit(net, Sent(Put, SC.BinaryPath(pluginId, JsString(SO.Lookup(latest.value, "id"))), None, JObj(prepared.value), None));
        if !IsSuccess(t.0) then (Fail(ErrorOf(t.0)), Some(prepared.value), t.1)
        else if t.0.data.JNull? then (Fail(TypeError("cannot read property changelogs of null")), Some(prepared.value), t.1)
        else (Ok(()), Some(SC.WrittenBack(prepared.value, SO.Fields(t.0.data))), t.1)
  }

  /** A save that succeeds sends one put whose body is the prepared binary,
      and leaves the binary with the plugin's current version and with the
      changelogs, compatible versions and status the store answered with. */
  lemma SavedAsPrepared(latest: Option<map<string, Json>>, info: PI.PluginInfo, statics: Json, pluginId: string, net: Net)
    requires Saving(latest, info, statics, pluginId, net).0.Ok?
    ensures latest.Some? && Prepared(latest.value, info, statics).Ok?
    ensures var s := Saving(latest, info, statics, pluginId, net);
      var prepared := Prepared(latest.value, info, statics).value;
      var answer := SO.Fields(NextReply(net.script).data);
      && s.2.sent == net.sent + [Sent(Put, SC.BinaryPath(pluginId, JsString(SO.Lookup(latest.value, "id"))), None, JObj(prepared), None)]
      && IsPrepared(prepared, info, statics)
      && s.1.Some? && SO.Lookup(s.1.value, "version") == PI.GetCurrentVersion(info).value
      && (forall k :: k in SC.WriteBackKeys ==> SO.Lookup(s.1.value, k) == SO.Lookup(answer, k))
      && (forall k :: k !in SC.WriteBackKeys ==> SO.Lookup(s.1.value, k) == SO.Lookup(prepared, k))
  {
  }

  /** Lines 86 to 130 on values, from the plugin's properties, its
      binaries' properties and the store's statics: the result, the latest
      binary's properties once the save is reached (None before), and the
      trace. The file is transferred, the plugin takes the binaries the
      store answers with, and their last one is prepared and saved. */
  function Publishing(generation: SC.Generation, props: map<string, Json>, binaries: seq<map<string, Json>>, info: PI.PluginInfo,
                      statics: Json, filePath: string, force: bool, net: Net): (Result<()>, Option<map<string, Json>>, Net)
    requires PI.GetCurrentVersion(info).Ok?
  {
    var request := TransferRequest(generation, props, binaries, PI.GetCurrentVersion(info).value, filePath, force);
    if request.Fail? then (Fail(request.error), None, net)
    else
      var t := Transmit(net, request.value);
      if !IsSuccess(t.0) then (Fail(ErrorOf(t.0)), None, t.1)
      else if t.0.data.JNull? then (Fail(SC.BinariesOfNull), None, t.1)
      else Saving(LatestOf(t.0.data), info, statics, JsString(SO.Lookup(props, "id")), t.1)
  }

  /** Publishing succeeds exactly when the transfer is sent and succeeds
      with a body, and the last binary of that body is saved; it then sent
      the transfer and the put, in that order. */
  lemma PublishedInTwoRequests(generation: SC.Generation, props: map<string, Json>, binaries: seq<map<string, Json>>, info: PI.PluginInfo,
                               statics: Json, filePath: string, force: bool, net: Net)
    requires PI.GetCurrentVersion(info).Ok?
    ensures var p := Publishing(generation, props, binaries, info, statics, filePath, force, net);
      var request := TransferRequest(generation, props, binaries, PI.GetCurrentVersion(info).value, filePath, force);
      && (p.0.Ok? <==>
            && request.Ok?
            && var t := Transmit(net, request.value);
               && IsSuccess(t.0) && !t.0.data.JNull?
               && Saving(LatestOf(t.0.data), info, statics, JsString(SO.Lookup(props, "id")), t.1).0.Ok?)
      && (p.0.Ok? ==>
            && request.Ok?
            && var t := Transmit(net, request.value);
            && |p.2.sent| == |net.sent| + 2 && p.2.sent[..|net.sent| + 1] == net.sent + [request.value]
            && p.2.sent[|net.sent| + 1].verb == Put
            && p.2.sent[|net.sent| + 1].data == JObj(Prepared(LatestOf(t.0.data).value, info, statics).value))
  {
    var p := Publishing(generation, props, binaries, info, statics, filePath, force, net);
    if p.0.Ok? {
      var request := TransferRequest(generation, props, binaries, PI.GetCurrentVersion(info).value, filePath, force);
      var t := Transmit(net, request.value);
      SavedAsPrepared(LatestOf(t.0.data), info, statics, JsString(SO.Lookup(props, "id")), t.1);
      assert p.2.sent[..|net.sent| + 1] == t.1.sent;
    }
  }

  /** Lines 135 to 151 on values, for the plugin with id `pluginId` and
      name `pluginName` whose reviews are an array exactly when `listed`:
      the stage reached and the trace. A review is requested and polled,
      and the release succeeds exactly when the polled review is approved;
      the older commander cannot poll and fails right after the request. */
  function Reviewing(generation: SC.Generation, pluginId: string, pluginName: string, listed: bool, noRelease: bool, net: Net)
    : (Result<Stage>, Net)
  {
    if noRelease then (Ok(Uploaded), net)
    else
      var t := Transmit(net, SC.ReviewRequest(generation, pluginId));
      if !IsSuccess(t.0) then (Fail(ErrorOf(t.0)), t.1)
      else if !listed then (Fail(SC.ReviewsNotArray), t.1)
      else if generation == SC.Legacy then (Fail(SC.NoSpinner), t.1)
      else if t.0.data.JNull? then
        (Fail(if IsSuccess(NextReply(t.1.script)) then SC.ReviewIdOfNull else ErrorOf(NextReply(t.1.script))),
         Net(Rest(t.1.script), t.1.sent + [SC.Fetch(SC.ReviewsPath(pluginId))], t.1.events, t.1.sleeps + [SC.PollSeconds * 1000]))
      else
        var polled := SC.PollAll(SO.Fields(t.0.data), t.1, pluginId, 0);
        if polled.0.Fail? then (Fail(polled.0.error), polled.2)
        else
          var verdict := Verdict(Some(polled.1), pluginName);
          (if verdict.Ok? then Ok(Released(polled.1)) else Fail(verdict.error), polled.2)
  }

  /** Without `noRelease` the review request is the first thing sent, and
      the command succeeds exactly when the newer commander's request gives
      a review, the polling ends and the polled review is approved; a
      released review is approved and no longer pending. */
  lemma ReleasedWhenApproved(generation: SC.Generation, pluginId: string, pluginName: string, listed: bool, noRelease: bool, net: Net)
    ensures var r := Reviewing(generation, pluginId, pluginName, listed, noRelease, net);
      var t := Transmit(net, SC.ReviewRequest(generation, pluginId));
      && (noRelease ==> r == (Ok(Uploaded), net))
      && (!noRelease ==> |r.1.sent| > |net.sent| && r.1.sent[|net.sent|] == SC.ReviewRequest(generation, pluginId))
      && (!noRelease ==>
            (r.0.Ok? <==>
               && IsSuccess(t.0) && listed && generation == SC.Current && !t.0.data.JNull?
               && SC.PollAll(SO.Fields(t.0.data), t.1, pluginId, 0).0.Ok?
               && Approved(SC.PollAll(SO.Fields(t.0.data), t.1, pluginId, 0).1)))
      && (r.0.Ok? ==> (r.0.value.Uploaded? <==> noRelease))
      && (r.0.Ok? && r.0.value.Released? ==> Approved(r.0.value.review) && SC.ReviewFinished(r.0.value.review))
  {
    if !noRelease {
      var t := Transmit(net, SC.ReviewRequest(generation, pluginId));
      if IsSuccess(t.0) && listed && generation == SC.Current && !t.0.data.JNull? {
        SC.PollAllFetches(SO.Fields(t.0.data), t.1, pluginId, 0);
        SC.PollAllOutcome(SO.Fields(t.0.data), t.1, pluginId, 0);
      }
    }
  }

  /** The state the rest of the command starts from once the plugin is
      located: its properties, its binaries' properties and the statics. */
  datatype View = View(props: map<string, Json>, binaries: seq<map<string, Json>>, statics: Json)

  /** Lines 77 to 151 on values, from a located plugin and the trace so
      far: the file is published and, unless `noRelease`, released. */
  function Delivering(generation: SC.Generation, view: View, info: PI.PluginInfo, filePath: string, force: bool, noRelease: bool, net: Net)
    : (Result<Stage>, Net)
    requires PI.GetCurrentVersion(info).Ok?
  {
    var p := Publishing(generation, view.props, view.binaries, info, view.statics, filePath, force, net);
    if p.0.Fail? then (Fail(p.0.error), p.2)
    else Reviewing(generation, JsString(SO.Lookup(view.props, "id")), JsString(SO.Lookup(view.props, "name")),
                   SO.HoldsArray(view.props, "reviews"), noRelease, p.2)
  }

  /** A delivery succeeds exactly when the publishing does and the review
      stage does; it stops after the upload exactly with `noRelease`, and a
      release carries an approved, finished review. */
  lemma DeliveredWhenPublishedAndApproved(generation: SC.Generation, view: View, info: PI.PluginInfo, filePath: string,
                                          force: bool, noRelease: bool, net: Net)
    requires PI.GetCurrentVersion(info).Ok?
    ensures var d := Delivering(generation, view, info, filePath, force, noRelease, net);
      var p := Publishing(generation, view.props, view.binaries, info, view.statics, filePath, force, net);
      && (d.0.Ok? <==> p.0.Ok? && Reviewing(generation, JsString(SO.Lookup(view.props, "id")), JsString(SO.Lookup(view.props, "name")),
                                             SO.HoldsArray(view.props, "reviews"), noRelease, p.2).0.Ok?)
      && (d.0.Ok? ==> (d.0.value.Uploaded? <==> noRelease))
      && (d.0.Ok? && d.0.value.Released? ==> Approved(d.0.value.review) && SC.ReviewFinished(d.0.value.review))
  {
    var p := Publishing(generation, view.props, view.binaries, info, view.statics, filePath, force, net);
    ReleasedWhenApproved(generation, JsString(SO.Lookup(view.props, "id")), JsString(SO.Lookup(view.props, "name")),
                         SO.HoldsArray(view.props, "reviews"), noRelease, p.2);
  }

  /** The properties of the binaries built from a plugin's `binaries`. */
  function Loaded(props: map<string, Json>): (r: seq<map<string, Json>>)
    ensures |r| == |SO.ArrayItems(props, "binaries")|
    ensures forall i :: 0 <= i < |r| ==> r[i] == SO.Fields(SO.ArrayItems(props, "binaries")[i])
  {
    var items := SO.ArrayItems(props, "binaries");
    seq(|items|, i requires 0 <= i < |items| => SO.Fields(items[i]))
  }

  /** The trace after one put of the plugin to the store. */
  function PutPlugin(net: Net, props: map<string, Json>, body: Json): Net {
    Transmit(net, Sent(Put, SC.PluginPath(JsString(SO.Lookup(props, "id"))), None, body, None)).1
  }

  /** Lines 77 to 80 on values, for a commander that has not loaded the
      account and starts from the trace `start`: `found` is the plugin
      named `name` as loaded with its binaries and reviews, together with
      the statics, or why there is none, and `net` the trace afterwards
      (left open when the account cannot be loaded). */
  ghost predicate Found(start: Net, name: string, found: Result<(SC.Loading, Json)>, net: Net) {
    var account := SC.AccountData(start.script);
    if account.Fail? then found == Fail(account.error)
    else if name !in account.value.1 then found == Fail(PluginNotFound(name)) && net == SC.AccountNet(start, account.value.0)
    else
      var listed := account.value.1[name];
      var load := SC.LoadAll(SC.Loading(listed, []), SC.AccountNet(start, account.value.0), Extra, SC.Links(listed, Extra));
      && net == load.2
      && found == (if load.0.Fail? then Fail(load.0.error) else Ok((load.1, account.value.2)))
  }

  /** Lines 82 to 84 on values, after `found` and the trace `mid`: `r` is
      how locating ends, `net` the trace afterwards and, when it succeeds,
      `view` the plugin's state. When the plugin needs the partial
      encryption addon, it is pushed, and the plugin put and merged. A put
      whose answer renames the plugin hands on another cached plugin, left
      open here. */
  ghost predicate Settled(generation: SC.Generation, name: string, found: Result<(SC.Loading, Json)>, mid: Net,
                          r: Result<()>, view: View, net: Net) {
    if found.Fail? then r == Fail(found.error) && net == mid
    else
      var loading := found.value.0;
      var statics := found.value.1;
      var plan := SC.AddonPlan(generation, loading.props, statics);
      if plan.Fail? then r == Fail(plan.error) && net == mid
      else if plan.value.None? then r == Ok(()) && net == mid && view == View(loading.props, Loaded(loading.props), statics)
      else
        var pushed := SC.Pushed(loading.props, plan.value.value);
        var reply := NextReply(mid.script);
        && (exists body :: net == PutPlugin(mid, loading.props, body))
        && (!IsSuccess(reply) ==> r == Fail(ErrorOf(reply)))
        && (IsSuccess(reply) && reply.data.JNull? ==> r.Fail?)
        && (IsSuccess(reply) && !reply.data.JNull? ==>
              var merged := SO.Merged(pushed, SO.Fields(reply.data), loading.loaded);
              JsString(SO.Lookup(merged, "name")) == name ==>
                r == Ok(()) && view == View(merged, Loaded(loading.props), statics))
  }

  /** Lines 77 to 84 on values: the plugin is found, then settled. */
  ghost predicate Located(generation: SC.Generation, start: Net, name: string, r: Result<()>, view: View, net: Net) {
    exists found, mid :: Found(start, name, found, mid) && Settled(generation, name, found, mid, r, view, net)
  }

  /** What `Load` gives for the archive at `filePath`: the plugin info of
      its `plugin.json` with the changelogs of its CHANGELOG.md, or why
      there is none. */
  ghost predicate Loads(fs: Archive.FileSystem, filePath: string, parse: JsonParser, render: string -> string, r: Result<PI.PluginInfo>) {
    && (filePath !in fs ==> r == Fail(FileDoesNotExist(filePath)))
    && (PJR.Read(fs, filePath, parse) == Ok(None) ==> r == Fail(MissingPluginJson))
    && (filePath in fs && PJR.Read(fs, filePath, parse).Fail? ==> r == Fail(PJR.Read(fs, filePath, parse).error))
    && (filePath in fs && PJR.Read(fs, filePath, parse).Ok? && PJR.Read(fs, filePath, parse).value.Some? ==>
          var info := PJR.Read(fs, filePath, parse).value.value;
          var raw := CP.RawChangelog(fs[filePath]);
          && (raw.None? ==> r.Fail? && r.error.TypeError?)
          && (raw.Some? ==>
                var scan := CP.Scan(CP.Init, CP.Lines(raw.value));
                && (scan.Fail? ==> r == Fail(scan.error))
                && (scan.Ok? ==> exists m :: CP.IsRegrouping(scan.value.versions, m, true, render) && r == WithChangelogs(info, m))))
    && (r.Ok? ==> PJR.Read(fs, filePath, parse).Ok? && PJR.Read(fs, filePath, parse).value.Some?)
    && (r.Ok? ==> r.value.info.Some? && !r.value.info.value.JNull?)
  }

  // ----- the command -------------------------------------------------------------

  /** Lines 86 to 100: the file is sent as the request `TransferRequest`
      chooses, and the plugin takes the binaries the store answers with. */
  method Transfer(commander: SC.Commander, plugin: SO.Plugin, info: PI.PluginInfo, filePath: string, force: bool)
    returns (r: Result<()>)
    requires info.info.Some? && !info.info.value.JNull?
    modifies plugin, commander.remote
    ensures var request := TransferRequest(commander.generation, old(plugin.props), old(SO.BinaryProps(plugin.binaries)),
                                           PI.GetCurrentVersion(info).value, filePath, force);
      && (request.Fail? ==> r == Fail(request.error) && commander.remote.net == old(commander.remote.net) && plugin.props == old(plugin.props))
      && (request.Ok? ==>
            var t := Transmit(old(commander.remote.net), request.value);
            && commander.remote.net == t.1
            && (r.Ok? <==> IsSuccess(t.0) && !t.0.data.JNull?)
            && (!IsSuccess(t.0) ==> r == Fail(ErrorOf(t.0)) && plugin.props == old(plugin.props))
            && (IsSuccess(t.0) ==> plugin.props == old(plugin.props)["binaries" := t.0.data])
            && (IsSuccess(t.0) && t.0.data.JNull? ==> r == Fail(SC.BinariesOfNull))
            && (r.Ok? ==> SC.HoldsBinaries(plugin, t.0.data)))
    ensures r.Ok? && plugin.latestBinary.Some? ==> fresh(plugin.latestBinary.value)
    ensures plugin.reviews == old(plugin.reviews) && plugin.loadedExtraFields == old(plugin.loadedExtraFields)
  {
    if !SO.HoldsArray(plugin.props, "binaries") {
      return Fail(TypeError("plugin.binaries.find is not a function"));
    }
    var current := PI.GetCurrentVersion(info).value;
    var binaries := SO.BinaryProps(plugin.binaries);
    var conflict :- Conflict(BinaryVersions(binaries), current);
    if conflict.Some? {
      var binary := plugin.binaries[conflict.value];
      if !force {
        return Fail(VersionExists(JsString(SO.Lookup(binary.props, "version")), plugin.Name()));
      }
      var updated := commander.UpdatePluginBinary(plugin, binary, filePath);
      r := if updated.Ok? then Ok(()) else Fail(updated.error);
    } else {
      var uploaded := commander.UploadPluginBinary(plugin, filePath);
      r := if uploaded.Ok? then Ok(()) else Fail(uploaded.error);
    }
  }

  /** The latest binary of a plugin, as a set of at most one object. */
  function Latest(plugin: SO.Plugin): set<SO.Binary>
    reads plugin
  {
    if plugin.latestBinary.Some? then {plugin.latestBinary.value} else {}
  }

  /** The properties of the latest binary, None when there is none. */
  function LatestProps(plugin: SO.Plugin): Option<map<string, Json>>
    reads plugin, Latest(plugin)
  {
    if plugin.latestBinary.Some? then Some(plugin.latestBinary.value.props) else None
  }

  /** Lines 103 to 130 on the latest binary: it is prepared and saved as
      `Saving` says. */
  method Finish(commander: SC.Commander, plugin: SO.Plugin, info: PI.PluginInfo) returns (r: Result<SO.Plugin>)
    modifies Latest(plugin), commander.remote
    ensures var s := Saving(old(LatestProps(plugin)), info, commander.statics, plugin.Id(), old(commander.remote.net));
      && r == (if s.0.Ok? then Ok(plugin) else Fail(s.0.error))
      && LatestProps(plugin) == s.1
      && commander.remote.net == s.2
  {
    if plugin.latestBinary.None? {
      return Fail(TypeError("cannot set property version of undefined"));
    }
    var latest := plugin.latestBinary.value;
    var prepared := Prepared(latest.props, info, commander.statics);
    if prepared.Fail? {
      return Fail(prepared.error);
    }
    latest.props := prepared.value;
    r := commander.SavePluginBinary(plugin, latest);
  }

  /** Lines 86 to 130: the file is transferred, and the latest binary
      prepared and saved, as `Publishing` says; the plugin keeps its id,
      its name and its reviews. */
  method Publish(commander: SC.Commander, plugin: SO.Plugin, info: PI.PluginInfo, filePath: string, force: bool)
    returns (r: Result<SO.Plugin>)
    requires info.info.Some? && !info.info.value.JNull?
    modifies plugin, commander.remote
    ensures var p := Publishing(commander.generation, old(plugin.props), old(SO.BinaryProps(plugin.binaries)), info, commander.statics,
                                filePath, force, old(commander.remote.net));
      && r == (if p.0.Ok? then Ok(plugin) else Fail(p.0.error))
      && commander.remote.net == p.2
      && (p.1.Some? ==> LatestProps(plugin) == p.1)
    ensures plugin.Id() == old(plugin.Id()) && plugin.Name() == old(plugin.Name())
    ensures SO.HoldsArray(plugin.props, "reviews") == SO.HoldsArray(old(plugin.props), "reviews")
  {
    ghost var request := TransferRequest(commander.generation, plugin.props, SO.BinaryProps(plugin.binaries),
                                         PI.GetCurrentVersion(info).value, filePath, force);
    ghost var before := commander.remote.net;
    var transferred := Transfer(commander, plugin, info, filePath, force);
    if transferred.Fail? {
      return Fail(transferred.error);
    }
    ghost var t := Transmit(before, request.value);
    assert LatestProps(plugin) == LatestOf(t.0.data);
    r := Finish(commander, plugin, info);
  }

  /** How far a successful upload went: the binary was saved, or it was
      also reviewed, with the review it got. */
  datatype Stage = Uploaded | Released(review: map<string, Json>)

  /** Lines 51 to 75: the plugin info of the archive, with the changelogs
      of its CHANGELOG.md, parsed with HTML compiled. `parse` reads JSON
      text and `render` turns changelog Markdown into HTML. */
  method Load(fs: Archive.FileSystem, filePath: string, parse: JsonParser, render: string -> string)
    returns (r: Result<PI.PluginInfo>)
    ensures Loads(fs, filePath, parse, render, r)
  {
    if filePath !in fs {
      return Fail(FileDoesNotExist(filePath));
    }
    var read :- PJR.ReadZip(fs, filePath, parse);
    if read.None? {
      return Fail(MissingPluginJson);
    }
    var parsed :- CP.ReadZip(fs, filePath, true, render);
    r := WithChangelogs(read.value, parsed);
  }

  /** The fields the upload loads with the plugin. */
  const Extra := ["binaries", "reviews"]

  /** Lines 82 to 84 on the cached plugin filed under `name`, whose
      properties and loaded fields are `props` and `loaded`: with no addon
      to add it is returned as it is; otherwise the addon is pushed, the
      plugin put and merged, and the cached plugin of its (merged) name
      returned, which is the plugin itself when the name stays. */
  method EnableLoaded(commander: SC.Commander, plugin: SO.Plugin, name: string,
                      ghost props: map<string, Json>, ghost loaded: seq<string>)
    returns (r: Result<SO.Plugin>)
    requires commander.plugins.Some? && name in commander.plugins.value && commander.plugins.value[name] == plugin
    requires plugin.Name() == name && plugin.props == props && plugin.loadedExtraFields == Some(loaded)
    modifies plugin, commander.remote
    ensures commander.plugins == old(commander.plugins)
    ensures plugin.binaries == old(plugin.binaries)
    ensures var plan := SC.AddonPlan(commander.generation, props, commander.statics);
      && (plan.Fail? ==> r == Fail(plan.error) && commander.remote.net == old(commander.remote.net))
      && (plan == Ok(None) ==> r == Ok(plugin) && plugin.props == props && commander.remote.net == old(commander.remote.net))
      && (plan.Ok? && plan.value.Some? ==>
            var pushed := SC.Pushed(props, plan.value.value);
            var body := SC.Serialised(commander.generation, pushed, plugin);
            var t := Transmit(old(commander.remote.net), Sent(Put, SC.PluginPath(JsString(SO.Lookup(props, "id"))), None, body, None));
            && commander.remote.net == t.1
            && (!IsSuccess(t.0) ==> r == Fail(ErrorOf(t.0)))
            && (IsSuccess(t.0) && t.0.data.JNull? ==> r.Fail?)
            && (r.Ok? ==> r.value in commander.Cached())
            && (IsSuccess(t.0) && !t.0.data.JNull? && JsString(SO.Lookup(SO.Merged(pushed, SO.Fields(t.0.data), loaded), "name")) == name ==>
                  r == Ok(plugin) && plugin.props == SO.Merged(pushed, SO.Fields(t.0.data), loaded)))
  {
    assert commander.Target(name) == {plugin};
    ghost var plan := SC.AddonPlan(commander.generation, props, commander.statics);
    ghost var pushed := if plan.Ok? && plan.value.Some? then SC.Pushed(props, plan.value.value) else props;
    ghost var body := SC.Serialised(commander.generation, pushed, plugin);
    var enabled := commander.EnablePartialIonCubeEncryption(plugin);
    assert SC.Serialised(commander.generation, pushed, plugin) == body;
    if enabled.Fail? {
      return Fail(enabled.error);
    }
    if enabled.value.None? {
      return Fail(TypeError("cannot read property binaries of undefined"));
    }
    r := Ok(enabled.value.value);
  }

  /** `EnableLoaded` on the plugin found as `found` says, with its outcome
      as `Settled` says. */
  method Settle(commander: SC.Commander, plugin: SO.Plugin, name: string, ghost found: Result<(SC.Loading, Json)>)
    returns (r: Result<SO.Plugin>, ghost located: Result<()>, ghost view: View)
    requires found.Ok? && commander.statics == found.value.1
    requires commander.plugins.Some? && name in commander.plugins.value && commander.plugins.value[name] == plugin
    requires plugin.Name() == name && plugin.props == found.value.0.props && plugin.loadedExtraFields == Some(found.value.0.loaded)
    requires SO.BinaryProps(plugin.binaries) == Loaded(found.value.0.props)
    modifies plugin, commander.remote
    ensures r.Ok? ==> r.value in commander.Cached()
    ensures located == (if r.Ok? then Ok(()) else Fail(r.error))
    ensures Settled(commander.generation, name, found, old(commander.remote.net), located, view, commander.remote.net)
    ensures r.Ok? ==> r.value.props == view.props && SO.BinaryProps(r.value.binaries) == view.binaries && commander.statics == view.statics
  {
    view := View(map[], [], JNull);
    ghost var props := plugin.props;
    ghost var plan := SC.AddonPlan(commander.generation, props, commander.statics);
    ghost var before := commander.remote.net;
    r := EnableLoaded(commander, plugin, name, found.value.0.props, found.value.0.loaded);
    if plan.Ok? && plan.value.Some? {
      assert commander.remote.net == PutPlugin(before, props, SC.Serialised(commander.generation, SC.Pushed(props, plan.value.value), plugin));
    }
    located := if r.Ok? then Ok(()) else Fail(r.error);
    if r.Ok? {
      view := View(r.value.props, SO.BinaryProps(r.value.binaries), commander.statics);
    }
  }

  /** Lines 77 to 80, with a commander that has not loaded the account
      yet: the plugin of the given name, with its binaries and reviews
      loaded, as `Found` says. */
  method FindLoaded(commander: SC.Commander, name: string) returns (r: Result<SO.Plugin>, ghost found: Result<(SC.Loading, Json)>)
    requires commander.plugins.None?
    modifies commander, commander.remote
    ensures |commander.remote.net.sent| > |old(commander.remote.net.sent)|
      && commander.remote.net.sent[|old(commander.remote.net.sent)|] == SC.Fetch("producers")
    ensures Found(old(commander.remote.net), name, found, commander.remote.net)
    ensures r.Ok? <==> found.Ok?
    ensures r.Fail? ==> r.error == found.error
    ensures r.Ok? ==>
      && fresh(r.value) && commander.plugins.Some? && name in commander.plugins.value && commander.plugins.value[name] == r.value
      && r.value.Name() == name && r.value.props == found.value.0.props && r.value.loadedExtraFields == Some(found.value.0.loaded)
      && SO.BinaryProps(r.value.binaries) == Loaded(found.value.0.props) && commander.statics == found.value.1
      && forall p :: p in commander.Cached() ==> fresh(p)
  {
    ghost var account := SC.AccountData(commander.remote.net.script);
    ghost var start := commander.remote.net;
    r := commander.FindPlugin(name, Some(Extra));
    if account.Fail? || name !in account.value.1 {
      found := Fail(r.error);
    } else {
      var listed := account.value.1[name];
      var load := SC.LoadAll(SC.Loading(listed, []), SC.AccountNet(start, account.value.0), Extra, SC.Links(listed, Extra));
      found := if load.0.Fail? then Fail(load.0.error) else Ok((load.1, account.value.2));
      if r.Ok? {
        assert SO.BinaryProps(r.value.binaries) == Loaded(load.1.props);
      }
    }
  }

  /** Lines 77 to 84, with a commander that has not loaded the account
      yet: the plugin of the info's name, with its binaries and reviews
      loaded and its encryption settled, as `Located` says. */
  method Locate(commander: SC.Commander, info: PI.PluginInfo) returns (r: Result<SO.Plugin>, ghost located: Result<()>, ghost view: View)
    requires commander.plugins.None?
    modifies commander, commander.remote
    ensures |commander.remote.net.sent| > |old(commander.remote.net.sent)|
      && commander.remote.net.sent[|old(commander.remote.net.sent)|] == SC.Fetch("producers")
    ensures r.Ok? ==> fresh(r.value)
    ensures located == (if r.Ok? then Ok(()) else Fail(r.error))
    ensures Located(commander.generation, old(commander.remote.net), JsString(Some(PI.GetName(info))), located, view, commander.remote.net)
    ensures r.Ok? ==> r.value.props == view.props && SO.BinaryProps(r.value.binaries) == view.binaries && commander.statics == view.statics
  {
    view := View(map[], [], JNull);
    var name := JsString(Some(PI.GetName(info)));
    ghost var start := commander.remote.net;
    var plugin;
    ghost var found;
    plugin, found := FindLoaded(commander, name);
    ghost var mid := commander.remote.net;
    if plugin.Fail? {
      r, located := Fail(plugin.error), Fail(plugin.error);
      assert Found(start, name, found, mid) && Settled(commander.generation, name, found, mid, located, view, mid);
      return;
    }
    r, located, view := Settle(commander, plugin.value, name, found);
    assert Found(start, name, found, mid) && Settled(commander.generation, name, found, mid, located, view, commander.remote.net);
  }

  /** Lines 135 to 151: with `noRelease` the command stops after the
      upload; otherwise a review is requested and polled, as `Reviewing`
      says, and the review released is the plugin's last. */
  method Review(commander: SC.Commander, plugin: SO.Plugin, noRelease: bool) returns (r: Result<Stage>)
    modifies plugin, commander.remote
    ensures (r, commander.remote.net) == Reviewing(commander.generation, old(plugin.Id()), old(plugin.Name()),
                                                   SO.HoldsArray(old(plugin.props), "reviews"), noRelease, old(commander.remote.net))
    ensures r.Ok? && r.value.Released? ==> |plugin.reviews| > 0 && r.value.review == plugin.reviews[|plugin.reviews| - 1].props
  {
    if noRelease {
      return Ok(Uploaded);
    }
    var reviewed := commander.RequestBinaryReview(plugin);
    if reviewed.Fail? {
      return Fail(reviewed.error);
    }
    var review := if plugin.reviews == [] then None else Some(plugin.reviews[|plugin.reviews| - 1].props);
    var verdict := Verdict(review, plugin.Name());
    r := if verdict.Ok? then Ok(Released(review.value)) else Fail(verdict.error);
  }

  /** Lines 77 to 151: the plugin is located as `Located` says, starting
      from `net`, and then delivered as `Delivering` says. */
  method Release(commander: SC.Commander, info: PI.PluginInfo, filePath: string, force: bool, noRelease: bool)
    returns (r: Result<Stage>, ghost located: Result<()>, ghost view: View, ghost net: Net)
    requires commander.plugins.None?
    requires info.info.Some? && !info.info.value.JNull?
    modifies commander, commander.remote
    ensures Located(commander.generation, old(commander.remote.net), JsString(Some(PI.GetName(info))), located, view, net)
    ensures located.Fail? ==> r == Fail(located.error) && commander.remote.net == net
    ensures located.Ok? ==> (r, commander.remote.net) == Delivering(commander.generation, view, info, filePath, force, noRelease, net)
    ensures r.Ok? ==> (r.value.Uploaded? <==> noRelease)
    ensures r.Ok? && r.value.Released? ==> Approved(r.value.review) && SC.ReviewFinished(r.value.review)
  {
    var found;
    found, located, view := Locate(commander, info);
    net := commander.remote.net;
    if found.Fail? {
      r := Fail(found.error);
      return;
    }
    var plugin := found.value;
    DeliveredWhenPublishedAndApproved(commander.generation, view, info, filePath, force, noRelease, net);
    var published := Publish(commander, plugin, info, filePath, force);
    if published.Fail? {
      r := Fail(published.error);
      return;
    }
    r := Review(commander, plugin, noRelease);
  }

  /** `main()`, from the file check to the review verdict: the archive is
      loaded as `Loads` says, and the plugin of its info released. */
  method Upload(fs: Archive.FileSystem, filePath: string, parse: JsonParser, render: string -> string,
                commander: SC.Commander, force: bool, noRelease: bool)
    returns (r: Result<Stage>, loaded: Result<PI.PluginInfo>, ghost located: Result<()>, ghost view: View, ghost net: Net)
    requires commander.plugins.None?
    modifies commander, commander.remote
    ensures Loads(fs, filePath, parse, render, loaded)
    ensures loaded.Fail? ==> r == Fail(loaded.error) && commander.remote.net == old(commander.remote.net)
    ensures loaded.Ok? ==>
      && Located(commander.generation, old(commander.remote.net), JsString(Some(PI.GetName(loaded.value))), located, view, net)
      && (located.Fail? ==> r == Fail(located.error) && commander.remote.net == net)
      && (located.Ok? ==> (r, commander.remote.net) == Delivering(commander.generation, view, loaded.value, filePath, force, noRelease, net))
    ensures r.Ok? ==> (r.value.Uploaded? <==> noRelease)
    ensures r.Ok? && r.value.Released? ==> Approved(r.value.review) && SC.ReviewFinished(r.value.review)
  {
    located, view, net := Ok(()), View(map[], [], JNull), commander.remote.net;
    loaded := Load(fs, filePath, parse, render);
    if loaded.Fail? {
      r := Fail(loaded.error);
      return;
    }
    r, located, view, net := Release(commander, loaded.value, filePath, force, noRelease);
  }
}
