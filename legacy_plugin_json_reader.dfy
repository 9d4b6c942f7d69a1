/** The older `PluginJSONReader.readZip` (lib/plugin_json_reader.js): a chain
    of promise steps that finds the first entry matching
    `(Backend|Core|Frontend)/<name>/plugin.json`, parses it, and passes the
    parsed value as the only argument of `new PluginInfo(name, info)`. When
    nothing matches, the `null` of the third step is parsed as well. */
module LegacyPluginJsonReader {
  import opened Common
  import Archive
  import PI = PluginInfo
  import PJR = PluginJsonReader

  /** The third step: the text of the matching entry, or `null` (None)
      when there is none. */
  function PluginJsonString(zip: Archive.Zip): Result<Option<string>> {
    var file := Archive.FindEntry(zip.entries, PJR.PluginJsonFile);
    if file.None? then Ok(None)
    else
      var text :- Archive.ReadText(zip, zip.entries[file.value].name);
      Ok(Some(text))
  }

  /** `JSON.parse(x)` converts its argument to a string first, so `null`
      is parsed as the text `null`. */
  function ParseNullable(s: Option<string>, parse: JsonParser): (r: Result<Json>)
    ensures s.None? ==> r == ParseJson("null", parse)
  {
    ParseJson(if s.None? then "null" else s.value, parse)
  }

  /** `readZip(filePath)`: the value its promise resolves to. */
  function ReadZip(fs: Archive.FileSystem, filePath: string, parse: JsonParser): (r: Result<PI.PluginInfo>)
    ensures filePath !in fs <==> r == Fail(FileDoesNotExist(filePath))
    ensures r.Ok? ==> r.value.info.None?
  {
    if filePath !in fs then Fail(FileDoesNotExist(filePath))
    else
      var pluginJsonString :- PluginJsonString(fs[filePath]);
      var json :- ParseNullable(pluginJsonString, parse);
      Ok(PI.PluginInfo(json, None))
  }

  /** A parser that reads the text `null` as JSON null, as `JSON.parse` does. */
  predicate ParsesNull(parse: JsonParser) {
    parse("null") == Some(JNull)
  }

  /** Without a matching entry the promise does not resolve to null: it
      resolves to a plugin info whose name is null and whose info is
      undefined, so reading its current version throws. */
  lemma NoMatchStillBuildsInfo(fs: Archive.FileSystem, filePath: string, parse: JsonParser)
    requires filePath in fs && Archive.FindEntry(fs[filePath].entries, PJR.PluginJsonFile).None?
    requires ParsesNull(parse)
    ensures ReadZip(fs, filePath, parse) == Ok(PI.PluginInfo(JNull, None))
    ensures PI.GetCurrentVersion(ReadZip(fs, filePath, parse).value).Fail? && PI.GetCurrentVersion(ReadZip(fs, filePath, parse).value).error.TypeError?
  {
  }

  /** With a matching entry, the parsed `plugin.json` ends up in the name
      slot: `getName()` returns the whole document and `getCurrentVersion()`
      throws a TypeError, while the newer reader files the same document
      under its info and names it by the captured segment. */
  lemma JsonLandsInNameSlot(fs: Archive.FileSystem, filePath: string, parse: JsonParser, json: Json)
    requires filePath in fs
    requires PluginJsonString(fs[filePath]).Ok? && PluginJsonString(fs[filePath]).value.Some?
    requires parse(PluginJsonString(fs[filePath]).value.value) == Some(json)
    ensures var r := ReadZip(fs, filePath, parse);
      && r == Ok(PI.PluginInfo(json, None))
      && PI.GetName(r.value) == json
      && PI.GetCurrentVersion(r.value).Fail? && PI.GetCurrentVersion(r.value).error.TypeError?
    ensures var n := PJR.Read(fs, filePath, parse);
      && n.Ok? && n.value.Some? && n.value.value.info == Some(json)
      && PI.GetCurrentVersion(n.value.value) == Prop(Some(json), "currentVersion")
  {
    var zip := fs[filePath];
    var file := Archive.FindEntry(zip.entries, PJR.PluginJsonFile);
    var text := PluginJsonString(zip).value.value;
    PJR.ReadOfMatch(fs, filePath, parse, text, json);
  }
}
