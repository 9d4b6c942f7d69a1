/** `PluginJSONReader.readZip` (lib/pluginJsonReader.js): finds the
    `plugin.json` of a Shopware 5 plugin archive by the pattern
    `(Backend|Core|Frontend)/<name>/plugin.json`, captures `<name>` while
    searching, and wraps the parsed file in a `PluginInfo`. */
module PluginJsonReader {
  import opened Common
  import Text
  import Archive
  import PI = PluginInfo

  const PluginJsonFile := "plugin.json"

  /** `Object.keys(zip.files).find(...)` with the callback that stores the
      second capture group in the outer `pluginName`: the index of the first
      entry whose name matches, and the segment captured in that name. */
  method FindPluginJson(entries: seq<Archive.Entry>) returns (file: Option<nat>, pluginName: Option<string>)
    ensures file == Archive.FindEntry(entries, PluginJsonFile)
    ensures file.Some? ==> file.value < |entries| && pluginName == Archive.Search(entries[file.value].name, PluginJsonFile)
    ensures file.None? ==> pluginName.None?
  {
    file, pluginName := None, None;
    var i := 0;
    while i < |entries| && file.None?
      invariant 0 <= i <= |entries|
      invariant file.None? ==> pluginName.None? && forall j :: 0 <= j < i ==> Archive.Search(entries[j].name, PluginJsonFile).None?
      invariant file.Some? ==> file == Archive.FindEntry(entries, PluginJsonFile) && file.value < |entries|
      invariant file.Some? ==> pluginName == Archive.Search(entries[file.value].name, PluginJsonFile)
    {
      var matches := Archive.Search(entries[i].name, PluginJsonFile);
      if matches.Some? {
        pluginName := matches;
        file := Some(i);
        Archive.FindEntryAt(entries, PluginJsonFile, i);
      }
      i := i + 1;
    }
  }

  /** `readZip(filePath)`, as the value its promise resolves to: None for
      `null`, when no entry matches. */
  function Read(fs: Archive.FileSystem, filePath: string, parse: JsonParser): Result<Option<PI.PluginInfo>> {
    if filePath !in fs then Fail(FileDoesNotExist(filePath))
    else
      var zip := fs[filePath];
      var file := Archive.FindEntry(zip.entries, PluginJsonFile);
      if file.None? then Ok(None)
      else
        var key := zip.entries[file.value].name;
        var pluginName := Archive.Search(key, PluginJsonFile);
        if !Present(pluginName) || key == "" then Ok(None)
        else
          var pluginJsonString :- Archive.ReadText(zip, key);
          var json :- ParseJson(pluginJsonString, parse);
          Ok(Some(PI.PluginInfo(JStr(pluginName.value), Some(json))))
  }

  /** `readZip(filePath)`: a missing file is rejected, an archive without a
      matching entry gives null, and otherwise the plugin info is named by
      the captured segment, which is non-empty and has no `/`. */
  method ReadZip(fs: Archive.FileSystem, filePath: string, parse: JsonParser) returns (r: Result<Option<PI.PluginInfo>>)
    ensures r == Read(fs, filePath, parse)
    ensures filePath !in fs <==> r == Fail(FileDoesNotExist(filePath))
    ensures r == Ok(None) <==> filePath in fs && Archive.FindEntry(fs[filePath].entries, PluginJsonFile).None?
    ensures r.Ok? && r.value.Some? ==> r.value.value.name.JStr? && r.value.value.name.s != [] && '/' !in r.value.value.name.s
  {
    if filePath !in fs {
      return Fail(FileDoesNotExist(filePath));
    }
    var zip := fs[filePath];
    var pluginJsonFile, pluginName := FindPluginJson(zip.entries);
    if !Present(pluginName) || pluginJsonFile.None? || zip.entries[pluginJsonFile.value].name == "" {
      return Ok(None);
    }
    var pluginJsonString := Archive.ReadText(zip, zip.entries[pluginJsonFile.value].name);
    if pluginJsonString.Fail? {
      return Fail(pluginJsonString.error);
    }
    var json := ParseJson(pluginJsonString.value, parse);
    if json.Fail? {
      return Fail(json.error);
    }
    return Ok(Some(PI.PluginInfo(JStr(pluginName.value), Some(json.value))));
  }

  // ----- what reading promises --------------------------------------------------

  /** A name no namespace pattern can match. */
  lemma {:induction false} NoMatchInEmptyName(file: string)
    ensures Archive.Search("", file).None?
  {
    assert !Text.StartsWith("", "Backend/") && !Text.StartsWith("", "Core/") && !Text.StartsWith("", "Frontend/");
    assert Archive.MatchAt("", 0, file).None?;
  }

  /** The entry picked is the first whose name matches: with the entries
      before it unmatched and its text parsing to `json`, the result is that
      plugin info, named by the segment captured in its name. */
  lemma ReadPicksFirstMatch(fs: Archive.FileSystem, filePath: string, parse: JsonParser, pre: seq<Archive.Entry>, e: Archive.Entry, post: seq<Archive.Entry>, json: Json)
    requires filePath in fs && fs[filePath].entries == pre + [e] + post
    requires forall j :: 0 <= j < |pre| ==> Archive.Search(pre[j].name, PluginJsonFile).None?
    requires Archive.Search(e.name, PluginJsonFile).Some? && !e.isDir
    requires parse(e.text) == Some(json)
    ensures Read(fs, filePath, parse) == Ok(Some(PI.PluginInfo(JStr(Archive.Search(e.name, PluginJsonFile).value), Some(json))))
  {
    var entries := fs[filePath].entries;
    assert entries[|pre|] == e;
    assert forall j :: 0 <= j < |pre| ==> entries[j] == pre[j];
    Archive.FindEntryAt(entries, PluginJsonFile, |pre|);
    if e.name == "" {
      NoMatchInEmptyName(PluginJsonFile);
    }
    assert Archive.FileTextFrom(entries, e.name) == Some(e.text) by {
      FirstFileWithName(pre, e, post);
    }
  }

  /** A matching entry whose text parses to `json` gives the plugin info
      that files `json` under its info, so `getCurrentVersion()` reads the
      `currentVersion` of the parsed document. */
  lemma ReadOfMatch(fs: Archive.FileSystem, filePath: string, parse: JsonParser, text: string, json: Json)
    requires filePath in fs
    requires var zip := fs[filePath]; var file := Archive.FindEntry(zip.entries, PluginJsonFile);
      file.Some? && Archive.ReadText(zip, zip.entries[file.value].name) == Ok(text)
    requires parse(text) == Some(json)
    ensures var r := Read(fs, filePath, parse);
      && r.Ok? && r.value.Some? && r.value.value.info == Some(json)
      && PI.GetCurrentVersion(r.value.value) == Prop(Some(json), "currentVersion")
  {
    NoMatchInEmptyName(PluginJsonFile);
  }

  /** Looking a file up by a name that no earlier entry carries finds it. */
  lemma {:induction false} FirstFileWithName(pre: seq<Archive.Entry>, e: Archive.Entry, post: seq<Archive.Entry>)
    requires !e.isDir
    requires forall j :: 0 <= j < |pre| ==> pre[j].name != e.name
    ensures Archive.FileTextFrom(pre + [e] + post, e.name) == Some(e.text)
  {
    if pre != [] {
      assert (pre + [e] + post)[1..] == pre[1..] + [e] + post;
      FirstFileWithName(pre[1..], e, post);
    }
  }

  /** The segment between `<ns>/` and `/plugin.json` is what is captured,
      for a name that is just that path. */
  lemma CaptureOfPluginJsonPath(ns: string, name: string)
    requires ns in Archive.Namespaces && name != [] && '/' !in name
    ensures Archive.Search(ns + "/" + name + "/" + PluginJsonFile, PluginJsonFile) == Some(name)
  {
    var key := ns + "/" + name + "/" + PluginJsonFile;
    var j := |ns| + 1;
    assert key[0..][..j] == ns + "/";
    assert key[j..|ns| + 1 + |name|] == name;
    assert forall m :: j <= m < j + |name| ==> key[m] == name[m - j];
    assert key[j + |name|] == '/';
    var k := Archive.NextSlash(key, j);
    assert k == j + |name|;
    assert key[k..] == "/" + PluginJsonFile;
    assert Archive.MatchWith(key, 0, ns, PluginJsonFile) == Some(name);
    assert Archive.MatchAt(key, 0, PluginJsonFile) == Some(name) by {
      if ns != Archive.Namespaces[0] {
        assert key[0] != 'B';
      }
      if ns == Archive.Namespaces[2] {
        assert key[0] != 'C';
      }
    }
  }
}
