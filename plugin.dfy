/** `Plugin` (lib/plugin.js): reading a plugin archive, telling a Shopware 5
    layout (`(Backend|Frontend|Core)/<name>/`) from a Shopware 6 layout
    (`<name>/`), and mapping `plugin.json` or `composer.json` onto the
    plugin's version, compatibility and label. */
module Plugin {
  import opened Common
  import Text
  import Archive
  import CW = ChangelogWrapper

  /** The label as it is taken over: copied from `plugin.json`, or built
      from the two locales of `composer.json` (either may be undefined). */
  datatype Label = Copied(copied: Option<Json>) | Localized(en: Option<Json>, de: Option<Json>)

  /** The fields `Object.assign` copies onto the plugin. */
  datatype Infos = Infos(version: Option<Json>, shopwareCompatibility: Option<Json>, labels: Label)

  /** `readInfosFromComposerJson`: version, `require['shopware/core']`, and
      the `en-GB` and `de-DE` labels of `extra.label`. */
  function ReadInfosFromComposerJson(text: string, parse: JsonParser): Result<Infos> {
    var composerJson :- ParseJson(text, parse);
    var version :- Prop(Some(composerJson), "version");
    var require := Prop(Some(composerJson), "require").value;
    var core :- Prop(require, "shopware/core");
    var extra := Prop(Some(composerJson), "extra").value;
    var labels :- Prop(extra, "label");
    var en :- Prop(labels, "en-GB");
    var de := Prop(labels, "de-DE").value;
    Ok(Infos(version, core, Localized(en, de)))
  }

  /** The constraint text `>= <min> && <= <max>`. */
  function RangeText(min: Option<Json>, max: Option<Json>): string {
    ">= " + JsString(min) + " && <= " + JsString(max)
  }

  /** `readInfosFromPluginJson`: `currentVersion`, the range built from
      `compatibility`, and the label as is. */
  function ReadInfosFromPluginJson(text: string, parse: JsonParser): Result<Infos> {
    var pluginJson :- ParseJson(text, parse);
    var compatibility :- Prop(Some(pluginJson), "compatibility");
    var version := Prop(Some(pluginJson), "currentVersion").value;
    var min :- Prop(compatibility, "minimumVersion");
    var max := Prop(compatibility, "maximumVersion").value;
    var labels := Prop(Some(pluginJson), "label").value;
    Ok(Infos(version, Some(JStr(RangeText(min, max))), Copied(labels)))
  }

  /** The fields of a plugin read from an archive. */
  datatype PluginData = PluginData(technicalName: string, shopwareMajorVersion: nat, infos: Infos, changelog: CW.Changelog)

  /** The index of the Shopware 5 root folder, and of the Shopware 6 one. */
  function Sw5Root(zip: Archive.Zip): Option<nat> {
    Archive.FirstFolder(zip.entries, Archive.IsSw5RootName)
  }

  function Sw6Root(zip: Archive.Zip): Option<nat> {
    Archive.FirstFolder(zip.entries, Archive.IsSw6RootName)
  }

  /** Where the plugin lives in the archive: its root folder, its technical
      name (the second path segment for Shopware 5, the first for
      Shopware 6) and the Shopware major version. */
  datatype Layout = Layout(rootDir: string, technicalName: string, major: nat)

  /** The technical name in a Shopware 5 root folder `<ns>/<name>/`: its second path segment. */
  function Sw5Name(rootDir: string): string {
    var segments := Text.Split(rootDir, '/');
    if |segments| > 1 then segments[1] else ""
  }

  /** The technical name in a Shopware 6 root folder `<name>/`: its first path segment. */
  function Sw6Name(rootDir: string): string {
    Text.Split(rootDir, '/')[0]
  }

  /** The layout `readFromZipFile` detects; a Shopware 5 root folder wins. */
  function DetectLayout(zip: Archive.Zip): (r: Option<Layout>)
    ensures r.None? <==> Sw5Root(zip).None? && Sw6Root(zip).None?
    ensures r.Some? ==> r.value.major == (if Sw5Root(zip).Some? then 5 else 6)
  {
    var sw5, sw6 := Sw5Root(zip), Sw6Root(zip);
    if sw5.Some? then
      var rootDir := zip.entries[sw5.value].name;
      Some(Layout(rootDir, Sw5Name(rootDir), 5))
    else if sw6.Some? then
      var rootDir := zip.entries[sw6.value].name;
      Some(Layout(rootDir, Sw6Name(rootDir), 6))
    else None
  }

  /** The infos of a detected layout: `plugin.json` for Shopware 5,
      `composer.json` for Shopware 6. */
  function ReadInfos(zip: Archive.Zip, layout: Layout, parse: JsonParser): Result<Infos> {
    if layout.major == 5 then
      var text :- Archive.ReadText(zip, layout.rootDir + "plugin.json");
      ReadInfosFromPluginJson(text, parse)
    else
      var text :- Archive.ReadText(zip, layout.rootDir + "composer.json");
      ReadInfosFromComposerJson(text, parse)
  }

  /** `Plugin.readFromZipFile(zipFilePath)`, as the value it builds. */
  function Read(fs: Archive.FileSystem, zipFilePath: string, parse: JsonParser): Result<PluginData> {
    if zipFilePath !in fs then Fail(FileDoesNotExist(zipFilePath))
    else
      var zip := fs[zipFilePath];
      var layout := DetectLayout(zip);
      if layout.None? then Fail(UndetectedShopwareVersion)
      else ReadPlugin(zip, layout.value, parse)
  }

  /** The plugin read from the root folder of a detected layout. */
  function ReadPlugin(zip: Archive.Zip, layout: Layout, parse: JsonParser): Result<PluginData> {
    var infos :- ReadInfos(zip, layout, parse);
    var changelog :- Archive.ReadText(zip, layout.rootDir + "CHANGELOG.md");
    Ok(PluginData(layout.technicalName, layout.major, infos, CW.Changelog(CW.Document(changelog))))
  }

  /** The plugin object `readFromZipFile` fills in field by field. */
  class Plugin {
    var technicalName: string
    var shopwareMajorVersion: nat
    var infos: Infos
    var changelog: CW.Changelog

    /** `new Plugin()`: nothing is set yet. */
    constructor ()
      ensures technicalName == "" && shopwareMajorVersion == 0
      ensures infos == Infos(None, None, Copied(None)) && changelog == CW.Changelog(CW.Undefined)
    {
      technicalName := "";
      shopwareMajorVersion := 0;
      infos := Infos(None, None, Copied(None));
      changelog := CW.Changelog(CW.Undefined);
    }

    function Data(): PluginData
      reads this
    {
      PluginData(technicalName, shopwareMajorVersion, infos, changelog)
    }
  }

  /** `Plugin.readFromZipFile(zipFilePath)`: a fresh plugin whose fields are
      what `Read` describes, or the error `Read` describes. */
  method ReadFromZipFile(fs: Archive.FileSystem, zipFilePath: string, parse: JsonParser) returns (r: Result<Plugin>)
    ensures r.Ok? <==> Read(fs, zipFilePath, parse).Ok?
    ensures r.Fail? ==> r.error == Read(fs, zipFilePath, parse).error
    ensures r.Ok? ==> fresh(r.value) && r.value.Data() == Read(fs, zipFilePath, parse).value
  {
    if zipFilePath !in fs {
      return Fail(FileDoesNotExist(zipFilePath));
    }
    var zip := fs[zipFilePath];
    var plugin := new Plugin();
    var sw5RootFolder := Sw5Root(zip);
    var sw6RootFolder := Sw6Root(zip);
    var rootDir: string;
    ghost var layout: Layout;
    if sw5RootFolder.Some? {
      rootDir := zip.entries[sw5RootFolder.value].name;
      plugin.technicalName := Sw5Name(rootDir);
      plugin.shopwareMajorVersion := 5;
      layout := Layout(rootDir, plugin.technicalName, 5);
      assert DetectLayout(zip) == Some(layout);
      var text := Archive.ReadText(zip, rootDir + "plugin.json");
      if text.Fail? {
        return Fail(text.error);
      }
      var infos := ReadInfosFromPluginJson(text.value, parse);
      assert ReadInfos(zip, layout, parse) == infos;
      if infos.Fail? {
        return Fail(infos.error);
      }
      plugin.infos := infos.value;
    } else if sw6RootFolder.Some? {
      rootDir := zip.entries[sw6RootFolder.value].name;
      plugin.technicalName := Sw6Name(rootDir);
      plugin.shopwareMajorVersion := 6;
      layout := Layout(rootDir, plugin.technicalName, 6);
      assert DetectLayout(zip) == Some(layout);
      var text := Archive.ReadText(zip, rootDir + "composer.json");
      if text.Fail? {
        return Fail(text.error);
      }
      var infos := ReadInfosFromComposerJson(text.value, parse);
      assert ReadInfos(zip, layout, parse) == infos;
      if infos.Fail? {
        return Fail(infos.error);
      }
      plugin.infos := infos.value;
    } else {
      return Fail(UndetectedShopwareVersion);
    }
    assert ReadInfos(zip, layout, parse) == Ok(plugin.infos);
    var changelog := Archive.ReadText(zip, rootDir + "CHANGELOG.md");
    if changelog.Fail? {
      return Fail(changelog.error);
    }
    plugin.changelog := CW.Changelog(CW.Document(changelog.value));
    assert Read(fs, zipFilePath, parse) == ReadPlugin(zip, layout, parse);
    assert plugin.Data() == PluginData(layout.technicalName, layout.major, plugin.infos, plugin.changelog);
    return Ok(plugin);
  }

  // ----- what reading an archive promises ------------------------------------

  /** The first path segment of `seg/rest`, and the second of `first/seg/rest`. */
  lemma SplitSegments(first: string, seg: string, rest: string)
    requires '/' !in first && '/' !in seg
    ensures Text.Split(seg + "/" + rest, '/')[0] == seg
    ensures |Text.Split(first + "/" + seg + "/" + rest, '/')| > 1
    ensures Text.Split(first + "/" + seg + "/" + rest, '/')[1] == seg
  {
    Text.SplitPiece(seg, '/', rest);
    Text.SplitPiece(first, '/', seg + "/" + rest);
    assert first + "/" + seg + "/" + rest == first + ['/'] + (seg + "/" + rest);
    assert seg + "/" + rest == seg + ['/'] + rest;
  }

  /** The `\w+` segment a root-folder pattern matched at position `j`. */
  function WordAt(name: string, j: nat): string
    requires j <= |name|
  {
    name[j..Archive.NextSlash(name, j)]
  }

  /** A name `WordThenSlash` accepts at `j` is its word, a slash and the rest. */
  lemma WordThenSlashShape(name: string, j: nat)
    requires j <= |name| && Archive.WordThenSlash(name, j)
    ensures var k := Archive.NextSlash(name, j);
      && name[j..] == WordAt(name, j) + "/" + name[k + 1..]
      && WordAt(name, j) != [] && '/' !in WordAt(name, j)
      && forall i :: 0 <= i < |WordAt(name, j)| ==> Archive.IsWordChar(WordAt(name, j)[i])
  {
    var k := Archive.NextSlash(name, j);
    assert name[j..] == name[j..k] + [name[k]] + name[k + 1..];
    forall i | 0 <= i < k - j ensures name[j..k][i] == name[j + i] { }
  }

  /** With a Shopware 5 root folder `<ns>/<name>/…`, the archive is taken
      for a Shopware 5 plugin whatever other folders it has, and its
      technical name is `<name>`, a non-empty run of word characters. */
  lemma Sw5TakesPrecedence(zip: Archive.Zip)
    requires Sw5Root(zip).Some?
    ensures var layout := DetectLayout(zip);
      var name := zip.entries[Sw5Root(zip).value].name;
      && layout.Some? && layout.value.major == 5 && layout.value.rootDir == name
      && (exists ns :: ns in Archive.Namespaces && Text.StartsWith(name, ns + "/") && layout.value.technicalName == WordAt(name, |ns| + 1))
      && layout.value.technicalName != []
      && forall i :: 0 <= i < |layout.value.technicalName| ==> Archive.IsWordChar(layout.value.technicalName[i])
  {
    Archive.FirstFolderPasses(zip.entries, Archive.IsSw5RootName);
    var name := zip.entries[Sw5Root(zip).value].name;
    assert Archive.IsSw5RootName(name);
    var ns :| ns in ["Backend", "Frontend", "Core"] && Text.StartsWith(name, ns + "/") && Archive.WordThenSlash(name, |ns| + 1);
    Sw5LayoutOf(zip, name, ns);
  }

  /** The layout of an archive whose Shopware 5 root folder `name` sits
      under the namespace `ns`. */
  lemma Sw5LayoutOf(zip: Archive.Zip, name: string, ns: string)
    requires Sw5Root(zip).Some? && name == zip.entries[Sw5Root(zip).value].name
    requires ns in ["Backend", "Frontend", "Core"] && Text.StartsWith(name, ns + "/")
    requires |ns| + 1 <= |name| && Archive.WordThenSlash(name, |ns| + 1)
    ensures ns in Archive.Namespaces
    ensures DetectLayout(zip) == Some(Layout(name, WordAt(name, |ns| + 1), 5))
    ensures var word := WordAt(name, |ns| + 1); word != [] && forall i :: 0 <= i < |word| ==> Archive.IsWordChar(word[i])
  {
    Sw5NameShape(name, ns);
    WordThenSlashShape(name, |ns| + 1);
  }

  /** The second path segment of `<ns>/<word>/…` is `<word>`. */
  lemma Sw5NameShape(name: string, ns: string)
    requires ns in ["Backend", "Frontend", "Core"] && Text.StartsWith(name, ns + "/")
    requires |ns| + 1 <= |name| && Archive.WordThenSlash(name, |ns| + 1)
    ensures ns in Archive.Namespaces && Sw5Name(name) == WordAt(name, |ns| + 1)
  {
    var j := |ns| + 1;
    WordThenSlashShape(name, j);
    var word, rest := WordAt(name, j), name[Archive.NextSlash(name, j) + 1..];
    PrefixThenRest(name, ns + "/");
    assert name == ns + "/" + word + "/" + rest;
    assert '/' !in ns by {
      assert ns == "Backend" || ns == "Frontend" || ns == "Core";
    }
    SplitSegments(ns, word, rest);
  }

  /** A string that starts with `prefix` is `prefix` and what follows. */
  lemma PrefixThenRest(name: string, prefix: string)
    requires Text.StartsWith(name, prefix)
    ensures name == prefix + name[|prefix|..]
  {
    assert name == name[..|prefix|] + name[|prefix|..];
  }

  /** With no Shopware 5 root folder but a Shopware 6 one `<name>/…`, the
      archive is taken for a Shopware 6 plugin named `<name>`. */
  lemma Sw6Fallback(zip: Archive.Zip)
    requires Sw5Root(zip).None? && Sw6Root(zip).Some?
    ensures var layout := DetectLayout(zip);
      var name := zip.entries[Sw6Root(zip).value].name;
      && layout.Some? && layout.value.major == 6 && layout.value.rootDir == name
      && layout.value.technicalName == WordAt(name, 0) && layout.value.technicalName != []
      && forall i :: 0 <= i < |layout.value.technicalName| ==> Archive.IsWordChar(layout.value.technicalName[i])
  {
    Archive.FirstFolderIsFirst(zip.entries, Archive.IsSw6RootName);
    var name := zip.entries[Sw6Root(zip).value].name;
    WordThenSlashShape(name, 0);
    var k := Archive.NextSlash(name, 0);
    assert name == WordAt(name, 0) + "/" + name[k + 1..];
    SplitSegments("", WordAt(name, 0), name[k + 1..]);
  }

  /** A plugin read from an archive has the technical name and major
      version of the detected layout, its infos are read from that layout's
      root folder, and its changelog wraps that folder's `CHANGELOG.md`. */
  lemma ReadUsesLayout(fs: Archive.FileSystem, zipFilePath: string, parse: JsonParser)
    requires Read(fs, zipFilePath, parse).Ok?
    ensures zipFilePath in fs && DetectLayout(fs[zipFilePath]).Some?
    ensures var zip := fs[zipFilePath];
      var layout := DetectLayout(zip).value;
      var r := Read(fs, zipFilePath, parse).value;
      && r.technicalName == layout.technicalName && r.shopwareMajorVersion == layout.major
      && ReadInfos(zip, layout, parse) == Ok(r.infos)
      && Archive.FileText(zip, layout.rootDir + "CHANGELOG.md") == Some(r.changelog.markdown.text)
      && r.changelog.markdown.Document?
  {
  }

  /** A missing archive is reported before anything is read, and an archive
      with neither layout is rejected. */
  lemma ReadErrors(fs: Archive.FileSystem, zipFilePath: string, parse: JsonParser)
    ensures zipFilePath !in fs ==> Read(fs, zipFilePath, parse) == Fail(FileDoesNotExist(zipFilePath))
    ensures zipFilePath in fs && Sw5Root(fs[zipFilePath]).None? && Sw6Root(fs[zipFilePath]).None?
      ==> Read(fs, zipFilePath, parse) == Fail(UndetectedShopwareVersion)
  {
  }

  /** `plugin.json` maps `currentVersion` to the version, its compatibility
      bounds to `>= <min> && <= <max>`, and its label over unchanged. */
  lemma PluginJsonMapping(text: string, parse: JsonParser, props: map<string, Json>, bounds: map<string, Json>)
    requires parse(text) == Some(JObj(props))
    requires "compatibility" in props && props["compatibility"] == JObj(bounds)
    ensures var r := ReadInfosFromPluginJson(text, parse);
      && r.Ok?
      && r.value.version == (if "currentVersion" in props then Some(props["currentVersion"]) else None)
      && r.value.shopwareCompatibility == Some(JStr(">= " + JsString(if "minimumVersion" in bounds then Some(bounds["minimumVersion"]) else None)
                                                   + " && <= " + JsString(if "maximumVersion" in bounds then Some(bounds["maximumVersion"]) else None)))
      && r.value.labels == Copied(if "label" in props then Some(props["label"]) else None)
  {
  }

  /** `composer.json` maps `version`, `require['shopware/core']` and the
      `en-GB` and `de-DE` labels of `extra.label`. */
  lemma ComposerJsonMapping(text: string, parse: JsonParser, props: map<string, Json>, require: map<string, Json>, labels: map<string, Json>)
    requires parse(text) == Some(JObj(props))
    requires "require" in props && props["require"] == JObj(require)
    requires "extra" in props && props["extra"] == JObj(map["label" := JObj(labels)])
    ensures var r := ReadInfosFromComposerJson(text, parse);
      && r.Ok?
      && r.value.version == (if "version" in props then Some(props["version"]) else None)
      && r.value.shopwareCompatibility == (if "shopware/core" in require then Some(require["shopware/core"]) else None)
      && r.value.labels == Localized(if "en-GB" in labels then Some(labels["en-GB"]) else None,
                                    if "de-DE" in labels then Some(labels["de-DE"]) else None)
  {
  }

  /** A `plugin.json` without a `compatibility` object, or malformed text,
      is rejected. */
  lemma PluginJsonRejected(text: string, parse: JsonParser)
    requires parse(text).None? || parse(text).value.JNull?
      || (parse(text).value.JObj? && "compatibility" !in parse(text).value.props)
    ensures ReadInfosFromPluginJson(text, parse).Fail?
  {
  }
}
