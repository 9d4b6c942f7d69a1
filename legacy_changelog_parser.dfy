/** The older `PluginChangelogParser.readZip` (lib/plugin_changelog_parser.js):
    the same line scan and regrouping as the newer parser, but every kept
    section is always rendered to HTML, and an archive without a CHANGELOG.md
    sends `null` into `split`, so the promise rejects. */
module LegacyChangelogParser {
  import opened Common
  import Archive
  import CP = ChangelogParser

  /** `new PluginChangelogParser().readZip(filePath)`. */
  method ReadZip(fs: Archive.FileSystem, filePath: string, render: string -> string)
    returns (r: Result<map<string, map<string, string>>>)
    ensures filePath !in fs ==> r == Fail(FileDoesNotExist(filePath))
    ensures filePath in fs && Archive.FindEntry(fs[filePath].entries, CP.ChangelogFile).None? ==> r.Fail? && r.error.TypeError?
    ensures filePath in fs && CP.RawChangelog(fs[filePath]).None? ==> r.Fail? && r.error.TypeError?
    ensures filePath in fs && Archive.FindEntry(fs[filePath].entries, CP.ChangelogFile).Some? && CP.RawChangelog(fs[filePath]).Some? ==>
      var scan := CP.Scan(CP.Init, CP.Lines(CP.RawChangelog(fs[filePath]).value));
      && (r.Ok? <==> scan.Ok?)
      && (r.Fail? ==> r.error == scan.error)
      && (r.Ok? ==> CP.IsRegrouping(scan.value.versions, r.value, true, render))
  {
    if filePath !in fs {
      return Fail(FileDoesNotExist(filePath));
    }
    var zip := fs[filePath];
    var changelogFile := Archive.FindEntry(zip.entries, CP.ChangelogFile);
    if changelogFile.None? {
      return Fail(TypeError("rawChangelog is null"));
    }
    var rawChangelog := Archive.FileText(zip, zip.entries[changelogFile.value].name);
    if rawChangelog.None? {
      return Fail(TypeError("zip.file(changelogFile) is null"));
    }
    var versions :- CP.ScanLines(CP.Lines(rawChangelog.value));
    var changelog := CP.Regroup(versions, true, render);
    return Ok(changelog);
  }
}
