# scs-commander in Dafny

scs-commander is a command-line tool that uploads Shopware plugin archives to
the Shopware Community Store and manages the plugins published there. This
project models the logic under its command line and its HTTP plumbing, and
proves what that logic promises:

- **Changelog parsing.** Three generations of one line-by-line parser turn a
  plugin's `CHANGELOG.md` into sections keyed by version and locale:
  `lib/pluginChangelogParser.js`, `lib/plugin_changelog_parser.js` and
  `lib/changelogMarkdownParser.js`. They use the `Markdown` accumulator
  (`lib/markdown.js`) and the `Changelog` wrapper (`lib/changelog.js`).
  Modules `ChangelogParser`, `LegacyChangelogParser`,
  `ChangelogMarkdownParser`, `Markdown` and `ChangelogWrapper`.
- **Plugin metadata.** `PluginInfo` covers the version-range check with its
  defaults and blacklist, and the label and changelog lookups. `Plugin`
  covers Shopware 5 / 6 layout detection in an archive and the
  `plugin.json` / `composer.json` mappings. `PluginJsonReader` and
  `LegacyPluginJsonReader` pick the `plugin.json` entry of an archive.
  `Archive` is an archive as its list of entries, plus the entry-name
  patterns.
- **Sessions and transport.**
  - `AxiosAuth` is the token cache, login and retry-once-on-401 of the
    axios interceptors, as a function of a scripted remote.
  - The class `ShopwareAuthenticator.Authenticator` and the closure
    `AuthInterceptors.Interceptors` are proved to run exactly that
    function.
  - `RetryInterceptor` is the unbounded back-off on 429.
  - `ShopwareStoreClient` is the older superagent client.
  - `Http` is the scripted remote: the replies still to come, and the
    requests, events and pauses so far.
- **The store commander.**
  - `StoreObjects` holds the plugin, binary and review objects that the
    commander changes in place.
  - `StoreCommander.Commander` is `lib/shopwareStoreCommander.js` and its
    promise-chain predecessor `lib/shopware_store_commander.js`, told
    apart by a `Generation` value.
- **Commands.**
  - `UploadCommand` is the decision logic of `lib/commands/upload.js`.
  - `CompatibilityCommand` is the minimum-version algorithm of
    `lib/commands/compatibility.js`.
  - `ListCommand` is the helpers and comparators of
    `lib/commands/list.js`.
  - `EnvLoader` is `lib/env_loader.js`.

Modelling conventions:

- JSON values are `Common.Json`, and `undefined` is `None`. Reading a
  property of `undefined` or `null` is a `TypeError`.
- Thrown errors and rejected promises are `Fail` values of `Common.Result`.
- Versions are numeric `major.minor.patch` triples compared by the
  precedence of section 11 of Semantic Versioning 2.0.0. Their text form
  round-trips (`Semver.ParseFormat`).
- Code that changes objects in place is a class with `modifies` clauses.
  Each such method is tied to a function on values, and the lemmas are
  proved about that function.
- `JSON.parse`, the Markdown-to-HTML renderers, the password prompt, string
  collation and date parsing are parameters.

`lib/pluginJsonReader.js` requires `./pluginInfo`, which is not part of this
model. Its constructor is taken to be `(name, info)`, as the call
`new PluginInfo(pluginName, json)` at lib/pluginJsonReader.js:36 suggests, and
its methods are taken to be those of `lib/plugin_info.js`.

## Model

| member | source | states |
|---|---|---|
| `Markdown.Markdown.constructor` | lib/markdown.js:4-6 | the stored text is the argument, unchanged |
| `Markdown.Markdown.ToString` | lib/markdown.js:8-10 | the result is the stored text with the whitespace at both ends removed, and reading it changes nothing |
| `Markdown.Markdown.ToHtml` | lib/markdown.js:12-16 | the renderer is applied to the trimmed text, and the stored text is not changed |
| `Markdown.Markdown.Append` | lib/markdown.js:18-20 | the new stored text is the old text followed by the argument |
| `ChangelogWrapper.FilterByNeedsVersionHeading` | lib/changelog.js:9-13 | a document without any version heading cannot be narrowed to any version and locale: `filterBy` fails |
| `ChangelogWrapper.ScanDeclaresNoVersion` | lib/changelogMarkdownParser.js:3-31 | scanning lines without a version heading, from a state that has no version, throws or declares no version |
| `ChangelogWrapper.FilterByTwiceFails` | lib/changelog.js:9-13 | a changelog produced by `filterBy` cannot be narrowed again, because its content is not a document string |
| `ChangelogWrapper.FilterByOneSection` | lib/changelog.js:9-13 | a document with one version heading, one locale heading and content lines narrows to those lines, each prefixed by a line break |
| `ChangelogWrapper.ParseOneSection` | lib/changelogMarkdownParser.js:3-31 | such a document parses to exactly one version holding one section |
| `EnvLoader.Mappings` | lib/env_loader.js:30 | any mapping object passed is used, even an empty one; otherwise the defaults map `username` and `password` to `SCS_USERNAME` and `SCS_PASSWORD` |
| `EnvLoader.LoadConfig` | lib/env_loader.js:27-43 | the program's options become the copy of the mapped variables that were not passed, followed by the password reset rule |
| `EnvLoader.CopiedStep` | lib/env_loader.js:31-36 | one iteration of the copy loop adds the mapped variable only when the key was not passed and the variable is set |
| `EnvLoader.NeverOverwrites` | lib/env_loader.js:33 | options that were passed keep their values; only the password can disappear, and it does exactly when the reset rule fires |
| `EnvLoader.AddsExactlyMappedVariables` | lib/env_loader.js:31-36 | every option added is a mapped key whose variable is set, with that variable's value, and every such key that was not passed is added |
| `EnvLoader.UsernameFromEnvKeepsPassword` | lib/env_loader.js:27-41 | the reset compares the username passed before copying, so a username that comes only from the environment never drops the password |
| `EnvLoader.MismatchDropsPassword` | lib/env_loader.js:41-43 | a non-empty passed username that `SCS_USERNAME` does not confirm removes the password, even one passed explicitly and whatever mappings are given |
| `ChangelogParser.HeadingKinds` | lib/pluginChangelogParser.js:42-47 | a `###` line is never a version heading, a `####` line is neither kind, and a line is a heading exactly when two or three `#` are followed by another character |
| `ChangelogParser.Step` | lib/pluginChangelogParser.js:42-62 | one line of the scan keeps the scan state well formed: an open locale always lies inside an open version |
| `ChangelogParser.Scan` | lib/pluginChangelogParser.js:41-63 | the scan of all lines keeps the state well formed, and the first thrown error ends it |
| `ChangelogParser.Lines` | lib/pluginChangelogParser.js:41 | the lines are the pieces of the split on `'\n'`, each trimmed |
| `ChangelogParser.ScanLines` | lib/pluginChangelogParser.js:37-63 | the loop that updates the sections and the current version and locale in place ends with the scan's sections, or with its first error |
| `ChangelogParser.UnopenedLinesDropped` | lib/pluginChangelogParser.js:59-61 | while no locale is open, content lines change nothing, so text before the first locale heading of a version is dropped |
| `ChangelogParser.OpenSectionCollectsLines` | lib/pluginChangelogParser.js:59-61 | while a locale is open, every content line is appended to its section as `"\n" + line` |
| `ChangelogParser.LocaleBeforeVersionFails` | lib/pluginChangelogParser.js:49-54 | a locale heading before any version heading is rejected with the "without an enclosing version header" error |
| `ChangelogParser.AdjacentDuplicateSlipsThrough` | lib/pluginChangelogParser.js:55-58 | two identical locale headings in a row are accepted, because the first leaves an empty, falsy section |
| `ChangelogParser.ScanAppend` | lib/pluginChangelogParser.js:41-63 | scanning two runs of lines one after the other is scanning their concatenation |
| `ChangelogParser.StepKeepsNonEmptySection` | lib/pluginChangelogParser.js:47-62 | a line that is not a version heading keeps a non-empty section of the current version, or fails with a duplicate locale |
| `ChangelogParser.NonEmptySectionStays` | lib/pluginChangelogParser.js:47-62 | lines without version headings never empty a non-empty section, and can only fail with a duplicate locale |
| `ChangelogParser.RepeatedLocaleFails` | lib/pluginChangelogParser.js:55-58 | a locale declared again under the same version after its section received a line is rejected with "declared twice" |
| `ChangelogParser.StepIsolated` | lib/pluginChangelogParser.js:47-62 | a line that is not a version heading acts on the current version only |
| `ChangelogParser.VersionBodyIsolated` | lib/pluginChangelogParser.js:41-63 | what a version's sections hold depends only on the lines after its latest heading, and those lines touch no other version |
| `ChangelogParser.VersionHeadingResets` | lib/pluginChangelogParser.js:42-46 | a version heading resets that version to `{}` and closes the locale, so a repeated heading discards the earlier sections, and other versions keep theirs |
| `ChangelogParser.AppendTrimmedLine` | lib/pluginChangelogParser.js:61 | appending `"\n"` and a trimmed line keeps a section made of trimmed lines |
| `ChangelogParser.StepKeepsLinesTrimmed` | lib/pluginChangelogParser.js:42-62 | one step on a trimmed line keeps every section made of trimmed lines |
| `ChangelogParser.ScanKeepsLinesTrimmed` | lib/pluginChangelogParser.js:41-63 | scanning trimmed lines keeps every section made of trimmed lines |
| `ChangelogParser.ParsedSectionsTrimmed` | lib/pluginChangelogParser.js:41 | every section the parse builds is made of trimmed lines, so indentation and `\r` never reach stored text |
| `ChangelogParser.RegroupingUnique` | lib/pluginChangelogParser.js:66-85 | the locale to version to text result is determined by the scanned sections |
| `ChangelogParser.RegroupedLocaleUnique` | lib/pluginChangelogParser.js:66-85 | two regroupings of the same sections agree on every locale |
| `ChangelogParser.RegroupedSoFarSwitch` | lib/pluginChangelogParser.js:67-68 | moving to the next version keeps the invariant of the outer loop |
| `ChangelogParser.AddSound` | lib/pluginChangelogParser.js:69-83 | storing one trimmed, non-empty section adds only texts the sections justify |
| `ChangelogParser.AddComplete` | lib/pluginChangelogParser.js:69-83 | storing one section keeps every visited non-empty section present |
| `ChangelogParser.AddJustified` | lib/pluginChangelogParser.js:82 | every locale of the result comes from a kept section |
| `ChangelogParser.RegroupedSoFarAdd` | lib/pluginChangelogParser.js:68-84 | one iteration of the inner loop keeps the loop invariant |
| `ChangelogParser.FinishSound` | lib/pluginChangelogParser.js:67-85 | finishing a version keeps the result sound |
| `ChangelogParser.FinishComplete` | lib/pluginChangelogParser.js:67-85 | finishing a version keeps the result complete |
| `ChangelogParser.RegroupedSoFarFinish` | lib/pluginChangelogParser.js:67-85 | finishing a version keeps the outer loop invariant |
| `ChangelogParser.RegroupedSoFarDone` | lib/pluginChangelogParser.js:66-87 | once every version is done, the result is the regrouping: texts trimmed, empty sections dropped, rendered when asked, keyed locale then version |
| `ChangelogParser.Regroup` | lib/pluginChangelogParser.js:66-87 | the nested loops return the regrouping of the scanned sections |
| `ChangelogParser.RegroupVersion` | lib/pluginChangelogParser.js:68-84 | the inner loop over one version's locales stores each of its kept sections |
| `ChangelogParser.RegroupedTextsTrimmed` | lib/pluginChangelogParser.js:71-74 | without HTML, every text of the result is non-empty and its own trim |
| `ChangelogParser.ReadZip` | lib/pluginChangelogParser.js:18-88 | a missing file fails with "does not exist", and otherwise the result is the scan error or the regrouping of the CHANGELOG.md text, rendered only when `compileHTML` is set |
| `ChangelogParser.NoChangelogIsEmpty` | lib/pluginChangelogParser.js:28-35 | an archive without a CHANGELOG.md entry is read as `''` and gives the empty changelog `{}` |
| `LegacyChangelogParser.ReadZip` | lib/plugin_changelog_parser.js:14-82 | a missing file fails; no CHANGELOG.md entry sends `null` into `split` and rejects with a TypeError; otherwise the scan error or the regrouping, every text always rendered |
| `ChangelogMarkdownParser.LeadingSpaces` | lib/changelogMarkdownParser.js:8-13 | the count is the length of the run of spaces a line starts with |
| `ChangelogMarkdownParser.IndentIsLeadingSpaces` | lib/changelogMarkdownParser.js:8-13 | spaces followed by `#` are exactly the line's indentation |
| `ChangelogMarkdownParser.IndentedHeadings` | lib/changelogMarkdownParser.js:8-13 | a heading is recognised with at most three spaces of indentation, and a line indented by four or more is content |
| `ChangelogMarkdownParser.LocaleIsNotVersion` | lib/changelogMarkdownParser.js:8-13 | a locale heading is never a version heading |
| `ChangelogMarkdownParser.Step` | lib/changelogMarkdownParser.js:8-26 | one line keeps the scan state well formed |
| `ChangelogMarkdownParser.Scan` | lib/changelogMarkdownParser.js:7-27 | the scan of all lines keeps the state well formed, and the first thrown error ends it |
| `ChangelogMarkdownParser.ParseChangelogMarkdown` | lib/changelogMarkdownParser.js:3-31 | the loop succeeds exactly when the scan does, with its error otherwise; the texts of the `Markdown` sections are the scan's sections, keyed version then locale, and every section object is new and unshared |
| `ChangelogMarkdownParser.ScanNext` | lib/changelogMarkdownParser.js:7-27 | scanning from a line is one step followed by the scan of the rest |
| `ChangelogMarkdownParser.ParseLine` | lib/changelogMarkdownParser.js:8-26 | the body of the loop on one line does what one step of the scan does to the section texts, and only adds new section objects |
| `ChangelogMarkdownParser.TextsIs` | lib/changelogMarkdownParser.js:3-31 | the texts of a changelog are read off section by section |
| `ChangelogMarkdownParser.ResetVersion` | lib/changelogMarkdownParser.js:12 | `changelog[v] = {}` drops the sections of `v` and keeps every other one |
| `ChangelogMarkdownParser.OpenSection` | lib/changelogMarkdownParser.js:22 | a new empty `Markdown` section is stored under the version and locale, and nothing else changes |
| `ChangelogMarkdownParser.AddSection` | lib/changelogMarkdownParser.js:22 | adding a section object not yet present adds just that object |
| `ChangelogMarkdownParser.AddSectionWithin` | lib/changelogMarkdownParser.js:22 | adding a section brings in no object but that one |
| `ChangelogMarkdownParser.AddSectionTexts` | lib/changelogMarkdownParser.js:22 | adding a section adds its text under the version and locale |
| `ChangelogMarkdownParser.AppendToSection` | lib/changelogMarkdownParser.js:25 | `append` changes the text of that one section and no other |
| `ChangelogMarkdownParser.LocaleStaysDeclared` | lib/changelogMarkdownParser.js:19-22 | a declared locale stays declared until the next version heading, or the scan fails as a duplicate |
| `ChangelogMarkdownParser.DuplicateLocaleAlwaysFails` | lib/changelogMarkdownParser.js:19-21 | a locale repeated under one version always fails as declared twice, even when its first section is empty, because a `Markdown` object is truthy |
| `ChangelogMarkdownParser.ScanAppend` | lib/changelogMarkdownParser.js:7-27 | scanning two runs of lines one after the other is scanning their concatenation |
| `ChangelogMarkdownParser.EmptyVersionNameIsMissing` | lib/changelogMarkdownParser.js:10-18 | a heading such as `"## "` gives an empty, falsy version, so a locale heading after it is rejected as having no version |
| `ChangelogMarkdownParser.OpenSectionCollectsRawLines` | lib/changelogMarkdownParser.js:23-26 | while a locale is open, every content line is appended raw, not trimmed, after a line break |
| `ChangelogMarkdownParser.ScanOneSection` | lib/changelogMarkdownParser.js:3-31 | a version heading, a locale heading and content lines give one section with those lines, with no trimming and no dropping |
| `ChangelogMarkdownParser.ScanTwoHeadings` | lib/changelogMarkdownParser.js:8-22 | after a version heading and a locale heading, that locale's section is open and empty |
| `ChangelogMarkdownParser.UnopenedLinesIgnored` | lib/changelogMarkdownParser.js:23-26 | outside a locale section, lines that are not headings are ignored |
| `PluginInfo.GetLabel` | lib/plugin_info.js:64-71 | a label returned is truthy; a missing or falsy entry throws |
| `PluginInfo.GetChangelogs` | lib/plugin_info.js:98-105 | the changelogs returned are truthy; a missing or falsy entry throws |
| `PluginInfo.GetChangelog` | lib/plugin_info.js:113-121 | the changelog text returned is truthy; a missing or falsy entry throws |
| `PluginInfo.LanguageDefaultsToEnglish` | lib/plugin_info.js:64-70 | no language and the empty language both read the English entry, and any other language is used as given |
| `PluginInfo.GetLabelFromLabels` | lib/plugin_info.js:64-71 | `getLabel` returns the stored label when it is truthy and throws "Label for language … not available" otherwise |
| `PluginInfo.GetChangelogOfCurrentVersion` | lib/plugin_info.js:113-121 | without a version argument the entry of the current version is read, and a missing one throws naming that version |
| `PluginInfo.Constraints` | lib/plugin_info.js:85-88 | the bounds and blacklist are read from `info.compatibility`, and reading them succeeds only when `getCompatibility` does |
| `PluginInfo.SemverOf` | lib/plugin_info.js:90 | a value is a version exactly when it is a string that parses as `major.minor.patch` |
| `PluginInfo.Names` | lib/plugin_info.js:88 | the blacklist strings are the text forms of the versions, in order |
| `PluginInfo.SemverOfFormat` | lib/plugin_info.js:90 | the text form of a version reads back as that version |
| `PluginInfo.NotListedByVersion` | lib/plugin_info.js:90 | `indexOf` of a canonical version text in a canonical blacklist finds it exactly when the version is blacklisted |
| `PluginInfo.IsCompatibleMeaning` | lib/plugin_info.js:84-91 | with canonical constraints, a version is compatible exactly when min ≤ v ≤ max by precedence and v is not blacklisted |
| `PluginInfo.IsCompatibleDefaults` | lib/plugin_info.js:86-88 | with no constraints set, a version is compatible exactly when it is at most 99.99.99 |
| `PluginInfo.IsCompatibleRejectsInvalid` | lib/plugin_info.js:90 | a version `semver` cannot read makes `isCompatible` throw a TypeError |
| `Plugin.DetectLayout` | lib/plugin.js:41-65 | no layout exactly when neither root folder exists; the major version is 5 when a Shopware 5 root folder exists and 6 otherwise |
| `Plugin.Plugin.constructor` | lib/plugin.js:40 | a new plugin has no technical name, major version, infos or changelog yet |
| `Plugin.ReadFromZipFile` | lib/plugin.js:32-72 | the method succeeds exactly when the layout read does; it returns a fresh plugin holding that read's fields, or that read's error |
| `Plugin.SplitSegments` | lib/plugin.js:51-58 | `split('/')` gives the first segment of `seg/rest` and the second of `first/seg/rest` |
| `Plugin.WordThenSlashShape` | lib/plugin.js:42 | a name the folder pattern accepts is a word, a slash and the rest |
| `Plugin.Sw5TakesPrecedence` | lib/plugin.js:49-55 | with a Shopware 5 root folder, the archive is read as a Shopware 5 plugin whatever other folders it has, and the technical name is a non-empty word |
| `Plugin.Sw5LayoutOf` | lib/plugin.js:49-52 | the layout of a Shopware 5 root folder `<ns>/<name>/` is that folder, `<name>` and major version 5 |
| `Plugin.Sw5NameShape` | lib/plugin.js:51 | the second segment of `<ns>/<word>/…` is `<word>` |
| `Plugin.Sw6Fallback` | lib/plugin.js:56-59 | with no Shopware 5 root folder but a Shopware 6 one, the archive is read as a Shopware 6 plugin named by the first segment |
| `Plugin.ReadUsesLayout` | lib/plugin.js:48-71 | a plugin read has the detected layout's technical name and major version, infos from that root folder, and a changelog wrapping that folder's CHANGELOG.md |
| `Plugin.ReadErrors` | lib/plugin.js:33-65 | a missing archive fails before anything is read, and an archive with neither layout fails with the detection error |
| `Plugin.PluginJsonMapping` | lib/plugin.js:20-29 | `plugin.json` maps `currentVersion` to the version, the bounds to `>= <min> && <= <max>`, and the label unchanged |
| `Plugin.ComposerJsonMapping` | lib/plugin.js:7-18 | `composer.json` maps `version`, `require['shopware/core']` and the `en-GB` and `de-DE` labels of `extra.label` |
| `Plugin.PluginJsonRejected` | lib/plugin.js:21-26 | malformed text or a `plugin.json` without a `compatibility` object is rejected |
| `PluginJsonReader.FindPluginJson` | lib/pluginJsonReader.js:20-28 | the entry found is the first whose name matches the `plugin.json` pattern, and the name captured is the one the callback stored for it; nothing found means no name |
| `PluginJsonReader.ReadZip` | lib/pluginJsonReader.js:11-37 | a missing file is rejected; the result is null exactly when no entry matches; a plugin info found is named by a non-empty segment without `/` |
| `PluginJsonReader.NoMatchInEmptyName` | lib/pluginJsonReader.js:22 | the empty name matches no namespace pattern |
| `PluginJsonReader.ReadPicksFirstMatch` | lib/pluginJsonReader.js:21-36 | when earlier entries do not match, the first matching entry's parsed text becomes the info, named by the segment captured from its name |
| `PluginJsonReader.ReadOfMatch` | lib/pluginJsonReader.js:33-36 | a matching entry whose text parses gives a plugin info holding that document, so its current version is the document's `currentVersion` |
| `PluginJsonReader.FirstFileWithName` | lib/pluginJsonReader.js:33 | `zip.file(name)` finds an entry when no earlier entry carries its name |
| `PluginJsonReader.CaptureOfPluginJsonPath` | lib/pluginJsonReader.js:22-24 | for `<ns>/<name>/plugin.json` the captured plugin name is `<name>` |
| `LegacyPluginJsonReader.ParseNullable` | lib/plugin_json_reader.js:27-33 | parsing the null the promise chain passes on parses the text `null` |
| `LegacyPluginJsonReader.ReadZip` | lib/plugin_json_reader.js:13-36 | a missing file is rejected, and a plugin info built never has an info document |
| `LegacyPluginJsonReader.NoMatchStillBuildsInfo` | lib/plugin_json_reader.js:27-35 | with no matching entry the reader resolves to a plugin info with a null name rather than to null, and reading its current version throws |
| `LegacyPluginJsonReader.JsonLandsInNameSlot` | lib/plugin_json_reader.js:33-35 | the parsed document lands in the name slot, so `getCurrentVersion` throws, while the newer reader files it under the info |
| `Archive.ReadText` | lib/pluginJsonReader.js:33 | reading a file succeeds exactly when a non-folder entry has that name and gives its text; otherwise a TypeError |
| `Archive.NextSlash` | lib/pluginJsonReader.js:22 | the position found is the first `/` at or after the start, or the end of the name |
| `Archive.Search` | lib/pluginJsonReader.js:22 | a captured plugin name is non-empty and has no `/` |
| `Archive.SearchFromFailsOnlyWithoutMatch` | lib/pluginJsonReader.js:22 | the pattern search fails exactly when no match starts at any later position |
| `Archive.SearchFromIsLeftmost` | lib/pluginJsonReader.js:22 | what the search captures is the capture of the match at some position at or after the start |
| `Archive.FindEntry` | lib/pluginJsonReader.js:21-28 | the entry found matches, none before it does, and nothing is found exactly when no entry matches |
| `Archive.FindEntryAt` | lib/pluginJsonReader.js:21-28 | a matching entry preceded only by non-matching ones is the one found |
| `Archive.FirstFolderIsFirst` | lib/plugin.js:41-42 | `zip.folder(regex)[0]` is a folder that passes with no passing folder before it, and is missing exactly when no folder passes |
| `Archive.FirstFolderPasses` | lib/plugin.js:41-42 | the folder found is a folder and passes the pattern |
| `Archive.FileText` | lib/plugin.js:54-68 | `zip.file(name)` finds text exactly when some non-folder entry carries that name |
| `Archive.FileTextFrom` | lib/pluginJsonReader.js:33 | looking a name up in a list of entries finds text exactly when a non-folder entry of the list carries it |
| `Common.Prop` | lib/plugin_info.js:85-88 | reading a property of undefined or null throws a TypeError, and an object gives its own property or undefined |
| `Semver.Compare` | lib/commands/compatibility.js:60 | `semver.compare` gives -1, 0 or 1 exactly as the first version precedes, equals or follows the second |
| `Semver.LessTransitive` | lib/commands/list.js:36 | version precedence is transitive |
| `Semver.LessTrichotomy` | lib/commands/list.js:36 | of two versions exactly one precedes, or they are equal, and none precedes itself |
| `Semver.ParseFormat` | lib/plugin_info.js:90 | a text reads as a version exactly when it is that version's canonical text form |
| `Semver.FormatInjective` | lib/plugin_info.js:90 | two versions with the same text form are equal, so `indexOf` on canonical texts compares versions |
| `Semver.InsertBy` | lib/commands/compatibility.js:59-61 | inserting into a list sorted by key keeps it sorted and adds exactly that element |
| `Semver.SortBy` | lib/commands/compatibility.js:59-61 | sorting by `semver.compare` of a key gives a list sorted by that key with the same elements |
| `Semver.SortedHeadIsMinimum` | lib/commands/list.js:27 | after sorting, the first element has the smallest version of the list |
| `Text.TrimStartSpec` | lib/markdown.js:9 | the start trim drops a whitespace prefix and stops at the first other character |
| `Text.TrimEndSpec` | lib/markdown.js:9 | the end trim drops a whitespace suffix and stops at the last other character |
| `Text.TrimSpec` | lib/markdown.js:9 | `trim()` removes exactly the whitespace runs at both ends |
| `Text.TrimEmptyIff` | lib/pluginChangelogParser.js:41 | a line trims to nothing exactly when it is all whitespace |
| `Text.TrimOfTrimmed` | lib/pluginChangelogParser.js:44 | a text starting and ending with other characters is its own trim |
| `Text.TrimIdempotent` | lib/changelogMarkdownParser.js:10 | trimming twice is trimming once |
| `Text.TrimKeepsAbsent` | lib/pluginChangelogParser.js:41 | trimming adds no character |
| `Text.Substr` | lib/pluginChangelogParser.js:44-49 | `substr(n)` keeps the characters from position n on, and is empty past the end |
| `Text.Split` | lib/plugin.js:51-58 | `split` gives at least one piece, none containing the separator, and joining the pieces gives the text back |
| `Text.SplitNoSeparator` | lib/plugin.js:51 | a text without the separator splits into itself |
| `Text.SplitPiece` | lib/plugin.js:51 | a separator-free piece followed by the separator is the first piece |
| `Text.SplitJoin` | lib/changelogMarkdownParser.js:7 | split undoes join when no piece contains the separator |
| `Text.JoinAppend` | lib/changelogMarkdownParser.js:7 | joining one more piece appends the separator and that piece |
| `Text.SplitAppend` | lib/changelogMarkdownParser.js:7 | appending the separator and a separator-free piece adds exactly that piece to the split |
| `Text.NatToString` | lib/plugin_info.js:86-88 | the decimal text of a number is a numeral |
| `AxiosAuth.Initial` | lib/client/authInterceptors.js:28 | a session right after registration has no truthy token and no user id |
| `AxiosAuth.Cleared` | lib/client/authInterceptors.js:55 | the renewal handler leaves no truthy token and keeps the user id |
| `AxiosAuth.Stored` | lib/client/shopwareAuthenticator.js:36-37 | a login stores the granted token; the class also stores the user id, the closures keep theirs |
| `AxiosAuth.LoginBody` | lib/client/authInterceptors.js:7-10 | the login body is an object with `shopwareId` and `password` exactly when each is defined |
| `AxiosAuth.WithToken` | lib/client/authInterceptors.js:36-40 | the headers carry `X-Shopware-Token` set to the token; existing headers keep their other entries, and missing headers become just that one |
| `AxiosAuth.StatusOfUndefined` | lib/client/authInterceptors.js:53 | reading `status` of an undefined response is a TypeError |
| `AxiosAuth.Rejected` | lib/client/authInterceptors.js:53 | the class rejects with the error as it came; the closures do so only for an error with a response, and throw a TypeError otherwise |
| `AxiosAuth.Config.constructor` | lib/client/authInterceptors.js:29 | a new request config is not yet marked as a retry |
| `AxiosAuth.Request` | lib/client/authInterceptors.js:29-62 | a request resolves only with a success; it never changes the verb, path, `noToken` flag or body of the config; the closures never touch a user id; no error it rejects with is flagged unauthorized |
| `AxiosAuth.Authorize` | lib/client/authInterceptors.js:29-48 | the request interceptor of the closures never touches a user id |
| `AxiosAuth.AxiosError` | lib/client/authInterceptors.js:61 | the error axios rejects with keeps the status and message of the response and is never flagged unauthorized |
| `AxiosAuth.LoginError` | lib/client/authInterceptors.js:17-22 | the `catch` of the login turns only an error flagged unauthorized into "Login failed" and rethrows every other one unchanged |
| `AxiosAuth.Login` | lib/client/authInterceptors.js:1-24 | the login of the closures never touches the user id and hands back no user id; no login of either variant fails with "Login failed", because the error it catches is never flagged unauthorized |
| `AxiosAuth.Recover` | lib/client/authInterceptors.js:50-62 | the error handler resolves only with a success and never changes the verb, path, `noToken` flag or body of the config; no error it rejects with is flagged unauthorized |
| `AxiosAuth.NoTokenNeverLogsIn` | lib/client/authInterceptors.js:30-58 | a `noToken` config never logs in: it is sent as given once, or twice after a 401, and only the renewal is announced |
| `AxiosAuth.NoTokenSendsAsGiven` | lib/client/authInterceptors.js:45 | a `noToken` config is sent as it is, without a login |
| `AxiosAuth.LoginSendsNoToken` | lib/client/authInterceptors.js:3-12 | a login announces itself and sends only the login request, which carries no token; a failed login leaves no truthy token |
| `AxiosAuth.RetriedAtMostOnce` | lib/client/authInterceptors.js:29-62 | every request is sent with a token at most twice and logs in at most twice |
| `AxiosAuth.SentThenRecovered` | lib/client/authInterceptors.js:50-62 | after a failed send, the retry adds at most one more token send and one more login |
| `AxiosAuth.LoginGranted` | lib/client/shopwareAuthenticator.js:21-37 | a granted login sends the login request once, makes both announcements and hands back the token (and, for the class, the user id) of the body |
| `AxiosAuth.CachedTokenUsed` | lib/client/authInterceptors.js:31-40 | a cached truthy token is sent as it is, once, with no login |
| `AxiosAuth.FirstRequestLogsIn` | lib/client/authInterceptors.js:31-40 | without a truthy token the request logs in first, stores the token and sends the config carrying it |
| `AxiosAuth.RenewedOnce` | lib/client/authInterceptors.js:53-58 | a 401 drops the token, logs in again and sends the same config, marked as retried and carrying the new token |
| `AxiosAuth.SecondUnauthorizedRejected` | lib/client/authInterceptors.js:53-61 | a second 401, on the retried config, is rejected as it came |
| `AxiosAuth.OtherStatusRejected` | lib/client/authInterceptors.js:61 | any other failing status is rejected as it came after one send, with the session unchanged |
| `AxiosAuth.ResponseLessError` | lib/client/shopwareAuthenticator.js:88-96 | a send with no response is rejected with its own error by the class, and with a TypeError by the closures |
| `AxiosAuth.UnauthorizedLogin` | lib/client/authInterceptors.js:17-22 | a login refused with a 401 twice makes both the class and the closures reject the request with the raw 401 of the second refusal, after two login sends and with no token stored: the "Login failed" branch is never taken, since an axios response has no `unauthorized` property |
| `AuthInterceptors.Interceptors.constructor` | lib/client/authInterceptors.js:26-28 | the closure's token starts as null |
| `AuthInterceptors.Interceptors.Request` | lib/client/authInterceptors.js:26-65 | a request through the closure interceptors ends in the result, session, remote and config that `AxiosAuth.Request` gives |
| `AuthInterceptors.Interceptors.TokenInterceptor` | lib/client/authInterceptors.js:29-48 | the request interceptor ends in the state `AxiosAuth.Authorize` gives |
| `AuthInterceptors.Interceptors.Login` | lib/client/authInterceptors.js:1-24 | the login returns and leaves what `AxiosAuth.Login` gives |
| `AuthInterceptors.Interceptors.RetryOnUnauthorized` | lib/client/authInterceptors.js:50-62 | the error handler ends in the state `AxiosAuth.Recover` gives |
| `ShopwareAuthenticator.Authenticator.constructor` | lib/client/shopwareAuthenticator.js:7-13 | a new authenticator holds neither a token nor a user id |
| `ShopwareAuthenticator.Authenticator.Request` | lib/client/shopwareAuthenticator.js:50-99 | a request through the class interceptors ends in what `AxiosAuth.Request` gives |
| `ShopwareAuthenticator.Authenticator.AccessTokenInterceptor` | lib/client/shopwareAuthenticator.js:58-79 | the request interceptor ends in the state `AxiosAuth.Authorize` gives |
| `ShopwareAuthenticator.Authenticator.Login` | lib/client/shopwareAuthenticator.js:21-45 | the login stores and sends what `AxiosAuth.Login` gives |
| `ShopwareAuthenticator.Authenticator.RenewalInterceptor` | lib/client/shopwareAuthenticator.js:84-99 | the error handler ends in the state `AxiosAuth.Recover` gives |
| `RetryInterceptor.SuccessPassesThrough` | lib/client/retryInterceptor.js:20 | a successful reply is handed back after one send and no pause |
| `RetryInterceptor.OtherErrorsRejected` | lib/client/retryInterceptor.js:22-28 | any other failure, with or without a response, is rejected as it came after one send and no pause |
| `RetryInterceptor.BackoffRounds` | lib/client/retryInterceptor.js:21-26 | k replies of 429 then a success give k pauses of five seconds and k + 1 sends of the same request, with no cap on k |
| `ShopwareStoreClient.ErrorHandler` | lib/shopware_store_client.js:136-144 | an unauthorized response becomes "Login failed: <message>" and every other error is rethrown unchanged |
| `ShopwareStoreClient.Password` | lib/shopware_store_client.js:121-131 | a truthy given password is used, otherwise the prompt's answer |
| `ShopwareStoreClient.LoggedIn` | lib/shopware_store_client.js:108-115 | a successful login reply with an object body is accepted, and a failing one is rejected through the error handler |
| `ShopwareStoreClient.AccessToken` | lib/shopware_store_client.js:84-93 | a truthy stored token is handed back with nothing sent; a token handed back is the one stored; no pause or event happens |
| `ShopwareStoreClient.Client.constructor` | lib/shopware_store_client.js:16-20 | a new client stores neither a token nor a user id |
| `ShopwareStoreClient.Client.GetPassword` | lib/shopware_store_client.js:121-131 | the password is the one `Password` picks |
| `ShopwareStoreClient.Client.Login` | lib/shopware_store_client.js:98-116 | one POST to `accesstokens`; a successful body's `userId` and `token` are stored, and an error stores nothing |
| `ShopwareStoreClient.Client.GetAccessToken` | lib/shopware_store_client.js:84-93 | the result, account and remote are those `AccessToken` gives |
| `ShopwareStoreClient.Client.Dispatch` | lib/shopware_store_client.js:27-79 | every verb first obtains a token, then sends with `X-Shopware-Token` and maps errors through the handler |
| `ShopwareStoreClient.Client.Get` | lib/shopware_store_client.js:27-34 | a GET is the authorised call of `Call` with the body `QueryOf` gives |
| `ShopwareStoreClient.QueryOf` | lib/shopware_store_client.js:31 | the query or `{}`: a truthy query is sent as given, and a falsy or missing one (null, false, 0, "") as `{}`, so the body is always truthy |
| `ShopwareStoreClient.Client.Post` | lib/shopware_store_client.js:42-53 | a POST attaches the file only when its path is truthy |
| `ShopwareStoreClient.Client.Put` | lib/shopware_store_client.js:60-67 | a PUT sends the params and no file |
| `ShopwareStoreClient.Client.Delete` | lib/shopware_store_client.js:73-79 | a DELETE sends no body |
| `ShopwareStoreClient.ErrorHandlerIdempotent` | lib/shopware_store_client.js:136-144 | handling an error twice is handling it once |
| `ShopwareStoreClient.TokenNeverCleared` | lib/shopware_store_client.js:84-87 | once a truthy token is stored no call logs in or changes the account, whatever the reply, so an expired token surfaces as "Login failed" |
| `ShopwareStoreClient.FirstCallLogsIn` | lib/shopware_store_client.js:84-112 | without a truthy token a call sends the login request, then the request carrying the token the login stored |
| `ShopwareStoreClient.FailedLoginStoresNothing` | lib/shopware_store_client.js:115 | a failed login stores nothing, sends nothing else, and rejects with the handler's error |
| `StoreObjects.Binary.constructor` | lib/shopwareStoreCommander.js:100 | a binary object holds the properties of the item it was built from |
| `StoreObjects.Review.constructor` | lib/shopwareStoreCommander.js:183 | a review object holds the properties of the body it was built from |
| `StoreObjects.Plugin.constructor` | lib/shopwareStoreCommander.js:41-43 | a listed plugin holds its properties, one fresh binary and review object per item of its arrays, no latest binary and no loaded-fields list |
| `StoreObjects.Objects` | lib/shopwareStoreCommander.js:99 | one fresh binary per item of the array, in order, holding that item's properties |
| `StoreObjects.ReviewObjects` | lib/shopwareStoreCommander.js:239-240 | one fresh review per item of the array, in order, holding that item's properties |
| `StoreObjects.UpdatePluginDataAsWritten` | lib/shopwareStoreCommander.js:257-264 | the merge as written can only fail with a TypeError |
| `StoreObjects.UpdatePluginData` | lib/shopwareStoreCommander.js:257-264 | the merge fails with a TypeError exactly for a null body and then changes nothing; otherwise the plugin's properties become the merge of the body, and its objects stay |
| `StoreObjects.MergedStep` | lib/shopwareStoreCommander.js:258-262 | the value a key has when its turn comes is its original value, so keys are handled independently |
| `StoreObjects.MergeRule` | lib/shopwareStoreCommander.js:258-263 | the merge keeps the plugin's keys, protects loaded fields and falsy values, and takes every other value present in the body |
| `StoreObjects.MergeIdempotent` | lib/shopwareStoreCommander.js:257-264 | merging the same body twice is merging it once |
| `StoreObjects.AsWrittenAgreesWithList` | lib/shopwareStoreCommander.js:257-264 | with a loaded-fields list the merge as written and the corrected merge agree |
| `StoreObjects.AsWrittenThrowsWithoutList` | lib/shopwareStoreCommander.js:257-264 | a plugin found without extra fields has no list, so saving it with an answer carrying its truthy id throws a TypeError |
| `StoreCommander.Response` | lib/shopwareStoreCommander.js:24 | a request resolves with the body exactly on a success, and rejects with the reply's error otherwise |
| `StoreCommander.Items` | lib/shopwareStoreCommander.js:41-43 | only an array can be iterated or searched, giving its items; anything else throws a TypeError |
| `StoreCommander.First` | lib/shopwareStoreCommander.js:28 | `data[0]` throws exactly on null, is the first item of a non-empty array, and undefined for an empty one |
| `StoreCommander.FindByName` | lib/shopwareStoreCommander.js:198-214 | an addon found is an object of the list; a failure is a TypeError |
| `StoreCommander.FindById` | lib/shopwareStoreCommander.js:160 | a review found is an item of the list; a failure is a TypeError |
| `StoreCommander.Names` | lib/shopwareStoreCommander.js:41-43 | every listed plugin has exactly one filing name |
| `StoreCommander.BinaryName` | lib/shopwareStoreCommander.js:94 | the binary name is the suffix of the path after its last `/` or `\`, containing neither |
| `StoreCommander.WrittenBack` | lib/shopwareStoreCommander.js:135-137 | the changelogs, compatible versions and status come from the answer, and every other property stays |
| `StoreCommander.Serialised` | lib/shopwareStoreCommander.js:80 | the body of a plugin is the object `JSON.stringify` sees: every own property kept, the binary and review arrays holding their objects as they are now, the assigned latest binary and the loaded-fields list included |
| `StoreCommander.Fetches` | lib/shopwareStoreCommander.js:239 | one fetch per link |
| `StoreCommander.Links` | lib/shopwareStoreCommander.js:239 | one link per field |
| `StoreCommander.Polled` | lib/shopwareStoreCommander.js:160-162 | a poll fails only with a TypeError |
| `StoreCommander.PollStep` | lib/shopwareStoreCommander.js:149-164 | a poll pauses three seconds and fetches the reviews once; a status it reads comes from the review listed under the id; a failure is never the timeout |
| `StoreCommander.SameLookups` | lib/shopwareStoreCommander.js:161-162 | objects that agree on every property are equal |
| `StoreCommander.PollRepeats` | lib/shopwareStoreCommander.js:161-162 | a poll overwrites what an earlier poll wrote, so polling depends only on the last list fetched |
| `StoreCommander.Commander.constructor` | lib/shopwareStoreCommander.js:13-18 | a new commander has no account data and empty statics |
| `StoreCommander.Commander.Call` | lib/shopwareStoreCommander.js:24 | a request sends once and gives the body or the error `Response` gives |
| `StoreCommander.Commander.File` | lib/shopwareStoreCommander.js:42 | filing a plugin replaces only the entry under its name, with a fresh object |
| `StoreCommander.Commander.FilePlugins` | lib/shopwareStoreCommander.js:40-43 | the cached plugins are those `KeyedByName` files, all fresh, each filed under its own name, and a failure is its error |
| `StoreCommander.Commander.LoadAccountData` | lib/shopwareStoreCommander.js:23-51 | the producer id, plugins and statics are those the three replies give, and a failure is the first error among them; a success sends the three requests in order and leaves the trace `AccountNet` gives; every cached plugin is fresh, has no loaded-fields list and is filed under its own name; every run fetches the producers first |
| `StoreCommander.Commander.LoadListing` | lib/shopwareStoreCommander.js:31-48 | with the producer id known, the cached plugins and statics are those `ListingData` reads from the next two replies, and a failure is the first error among them; a success sends the plugin query for that producer and then the statics fetch, every cached plugin fresh, with no loaded-fields list and filed under its own name |
| `StoreCommander.Commander.FindPlugin` | lib/shopwareStoreCommander.js:58-72 | with cached plugins a missing name fails with `PluginNotFound` and nothing sent; without them the account is loaded first, its failure is the result, and a name it does not list fails with `PluginNotFound` after the three requests; a found plugin is the cached one, loaded with the extra fields exactly as `LoadAll` says from the listed properties (its failure being the result), and, when no field is `name`, filed under its own name |
| `StoreCommander.Commander.LoadField` | lib/shopwareStoreCommander.js:239-244 | one field is fetched, replaced by the body, marked loaded, and gives the objects for `binaries` and `reviews` |
| `StoreCommander.Commander.LoadNext` | lib/shopwareStoreCommander.js:236-248 | loading the next field after the first ones either leaves the plugin as `LoadAll` says for one field more or fails as the whole load does; the objects of fields not asked for and the latest binary stay, and loaded binaries stay mirrored by the binary objects |
| `StoreCommander.Commander.LoadExtraPluginFields` | lib/shopwareStoreCommander.js:236-248 | the plugin ends as `LoadAll` says, fields not loaded keep their objects, and once `binaries` is loaded the binary objects hold exactly the items of the loaded array |
| `StoreCommander.Commander.StoreBinaries` | lib/shopwareStoreCommander.js:99-100 | the body is stored under `binaries`; a null body throws a TypeError; otherwise the binaries mirror the body and the latest is the last |
| `StoreCommander.Commander.UploadPluginBinary` | lib/shopwareStoreCommander.js:93-103 | the file is posted to the plugin's binaries and the plugin takes the binaries of the answer |
| `StoreCommander.Commander.UpdatePluginBinary` | lib/shopwareStoreCommander.js:111-123 | the file is posted to the binary's file path and the plugin takes the binaries of the answer |
| `StoreCommander.Commander.SavePluginBinary` | lib/shopwareStoreCommander.js:130-140 | the binary is put, and takes the changelogs, compatible versions and status of the answer |
| `StoreCommander.Commander.PollOnce` | lib/shopwareStoreCommander.js:149-164 | one poll ends as `PollStep` says |
| `StoreCommander.Commander.PollReviewStatus` | lib/shopwareStoreCommander.js:149-177 | polling ends as `PollAll` says |
| `StoreCommander.Commander.RequestBinaryReview` | lib/shopwareStoreCommander.js:146-190 | a review is requested once; a failed request is its error; a plugin whose `reviews` is not an array throws a TypeError after the request with nothing more sent; with the older file (lib/shopware_store_commander.js:138-185) the review is appended and the call then fails with a TypeError and nothing more sent, because `pollReviewStatus` reads `spinner` of a client that has none (line 142); with the newer file a null answer fails, and otherwise the review is appended to the plugin's reviews and polled as `PollAll` says; nothing else of the plugin changes |
| `StoreCommander.Commander.MergeIntoCached` | lib/shopwareStoreCommander.js:83 | merging into the cached plugin fails with a TypeError exactly when the lookup or body cannot be read, and otherwise merges as `UpdatePluginData` does |
| `StoreCommander.Commander.SavePlugin` | lib/shopwareStoreCommander.js:78-86 | the whole serialised plugin is put once to its path; a failed PUT is its error with the plugin unchanged; after a success the call fails exactly when the merge throws, and otherwise the cached plugin of the name, whether it is the plugin passed or another object, takes the merge of the answer into its own props and is returned; a failure leaves the cached plugin's props as they were |
| `StoreCommander.Commander.EnablePartialIonCubeEncryption` | lib/shopwareStoreCommander.js:196-229 | a failed plan is its error and no plan returns the plugin, both with nothing sent; otherwise the statics' addon is pushed onto the plugin's addons, the whole serialised plugin put once, and the answer merged as by `savePlugin` into the cached plugin of the name, also when that is another object than the plugin passed; without a plan the cached plugin is left as it was; the plugin's binaries, reviews, latest binary and loaded fields never change |
| `StoreCommander.FiledPrefixFails` | lib/shopwareStoreCommander.js:41-43 | a listing that throws part-way throws as a whole, with that error |
| `StoreCommander.LoadAllStops` | lib/shopwareStoreCommander.js:247 | a load that fails part-way fails as a whole, in that state |
| `StoreCommander.LoadAllNext` | lib/shopwareStoreCommander.js:239-245 | loading one more field after a successful prefix is one more step |
| `StoreCommander.LoadAllSends` | lib/shopwareStoreCommander.js:239 | a successful load sent one fetch per field, to its link, each answered with success |
| `StoreCommander.MarkedOnce` | lib/shopwareStoreCommander.js:237-243 | the loaded-fields list has no duplicates and holds exactly the earlier entries and the new fields, in first-marked order |
| `StoreCommander.LoadAllExtends` | lib/shopwareStoreCommander.js:239 | a load only appends to what was sent |
| `StoreCommander.UnnamedKept` | lib/shopwareStoreCommander.js:240 | a property no field names keeps its value |
| `StoreCommander.LastFetchWins` | lib/shopwareStoreCommander.js:240 | after a successful load a field holds the body of the last reply fetched for it |
| `StoreCommander.PollAllCount` | lib/shopwareStoreCommander.js:156-172 | polling fetches between one and twenty times, gives up only on the twentieth poll, and only adds sends and pauses |
| `StoreCommander.PollAllFetches` | lib/shopwareStoreCommander.js:158 | every send of a poll fetches the plugin's reviews |
| `StoreCommander.PollAllPauses` | lib/shopwareStoreCommander.js:152-154 | every pause lasts three seconds |
| `StoreCommander.PollAllOutcome` | lib/shopwareStoreCommander.js:164-176 | polling ends with a finished review, gives up with it pending, or fails |
| `StoreCommander.PollAllKeeps` | lib/shopwareStoreCommander.js:161-162 | polling changes no property of the review but its status and comment |
| `StoreCommander.PollAllLast` | lib/shopwareStoreCommander.js:160-166 | a finished review holds the status and comment of the last list fetched |
| `StoreCommander.PolledShape` | lib/shopwareStoreCommander.js:161-162 | a poll sets only the status and the comment |
| `StoreCommander.FoundMatches` | lib/shopwareStoreCommander.js:198 | what `find` returns has a matching name |
| `StoreCommander.FindInAppended` | lib/shopwareStoreCommander.js:198 | an item found in the front of a longer list is still the one found |
| `StoreCommander.FindSingle` | lib/shopwareStoreCommander.js:198 | a one-item list whose item matches finds it |
| `StoreCommander.EnablingIsIdempotent` | lib/shopwareStoreCommander.js:196-229 | once the addon is pushed, enabling again does nothing, also after an answer echoing the addons is merged |
| `StoreCommander.FiledUnder` | lib/shopwareStoreCommander.js:42 | a listed plugin is filed under the string form of its name |
| `StoreCommander.FiledNames` | lib/shopwareStoreCommander.js:40-43 | every listed plugin is filed under its name and nothing else is |
| `StoreCommander.LaterWins` | lib/shopwareStoreCommander.js:42 | a plugin that no later one shares a name with is the one filed under it |
| `StoreCommander.KeyedByNameFiles` | lib/shopwareStoreCommander.js:40-43 | the listing files exactly its names, each under the last plugin carrying it |
| `StoreCommander.FiledUnderOwnName` | lib/shopwareStoreCommander.js:40-43 | every plugin of the listing is filed under the string form of its own `name` |
| `StoreCommander.NotFoundMisreported` | lib/shopwareStoreCommander.js:64 | as written, the newer commander answers a missing plugin with a TypeError and never with `PluginNotFound`, where the older one reports the name |
| `CompatibilityCommand.EntryVersion` | lib/commands/compatibility.js:60-74 | an entry's version is readable exactly when it is an object whose `name` is a version, and then it is that version; otherwise a TypeError |
| `CompatibilityCommand.IsSelectable` | lib/commands/compatibility.js:65 | the `selectable` test throws exactly on null and holds exactly for a selectable entry |
| `CompatibilityCommand.InRange` | lib/commands/compatibility.js:73-75 | the lowering filter keeps exactly the selectable entries with min ≤ version < current minimum, and throws exactly on null or a selectable entry without a version |
| `CompatibilityCommand.AtLeast` | lib/commands/compatibility.js:81 | the raising filter keeps exactly the selectable entries at or above the minimum, and throws exactly on null or a selectable entry without a version |
| `CompatibilityCommand.Matches` | lib/commands/compatibility.js:92 | the fallback test holds exactly for a selectable entry of the minimum version |
| `CompatibilityCommand.Kept` | lib/commands/compatibility.js:64-82 | `filter` succeeds exactly when the test succeeds on every item, and keeps exactly the items it accepts; a failure is the failure of some item |
| `CompatibilityCommand.KeptAppend` | lib/commands/compatibility.js:72-76 | filtering a concatenation is concatenating the filtered parts |
| `CompatibilityCommand.KeptHeadIsFirst` | lib/commands/compatibility.js:64-66 | the head of a filtered list is the first accepted item |
| `CompatibilityCommand.First` | lib/commands/compatibility.js:92 | `find` gives undefined exactly when the test rejects every item, a found item is the first accepted, and a failure is some item's |
| `CompatibilityCommand.Entries` | lib/commands/compatibility.js:58 | the binary's compatible versions are readable exactly when they are an array |
| `CompatibilityCommand.SortedByName` | lib/commands/compatibility.js:58-61 | sorting leaves short lists alone, otherwise succeeds exactly when every name is a version, and gives the same entries ascending by version |
| `CompatibilityCommand.CatalogItems` | lib/commands/compatibility.js:54-64 | the catalog of versions is usable exactly when it is an array |
| `CompatibilityCommand.CurrentMinimum` | lib/commands/compatibility.js:57-67 | with no compatible versions the current minimum is the first selectable catalog entry |
| `CompatibilityCommand.CurrentMinimumIsLeast` | lib/commands/compatibility.js:58-62 | the current minimum is at most every compatible version of the binary |
| `CompatibilityCommand.Lowered` | lib/commands/compatibility.js:72-76 | lowering keeps the existing entries in front and appends exactly the selectable catalog entries between the new minimum and the current one |
| `CompatibilityCommand.Raised` | lib/commands/compatibility.js:80-82 | raising keeps exactly the selectable entries at or above the new minimum |
| `CompatibilityCommand.Fallback` | lib/commands/compatibility.js:92 | the fallback is undefined exactly when no selectable catalog entry has the minimum version, and otherwise is such an entry |
| `CompatibilityCommand.WithFallback` | lib/commands/compatibility.js:89-94 | a non-empty list is kept, and an empty one is replaced by a one-entry list |
| `CompatibilityCommand.Assignment` | lib/commands/compatibility.js:69-86 | the list assigned before the emptiness test: unchanged exactly when the minimum equals the current minimum; any assignment needs both to be versions; failures are TypeErrors |
| `CompatibilityCommand.Adjusted` | lib/commands/compatibility.js:69-94 | the final list: unchanged exactly when the minimum equals the current minimum; any adjustment needs both to be versions; failures are TypeErrors |
| `CompatibilityCommand.FallbackThrowsOnlyOnEmpty` | lib/commands/compatibility.js:89-93 | the fallback can throw only when the assigned list is empty, since a non-empty list skips the `find` |
| `CompatibilityCommand.EmptiedListStays` | lib/commands/compatibility.js:80-93 | when the assignment succeeds and the fallback `find` then throws, the turn fails with the binary already holding the empty list and nothing sent |
| `CompatibilityCommand.ExistingNotBelow` | lib/commands/compatibility.js:69-76 | when lowering, the existing entries are not below the new minimum |
| `CompatibilityCommand.FallbackNotBelow` | lib/commands/compatibility.js:89-94 | the fallback list holds nothing below the new minimum |
| `CompatibilityCommand.AdjustedNotBelow` | lib/commands/compatibility.js:69-94 | any adjusted list holds no selectable version below the new minimum |
| `CompatibilityCommand.LoweringKeepsEntries` | lib/commands/compatibility.js:72-76 | lowering keeps the old entries in front and adds only selectable catalog entries from the new minimum up to the current one |
| `CompatibilityCommand.RaisingKeepsEntries` | lib/commands/compatibility.js:80-94 | raising keeps exactly the entries at or above the new minimum, or falls back to the single entry of that version |
| `CompatibilityCommand.FallbackNullMeansNoEntry` | lib/commands/compatibility.js:91-93 | a fallback of undefined means the catalog has no selectable entry of the minimum version |
| `CompatibilityCommand.LoweredNotNull` | lib/commands/compatibility.js:72-76 | a lowered list is never the lone undefined entry |
| `CompatibilityCommand.NoMatchNoEntry` | lib/commands/compatibility.js:92 | `find` giving undefined means no entry matches |
| `CompatibilityCommand.SavesOnlyPrepend` | lib/commands/compatibility.js:55-106 | one save followed by a run of saves of lists not below the minimum is again such a run: the trace only grows, by PUTs each after one half-second pause |
| `CompatibilityCommand.Saved` | lib/commands/compatibility.js:96-103 | a save puts the binary with the new list, and a failed save is logged and swallowed |
| `CompatibilityCommand.OutcomeSavesOnce` | lib/commands/compatibility.js:56-105 | a binary's turn fails only with a TypeError; a turn that saves adds exactly one half-second pause and one PUT whose list has no entry below the minimum, and any other turn leaves the trace as it was |
| `CompatibilityCommand.UpdateBinary` | lib/commands/compatibility.js:56-105 | one binary's list and the remote end as `Outcome` says, including the empty list a throwing fallback leaves behind |
| `CompatibilityCommand.UpdateCompatibility` | lib/commands/compatibility.js:53-106 | the result, the new properties of every binary and the new trace are exactly what `UpdateAll` gives from the binaries' old properties and the old trace: the binaries are handled in order, and the first list that cannot be read or adjusted stops the loop with its TypeError and leaves the binaries after it untouched |
| `CompatibilityCommand.UpdateAllSavesOnly` | lib/commands/compatibility.js:55-106 | the loop fails only with a TypeError and sends only saves, at most one per binary, each after its half-second pause and with a list no entry of which is below the minimum |
| `CompatibilityCommand.InTurn` | lib/commands/compatibility.js:55 | the loop gives one set of properties per item, in the items' order |
| `CompatibilityCommand.InTurnStops` | lib/commands/compatibility.js:55 | when an item's step fails, the loop from that item ends with that error and the trace the step left; the item has its new properties and every later item keeps its own |
| `CompatibilityCommand.InTurnGoesOn` | lib/commands/compatibility.js:55 | when an item's step succeeds, the loop from that item has the result and the trace of the loop from the next item, started on the trace the step left; the item has its new properties and each later item has the properties that loop gives it |
| `CompatibilityCommand.Visit` | lib/commands/compatibility.js:55-106 | for any step that agrees with `Outcome`, the callback on the binary at an index gives that step's result, new properties and trace, and the binaries after it keep their properties |
| `CompatibilityCommand.UpdateFrom` | lib/commands/compatibility.js:55-106 | handling the binaries from one index on gives the result, the new properties of each of those binaries and the trace that `InTurn` gives from their properties and the trace before |
| `ListCommand.DefinedNames` | lib/commands/list.js:26 | mapping the entries to their names succeeds exactly when no entry is null, and the names are then those of the entries that have one, in order (`Defined`) |
| `ListCommand.Defined` | lib/commands/list.js:26 | a name is kept exactly when some entry defines it, and no more names are kept than there are entries |
| `ListCommand.MinimumName` | lib/commands/list.js:27 | no names give undefined, one name is returned as it is, and two or more need every name to be a version, a failure being a TypeError |
| `ListCommand.MinimumNameIsLeast` | lib/commands/list.js:25-27 | the name returned is one of the names and no name has a smaller version |
| `ListCommand.ShopwareCompatibility` | lib/commands/list.js:20-23 | a plugin without a truthy latest binary has no compatibility |
| `ListCommand.CompatibilityIsLowestVersion` | lib/commands/list.js:20-28 | the compatibility is the lowest version the latest binary lists, or null when it lists none |
| `ListCommand.CompatibilityOfNames` | lib/commands/list.js:21-27 | with readable names, the compatibility is null for an empty list and the minimum of the names otherwise |
| `ListCommand.CompatibilityNames` | lib/commands/list.js:26 | the names of entries carrying version texts are those texts, in order |
| `ListCommand.LocaleCompareAntisymmetric` | lib/commands/list.js:31-43 | with an antisymmetric collation, `localeCompare` of two strings has the opposite sign when they are swapped |
| `ListCommand.SemverCompareAntisymmetric` | lib/commands/list.js:36-55 | swapping the arguments of `semver.compare` negates its result |
| `ListCommand.ComparatorAntisymmetric` | lib/commands/list.js:30-57 | every comparator gives the opposite sign when its plugins are swapped |
| `ListCommand.VersionTreatsMissingBinaryAsZero` | lib/commands/list.js:32-37 | a plugin without a latest binary compares as version 0.0.0 |
| `ListCommand.CompareWithZero` | lib/commands/list.js:33-36 | 0.0.0 precedes every other version and equals itself |
| `ListCommand.CompatibilityMissingSortsLast` | lib/commands/list.js:51-56 | a plugin without a compatibility sorts after every plugin whose compatibility is below 10000.0.0 |
| `ListCommand.CompareWithDefaultCompatibility` | lib/commands/list.js:52-55 | the default 10000.0.0 compares after every lower compatibility |
| `ListCommand.ReleaseDateEpochDefault` | lib/commands/list.js:45-50 | a plugin without a latest binary is dated at the epoch, so it sorts after exactly the plugins dated later; swapping negates the comparison |
| `ListCommand.SortOrder` | lib/commands/list.js:60-80 | the option defaults to the first key; a given name is accepted exactly when it names a comparator, selecting that one; anything else is rejected naming it |
| `ListCommand.InheritedNamePassesValidation` | lib/commands/list.js:77 | `toString` and `constructor` pass the check as written but are rejected by the corrected one, which accepts every real key |
| `ListCommand.IsActive` | lib/commands/list.js:93 | reading the activation status fails exactly when it is missing or null |
| `ListCommand.Listed` | lib/commands/list.js:90-94 | all plugins are listed with `--show-all`, otherwise the active ones |
| `ListCommand.ActiveKeepsExactlyActive` | lib/commands/list.js:93 | the filter succeeds exactly when every status can be read, and keeps exactly the active plugins |
| `ListCommand.ActiveKeepsOrder` | lib/commands/list.js:93 | filtering keeps the plugins' order |
| `ListCommand.RowOf` | lib/commands/list.js:105-111 | a row can be built exactly when the status, review status and compatibility can be read; it shows the check mark exactly for an active plugin, 0.0.0 and none without a latest binary, and none for a missing compatibility |
| `ListCommand.Rows` | lib/commands/list.js:105-112 | one row per plugin, in order, each the plugin's `RowOf`; a failure is some plugin's |
| `UploadCommand.WithChangelogs` | lib/commands/upload.js:71-75 | storing the parsed changelog fails exactly on a missing or null info; it keeps the name and current version, sets `changelogs` on an object info and leaves its other keys alone |
| `UploadCommand.ParsedChangelogIsUsed` | lib/commands/upload.js:74-108 | after the parsed changelog is stored, `getChangelog(lang)` reads its entry for the current version, and a missing entry or version throws |
| `UploadCommand.LocaleLanguage` | lib/commands/upload.js:106 | the language is the part of the locale before the first `_`, or the whole name |
| `UploadCommand.ChangelogLanguage` | lib/commands/upload.js:106 | reading a changelog's language succeeds exactly when it has a locale name, giving its language; otherwise a TypeError |
| `UploadCommand.Relabelled` | lib/commands/upload.js:107-112 | a changelog takes the text of its language when the plugin info has one, and is left as it was when the lookup throws |
| `UploadCommand.RelabelAll` | lib/commands/upload.js:105-113 | relabelling succeeds exactly when every changelog has a locale name, relabelling each in place; otherwise a TypeError |
| `UploadCommand.Compatible` | lib/commands/upload.js:116 | the compatibility filter keeps exactly the selectable entries whose name is a string the plugin info accepts |
| `UploadCommand.CompatibleVersionsMeaning` | lib/commands/upload.js:115-117 | an entry is kept exactly when it is selectable and its version lies within the bounds and is not blacklisted |
| `UploadCommand.CompatibleVersionsInOrder` | lib/commands/upload.js:115-117 | the filter keeps the catalog order |
| `UploadCommand.Prepared` | lib/commands/upload.js:103-117 | a prepared binary carries the current version of the plugin info and keeps every other property but changelogs and compatibility |
| `UploadCommand.PreparedListsAndTexts` | lib/commands/upload.js:105-117 | a prepared binary carries the relabelled changelogs and the compatible versions of the catalog |
| `UploadCommand.PreparedNeedsChangelogs` | lib/commands/upload.js:105 | a binary without a changelog array cannot be prepared: a TypeError |
| `UploadCommand.VersionOf` | lib/commands/upload.js:88 | a binary's version reads exactly when it is a version string; otherwise a TypeError |
| `UploadCommand.Conflict` | lib/commands/upload.js:87-89 | the conflict found is the first binary of an equal version, none exactly when no binary has it, always a result when all versions read, and only TypeErrors |
| `UploadCommand.Texts` | lib/commands/upload.js:88 | the text forms of versions, in order |
| `UploadCommand.ConflictIsFirstEqual` | lib/commands/upload.js:87-89 | with readable versions the conflict is the first binary of the same version, or none |
| `UploadCommand.ConflictIsSameVersion` | lib/commands/upload.js:87-89 | for canonical version texts the conflict is the first binary of the same version, or none |
| `UploadCommand.BinaryVersions` | lib/commands/upload.js:88 | the versions of the plugin's binaries, in order |
| `UploadCommand.TransferChoosesBinary` | lib/commands/upload.js:86-100 | with canonical versions: a version the plugin has no binary of is posted to the plugin's binaries as a new binary; a version it has fails with `VersionExists` naming the version and the plugin without `--force`, and with it replaces the file of the first binary of that version |
| `UploadCommand.Verdict` | lib/commands/upload.js:145-151 | the release succeeds exactly when the last review is approved; a missing review or status throws a TypeError, and any other status fails naming the plugin |
| `UploadCommand.Transfer` | lib/commands/upload.js:86-100 | the request is the one `TransferRequest` chooses and is sent once; a plugin whose `binaries` is not an array, an unreadable version and a conflict without `--force` fail with nothing sent and nothing changed; the transfer succeeds exactly when the answer is a success with a body, and then the plugin holds the answered binaries, its latest binary being their last, with its reviews unchanged |
| `UploadCommand.Finish` | lib/commands/upload.js:103-130 | the result, the latest binary afterwards and the trace are those of `SavedAsPrepared`'s save (`Saving`): no latest binary is a TypeError, a binary that cannot be prepared is its error with nothing sent and nothing changed, a failed or null answer to the put is an error, and a success writes the answer back |
| `UploadCommand.SavedAsPrepared` | lib/commands/upload.js:103-130 | a save that succeeds sent exactly one put, to the latest binary, whose body is the prepared binary; the binary then holds the current version of the plugin info and the changelogs, compatible versions and status of the answer, and every other property as prepared |
| `UploadCommand.Publish` | lib/commands/upload.js:86-130 | the result and the trace are those of `PublishedInTwoRequests`' publishing (`Publishing`): the transfer, then the save of the last answered binary; the latest binary ends as saved, and the plugin keeps its id, name and reviews |
| `UploadCommand.PublishedInTwoRequests` | lib/commands/upload.js:86-130 | publishing succeeds exactly when the transfer request can be made, its answer is a success with a body, and the last binary of that body is saved; a success sent exactly two requests, the transfer and then a put of the prepared binary |
| `UploadCommand.Load` | lib/commands/upload.js:51-75 | a missing file, an unreadable `plugin.json` and a missing one fail with their errors; an unreadable CHANGELOG.md fails with a TypeError and a scan of it that throws fails with the scan's error; otherwise the info is the read one with the changelogs stored, and these are the regrouping (`IsRegrouping`, HTML compiled) of the scanned CHANGELOG.md, which `ChangelogParser.RegroupingUnique` shows is the only one |
| `UploadCommand.Locate` | lib/commands/upload.js:77-84 | the first request is for the producers; the outcome and trace are the plugin found (`FindLoaded`) and then settled (`Settle`); a located plugin has the properties, binaries and statics the delivery starts from |
| `UploadCommand.FindLoaded` | lib/commands/upload.js:77-81 | the account is loaded; its failure is the result; a name it does not list is `PluginNotFound` after the account's requests; otherwise the cached plugin of the name is loaded with its binaries and reviews as `LoadAll` says, its failure being the result, and its binary objects hold the loaded array |
| `UploadCommand.Settle` | lib/commands/upload.js:82-84 | the found plugin gets the partial-encryption addon as `EnableLoaded` does: a failed plan is its error, no addon hands the plugin on as found, and an addon is pushed and the whole serialised plugin put once, whose failure or null answer is an error and whose success, keeping the plugin's name, hands the plugin on with the merged properties |
| `UploadCommand.EnableLoaded` | lib/commands/upload.js:82-84 | on the cached plugin of a name: a failed plan is the result with nothing sent; no addon returns the plugin unchanged; an addon is pushed, the serialised plugin put once, a failed PUT or a null answer is a failure, and a success returns the cached plugin of its merged name with the merged properties, the plugin itself when the name is kept; the binaries are untouched |
| `UploadCommand.Review` | lib/commands/upload.js:135-151 | the result and the trace are those of `ReleasedWhenApproved`'s review stage (`Reviewing`) for the plugin's id, name and reviews; a released review is the last of the plugin's reviews |
| `UploadCommand.ReleasedWhenApproved` | lib/commands/upload.js:135-151 | with `--no-release` nothing is sent and the stage is uploaded; otherwise the review request is sent first, and the release succeeds exactly when the newer commander's request succeeds with a review, the plugin's reviews are an array, the polling ends and the polled review is approved; a released review is approved and finished |
| `UploadCommand.Release` | lib/commands/upload.js:77-151 | the plugin is located as `Locate` says, and a failure there is the result; otherwise the result and the trace are the delivery (`DeliveredWhenPublishedAndApproved`) from the located plugin; uploaded exactly with `--no-release`, and a release holds an approved finished review |
| `UploadCommand.DeliveredWhenPublishedAndApproved` | lib/commands/upload.js:86-151 | a delivery succeeds exactly when publishing succeeds and then the review stage does; it stops uploaded exactly with `--no-release`, and a release carries an approved finished review |
| `UploadCommand.Upload` | lib/commands/upload.js:51-151 | the archive is read as `Load` says, and a failure there is the result with nothing sent; otherwise the plugin of the info's name is located and delivered as `Release` says; uploaded exactly with `--no-release`, and a release holds an approved finished review |
| `EnvLoader.Program.constructor` | lib/env_loader.js:18 | the program object holds the options it was given |
| `Archive.FirstFolder` | lib/plugin.js:41-46 | the folder found is an entry of the archive |
| `Archive.SearchFrom` | lib/pluginJsonReader.js:22 | a capture found from a position on is non-empty and has no `/` |
| `Archive.MatchWith` | lib/pluginJsonReader.js:22 | a capture of `[^/]+` is non-empty and has no `/` |

## Left out

- Console output, the spinner, the event emitters' listeners and growl notifications are not modelled. The login, login-success and token-renewal events of the HTTP clients are recorded in the remote's event log; messages that only reach the console are dropped.
- StoreCommander.Commander: the commander's own events are not recorded, and its methods leave the event log as it was. These are the `info` messages at lib/shopwareStoreCommander.js:79, 95, 113, 131, 179, 208 and 222, and the `waitingReview` event at line 150.
- Command-line parsing and the argument checks in front of each command are not modelled, and neither is the `process.exit` that follows a failed check. This covers `commander` options, "No username given!" and the printing of the list table.
- The file system, JSZip, superagent, axios and `url.resolve` are not modelled. An archive is its list of entries; the remote is a script of replies; a request is recorded by verb, path, headers, data and attached file. A GET has no separate query: its parameters travel in the data field.
- `JSON.parse`, the Markdown-to-HTML renderers (`marked`, markdown-it), the password prompt, `localeCompare` collation and `new Date(...)` parsing are parameters of the model. A date that parses to `NaN` is whatever the parameter returns.
- `path.join` normalisation in `lib/plugin.js` is not modelled: root folder names end in `/` and are joined by concatenation.
- `Plugin.isCompatibleWith` (`lib/plugin.js:74-76`) is not modelled, because it delegates to node-semver's range matching (`semver.satisfies`). `lib/composerSemver.js` runs a PHP process and is not modelled either.
- `lib/commands/changelog.js`, `description.js` and `dumpPlugin.js` are not part of this model. Neither are `lib/publishPluginReleaseEvent.js` (called at `lib/commands/upload.js:160`), `lib/util.js`, the password prompt files, `lib/logger.js`, `lib/consoleLogger.js`, `lib/client/spinnerInterceptors.js`, and the client wiring in `lib/client/shopwareStoreClient.js`.
- Semver.Compare: only canonical numeric `major.minor.patch` versions are versions. Pre-release tags, build metadata, a leading `v` and node-semver's loose parsing are not modelled, so such strings are rejected with a TypeError. node-semver also trims surrounding whitespace, and rejects a component above `Number.MAX_SAFE_INTEGER` and a text longer than 256 characters; the model does none of these, so a padded version is rejected, and an over-long or huge one is accepted.
- StoreCommander.FindByName: the older file's `==` is modelled for strings, numbers and booleans. An object name compared by its string form is not modelled.
- StoreCommander.Commander.FindPlugin: a plugin that is not listed ends the process in the older file (`process.exit(1)`). The model returns `PluginNotFound` with nothing more sent. The newer file throws a TypeError first; see Findings.
- StoreCommander.Commander.LoadExtraPluginFields: the fetches run one after the other. `Promise.all` in the source starts them together, so the order in which replies are consumed is not modelled. Nor is what happens after a fetch fails: `Promise.all` rejects at once, but the other fetches still finish and write their fields and their `scsLoadedExtraFields` entries into the plugin. The model stops at the first failure and leaves the later fields as they were.
- StoreCommander.Commander.RequestBinaryReview: a `null` review body is pushed onto the reviews in the source, and the newer file's first poll then throws a TypeError. The model pushes nothing and fails the same way, in both files.
- StoreCommander.Commander.StoreBinaries: a body that is neither an array nor null gives no binary objects and no latest binary. The source stores it and reads its `length`.
- StoreCommander.Commander.EnablePartialIonCubeEncryption: the older file throws a missing statics addon synchronously rather than rejecting. The model does not distinguish the two.
- Common.Prop: reads only a value's own properties. Members an object inherits, such as `constructor` or `toString`, read as `undefined`, where JavaScript finds the inherited function.
- ChangelogParser.Step, ChangelogMarkdownParser.Step, LegacyChangelogParser.ReadZip: the duplicate-locale test reads a plain object (`lib/pluginChangelogParser.js:55`, `lib/changelogMarkdownParser.js:19`, `lib/plugin_changelog_parser.js:52`). So a locale heading named after an inherited member, such as `### constructor`, `### toString` or `### __proto__`, finds that member and throws "declared twice" the first time it appears. The model's map lookup accepts such a heading as a new locale.
- Common.Json: numbers are integers (`JNum(int)`). Fractional and exponent numbers in a JSON body or `plugin.json` are not modelled.
- Archive.ReadText: an archive with several entries of the same name gives the first one's text. JSZip keeps the last entry of a name, so such an archive is read differently. The same holds for Archive.FileTextFrom.
- StoreCommander.Serialised: a listed plugin's own `latestBinary` property is sent as listed until the commander assigns a binary object. An array item that is not an object is serialised as `{}`, because a binary or review object holds only an object's properties.
- ChangelogWrapper: `toHtml` hands the text to `marked` and is not modelled. The wrapper's text is a value, so `toMarkdown` is the datatype's field.
- StoreObjects.UpdatePluginData: the index keys of an array or string body are not merged. Only an object body's own keys are.
- UploadCommand.Prepared: fails as a whole. In the source, the latest binary takes its new version, and some changelog texts, before a later step throws; those partial changes are not modelled.
- UploadCommand.WithChangelogs: a plugin info that is an array or another non-object value keeps no `changelogs` property.
- UploadCommand.Locate: a put whose answer renames the plugin hands on the cached plugin of the new name. The model leaves that plugin's state open, and only the same name gives the merged properties.
- UploadCommand.Release: `--no-release` ends the process with `process.exit(0)` in the source. The model returns the `Uploaded` stage.
- CompatibilityCommand.SortedByName: when the comparator throws part-way, the model fails without a list. The source leaves the array partially sorted in place.
- CompatibilityCommand.Entries: a compatible-versions value that is not an array is a TypeError. The source would still read the `length` of a string or an object.
- UploadCommand.Upload: as written, `spinner(commander.logEmitter)` at `lib/commands/upload.js:49` passes `undefined`, because the newer commander never sets `logEmitter` (`lib/shopwareStoreCommander.js:13-18`), and `lib/cliStatusIndicator.js` calls `on` of it. So the command throws a TypeError before the file check and before any request. The model starts after that call, as if the emitter had been the commander's `logger`.
- CompatibilityCommand.UpdateCompatibility: as written, `spinner(commander.logEmitter)` at `lib/commands/compatibility.js:45` passes `undefined` in the same way, so the command throws a TypeError before its first request. The model starts after that call.
- ListCommand.Rows: as written, `spinner(commander.client.emitter)` at `lib/commands/list.js:85` passes `undefined`, because the superagent client of the older commander has no `emitter`, and `lib/cli_status_indicator.js` calls `on` of it. So the command throws a TypeError before the account is loaded. The model starts after that call.
- CompatibilityCommand.UpdateCompatibility: `lib/util.js` exports only `showGrowlIfEnabled`, so as written `util.sequentiallyAwaitEach` at `lib/commands/compatibility.js:55` is undefined and the call throws a TypeError before any binary is handled. The model gives the helper its evident meaning: the callback runs on each binary in turn, each awaited before the next, and the first rejection rejects the whole.
- CompatibilityCommand.UpdateCompatibility: the plugin lookup and the read of `commander.statics.softwareVersions` are not composed with it. The catalog is a parameter, and the binaries are those of the plugin passed.
- ListCommand.ComparatorAntisymmetric: the engine's `Array.prototype.sort` is not modelled. The comparators and their antisymmetry are, and so are the filter and the rows.

## Findings

| source | as written | input that shows it | evidently intended | confidence | as-written member | corrected member |
|---|---|---|---|---|---|---|
| lib/shopwareStoreCommander.js:260 | `plugin.scsLoadedExtraFields.indexOf(key)` is read for every truthy key, but the list exists only after `loadExtraPluginFields` | `savePlugin` of a plugin found without extra fields, answered with a body carrying its truthy `id` | a missing list reads as empty, so every truthy field that was not loaded is overwritten | not executed | `StoreObjects.AsWrittenThrowsWithoutList` | `StoreObjects.UpdatePluginData` |
| lib/plugin_json_reader.js:35 | `new PluginInfo(json)` passes the parsed document as the only argument, which `lib/plugin_info.js:12-15` stores as the name | an archive holding `Core/Foo/plugin.json` with `{"currentVersion": "1.0.0"}` | the document becomes the info, so `getCurrentVersion()` gives `1.0.0` | not executed | `LegacyPluginJsonReader.JsonLandsInNameSlot` | `PluginJsonReader.ReadOfMatch` |
| lib/plugin_json_reader.js:27-35 | the `null` returned when nothing matches is handed to the next `then`, which parses it and still builds a `PluginInfo` | an archive with no `plugin.json` entry | the reader resolves to `null`, so the upload stops with "missing a plugin.json file" | not executed | `LegacyPluginJsonReader.NoMatchStillBuildsInfo` | `PluginJsonReader.ReadZip` |
| lib/shopwareStoreCommander.js:64 | `this.logger('error', ...)` calls the commander's event emitter as a function | `findPlugin` of a name the account does not list, with the default logger | the missing plugin is reported and the process exits, as the older file does at `lib/shopware_store_commander.js:57-58` | not executed | `StoreCommander.NotFoundMisreported` | `StoreCommander.Commander.FindPlugin` |
| lib/commands/list.js:77 | `!pluginComparators[Program.sort]` also finds the members that every object inherits | `--sort toString` | only the six comparator keys are accepted | not executed | `ListCommand.InheritedNamePassesValidation` | `ListCommand.SortOrder` |
