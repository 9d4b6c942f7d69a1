/** `Changelog` (lib/changelog.js): a wrapper around changelog markdown that
    can be narrowed to one version and locale. The wrapped value is never
    changed after construction, so a changelog is a value here. */
module ChangelogWrapper {
  import opened Common
  import Text
  import CP = ChangelogParser
  import CMP = ChangelogMarkdownParser

  /** What `this.markdown` holds: the document text given to the
      constructor, the `Markdown` section a narrowing picked (by its text),
      or `undefined` when the narrowing found no such locale. */
  datatype Content = Document(text: string) | Section(section: string) | Undefined

  datatype Changelog = Changelog(markdown: Content)

  /** `toMarkdown()`. */
  function ToMarkdown(c: Changelog): Content {
    c.markdown
  }

  /** `filterBy({ locale, version })`: parse the wrapped document and wrap
      `parsed[version][locale]`. Only a document string can be split; a
      section object or `undefined` has no `split` and raises a TypeError,
      and so does a version absent from the parse. */
  function FilterBy(c: Changelog, locale: string, version: string): Result<Changelog> {
    if !c.markdown.Document? then Fail(TypeError("markdown.split is not a function"))
    else
      var parsed :- CMP.Parse(c.markdown.text);
      if version !in parsed then Fail(TypeError("cannot read the locale of an undefined version"))
      else if locale !in parsed[version] then Ok(Changelog(Undefined))
      else Ok(Changelog(Section(parsed[version][locale])))
  }

  /** A document without a version heading cannot be narrowed to any
      version: its scan either throws or declares no version. */
  lemma FilterByNeedsVersionHeading(text: string, locale: string, version: string)
    requires forall i :: 0 <= i < |Text.Split(text, '\n')| ==> !CMP.IsVersionHeading(Text.Split(text, '\n')[i])
    ensures FilterBy(Changelog(Document(text)), locale, version).Fail?
  {
    ScanDeclaresNoVersion(CP.Init, Text.Split(text, '\n'));
  }

  /** From a state with no version, lines without a version heading throw
      or leave the versions empty. */
  lemma {:induction false} ScanDeclaresNoVersion(st: CP.ScanState, lines: seq<string>)
    requires CP.Wf(st) && st.versions == map[] && st.currentVersion.None?
    requires forall i :: 0 <= i < |lines| ==> !CMP.IsVersionHeading(lines[i])
    ensures CMP.Scan(st, lines).Ok? ==> CMP.Scan(st, lines).value.versions == map[]
    decreases |lines|
  {
    if lines != [] {
      var step := CMP.Step(st, lines[0]);
      if step.Ok? {
        assert step.value == st;
        assert forall i :: 0 <= i < |lines[1..]| ==> lines[1..][i] == lines[i + 1];
        ScanDeclaresNoVersion(step.value, lines[1..]);
      }
    }
  }

  /** A narrowed changelog cannot be narrowed again: its value is not a
      document string. */
  lemma FilterByTwiceFails(c: Changelog, locale: string, version: string, locale': string, version': string)
    requires FilterBy(c, locale, version).Ok?
    ensures var r := FilterBy(FilterBy(c, locale, version).value, locale', version'); r.Fail? && r.error.TypeError?
  {
  }

  /** A document made of one version heading, one locale heading and
      content lines narrows to exactly those lines, each preceded by a line
      break. */
  lemma FilterByOneSection(hv: string, hl: string, body: seq<string>)
    requires CMP.IsVersionHeading(hv) && CMP.IsLocaleHeading(hl) && CMP.VersionName(hv) != "" && CMP.LocaleName(hl) != ""
    requires forall i :: 0 <= i < |body| ==> CMP.IsContent(body[i]) && '\n' !in body[i]
    requires '\n' !in hv && '\n' !in hl
    ensures FilterBy(Changelog(Document(Text.Join([hv, hl] + body, '\n'))), CMP.LocaleName(hl), CMP.VersionName(hv))
      == Ok(Changelog(Section(CP.Prefixed(body))))
  {
    ParseOneSection(hv, hl, body);
  }

  /** The parse of such a document holds the one section. */
  lemma ParseOneSection(hv: string, hl: string, body: seq<string>)
    requires CMP.IsVersionHeading(hv) && CMP.IsLocaleHeading(hl) && CMP.VersionName(hv) != "" && CMP.LocaleName(hl) != ""
    requires forall i :: 0 <= i < |body| ==> CMP.IsContent(body[i]) && '\n' !in body[i]
    requires '\n' !in hv && '\n' !in hl
    ensures CMP.Parse(Text.Join([hv, hl] + body, '\n')) == Ok(map[CMP.VersionName(hv) := map[CMP.LocaleName(hl) := CP.Prefixed(body)]])
  {
    var lines := [hv, hl] + body;
    LinesWithoutBreaks(hv, hl, body);
    Text.SplitJoin(lines, '\n');
    CMP.ScanOneSection(hv, hl, body);
  }

  /** Headings and content lines without line breaks make a document
      whose lines have none. */
  lemma LinesWithoutBreaks(hv: string, hl: string, body: seq<string>)
    requires forall i :: 0 <= i < |body| ==> '\n' !in body[i]
    requires '\n' !in hv && '\n' !in hl
    ensures forall i :: 0 <= i < |[hv, hl] + body| ==> '\n' !in ([hv, hl] + body)[i]
  {
  }
}
