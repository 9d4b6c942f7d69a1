/** `parseChangelogMarkdown` (lib/changelogMarkdownParser.js): the newest
    generation of the changelog scan. Lines are not trimmed; a heading may be
    indented by up to three spaces; each section is a `Markdown` object that
    grows by `append`; a repeated locale is always an error; the result is
    keyed version -> locale and nothing is trimmed or dropped. */
module ChangelogMarkdownParser {
  import opened Common
  import Text
  import CP = ChangelogParser
  import M = Markdown

  // ----- line classification (on raw lines) -----------------------------------

  predicate Spaces(s: string) {
    forall i :: 0 <= i < |s| ==> s[i] == ' '
  }

  /** `line.search(/^ {0,3}##[^#]+/) !== -1`. */
  predicate IsVersionHeading(line: string) {
    exists j :: 0 <= j <= 3 && j <= |line| && Spaces(line[..j]) && CP.IsVersionHeading(line[j..])
  }

  /** `line.search(/^ {0,3}###[^#]+/) !== -1`. */
  predicate IsLocaleHeading(line: string) {
    exists j :: 0 <= j <= 3 && j <= |line| && Spaces(line[..j]) && CP.IsLocaleHeading(line[j..])
  }

  predicate IsContent(line: string) {
    !IsVersionHeading(line) && !IsLocaleHeading(line)
  }

  /** `line.trim().substr(2).trim()`. */
  function VersionName(line: string): string {
    Text.Trim(Text.Substr(Text.Trim(line), 2))
  }

  /** `line.trim().substr(3).trim()`. */
  function LocaleName(line: string): string {
    Text.Trim(Text.Substr(Text.Trim(line), 3))
  }

  /** The number of spaces a line starts with. */
  function LeadingSpaces(s: string): (k: nat)
    ensures k <= |s| && Spaces(s[..k]) && (k < |s| ==> s[k] != ' ')
  {
    if s != [] && s[0] == ' ' then
      var k := 1 + LeadingSpaces(s[1..]);
      assert forall i :: 1 <= i < k ==> s[..k][i] == s[1..][..k - 1][i - 1];
      k
    else 0
  }

  /** A prefix of spaces followed by a `#` is exactly the line's indentation. */
  lemma IndentIsLeadingSpaces(line: string, j: nat)
    requires j < |line| && Spaces(line[..j]) && line[j] == '#'
    ensures j == LeadingSpaces(line)
  {
    var k := LeadingSpaces(line);
    assert forall m :: 0 <= m < j ==> line[m] == line[..j][m];
    assert forall m :: 0 <= m < k ==> line[m] == line[..k][m];
  }

  /** A heading is recognised with at most three spaces of indentation, and
      a line indented by four or more is content. */
  lemma IndentedHeadings(line: string)
    ensures var k := LeadingSpaces(line);
      && (IsVersionHeading(line) <==> k <= 3 && CP.IsVersionHeading(line[k..]))
      && (IsLocaleHeading(line) <==> k <= 3 && CP.IsLocaleHeading(line[k..]))
      && (k >= 4 ==> IsContent(line))
  {
    var k := LeadingSpaces(line);
    if IsVersionHeading(line) {
      var j :| 0 <= j <= 3 && j <= |line| && Spaces(line[..j]) && CP.IsVersionHeading(line[j..]);
      assert line[j..][0] == line[j];
      IndentIsLeadingSpaces(line, j);
    }
    if IsLocaleHeading(line) {
      var j :| 0 <= j <= 3 && j <= |line| && Spaces(line[..j]) && CP.IsLocaleHeading(line[j..]);
      assert line[j..][0] == line[j];
      IndentIsLeadingSpaces(line, j);
    }
  }

  /** A line is never both kinds of heading. */
  lemma LocaleIsNotVersion(line: string)
    requires IsLocaleHeading(line)
    ensures !IsVersionHeading(line)
  {
    IndentedHeadings(line);
    CP.HeadingKinds(line[LeadingSpaces(line)..]);
  }

  // ----- the scan, on section texts ---------------------------------------------

  /** One pass of the `forEach` body, with each `Markdown` section standing
      for its text. Unlike the older parsers, a locale already present under
      the version is a duplicate even when its section is still empty (a
      `Markdown` object is always truthy). */
  function Step(st: CP.ScanState, line: string): (r: Result<CP.ScanState>)
    requires CP.Wf(st)
    ensures r.Ok? ==> CP.Wf(r.value)
  {
    if IsVersionHeading(line) then
      var v := VersionName(line);
      Ok(CP.ScanState(st.versions[v := map[]], Some(v), None))
    else if IsLocaleHeading(line) then
      var l := LocaleName(line);
      if !Present(st.currentVersion) then Fail(LocaleWithoutVersion(l))
      else
        var v := st.currentVersion.value;
        if l in st.versions[v] then Fail(LocaleDeclaredTwice(l, v))
        else Ok(CP.ScanState(st.versions[v := st.versions[v][l := ""]], st.currentVersion, Some(l)))
    else if Present(st.currentLocale) then
      var v := st.currentVersion.value;
      var l := st.currentLocale.value;
      Ok(st.(versions := st.versions[v := st.versions[v][l := st.versions[v][l] + "\n" + line]]))
    else
      Ok(st)
  }

  function Scan(st: CP.ScanState, lines: seq<string>): (r: Result<CP.ScanState>)
    requires CP.Wf(st)
    ensures r.Ok? ==> CP.Wf(r.value)
    decreases |lines|
  {
    if lines == [] then Ok(st)
    else
      match Step(st, lines[0])
      case Fail(e) => Fail(e)
      case Ok(next) => Scan(next, lines[1..])
  }

  /** The section texts `parseChangelogMarkdown(markdown)` builds, version -> locale. */
  function Parse(markdown: string): Result<CP.Sections> {
    match Scan(CP.Init, Text.Split(markdown, '\n'))
    case Fail(e) => Fail(e)
    case Ok(st) => Ok(st.versions)
  }

  // ----- the scan, on Markdown objects ------------------------------------------

  /** The object `parseChangelogMarkdown` returns: version -> locale -> section. */
  type Changelog = map<string, map<string, M.Markdown>>

  function Sections(m: Changelog): set<M.Markdown> {
    set v, l | v in m && l in m[v] :: m[v][l]
  }

  /** The text of every section object. */
  function Texts(m: Changelog): CP.Sections
    reads Sections(m)
  {
    map v | v in m :: map l | l in m[v] :: m[v][l].markdown
  }

  /** No two sections share one `Markdown` object. */
  ghost predicate Distinct(m: Changelog) {
    forall v, l, v', l' :: v in m && l in m[v] && v' in m && l' in m[v'] && (v, l) != (v', l') ==> m[v][l] != m[v'][l']
  }

  /** The loop's variables: the object built so far and the open version and locale. */
  datatype Cursor = Cursor(changelog: Changelog, currentVersion: Option<string>, currentLocale: Option<string>)

  /** The state of the text-level scan that a cursor stands for. */
  function State(c: Cursor): CP.ScanState
    reads Sections(c.changelog)
  {
    CP.ScanState(Texts(c.changelog), c.currentVersion, c.currentLocale)
  }

  /** `parseChangelogMarkdown(markdown)`: the loop over `markdown.split('\n')`;
      every section object of the result is new and none is shared. */
  method ParseChangelogMarkdown(markdown: string) returns (r: Result<Changelog>)
    ensures r.Ok? <==> Parse(markdown).Ok?
    ensures r.Fail? ==> r.error == Parse(markdown).error
    ensures r.Ok? ==> Texts(r.value) == Parse(markdown).value
    ensures r.Ok? ==> Distinct(r.value) && forall s :: s in Sections(r.value) ==> fresh(s)
  {
    var lines := Text.Split(markdown, '\n');
    var c := Cursor(map[], None, None);
    var i := 0;
    ghost var scan := Scan(CP.Init, lines);
    while i < |lines|
      invariant 0 <= i <= |lines|
      invariant Distinct(c.changelog) && forall s :: s in Sections(c.changelog) ==> fresh(s)
      invariant CP.Wf(State(c))
      invariant scan == Scan(State(c), lines[i..])
    {
      ScanNext(State(c), lines, i);
      var next := ParseLine(c, lines[i]);
      if next.Fail? {
        assert scan == Fail(next.error);
        return Fail(next.error);
      }
      c := next.value;
      i := i + 1;
    }
    assert lines[i..] == [];
    assert scan == Ok(State(c));
    return Ok(c.changelog);
  }

  /** Scanning from line `i` is one step and then the scan of the rest. */
  lemma ScanNext(st: CP.ScanState, lines: seq<string>, i: nat)
    requires CP.Wf(st) && i < |lines|
    ensures Step(st, lines[i]).Fail? ==> Scan(st, lines[i..]) == Fail(Step(st, lines[i]).error)
    ensures Step(st, lines[i]).Ok? ==> Scan(st, lines[i..]) == Scan(Step(st, lines[i]).value, lines[i + 1..])
  {
    assert lines[i..][0] == lines[i];
    assert lines[i..][1..] == lines[i + 1..];
  }

  /** The `forEach` body on one line: a version heading starts an empty
      version, a locale heading a fresh `Markdown('')`, and any other line
      under an open locale is appended to that section. */
  method ParseLine(c: Cursor, line: string) returns (r: Result<Cursor>)
    requires Distinct(c.changelog) && CP.Wf(State(c))
    modifies Sections(c.changelog)
    ensures var st := Step(old(State(c)), line);
      && r.Ok? == st.Ok?
      && (r.Fail? ==> r.error == st.error)
      && (r.Ok? ==> State(r.value) == st.value && Distinct(r.value.changelog))
    ensures r.Ok? ==> forall s :: s in Sections(r.value.changelog) ==> s in Sections(c.changelog) || fresh(s)
  {
    if IsVersionHeading(line) {
      var version := VersionName(line);
      ResetVersion(c.changelog, version);
      return Ok(Cursor(c.changelog[version := map[]], Some(version), None));
    } else if IsLocaleHeading(line) {
      var locale := LocaleName(line);
      if !Present(c.currentVersion) {
        return Fail(LocaleWithoutVersion(locale));
      }
      var v := c.currentVersion.value;
      if locale in c.changelog[v] {
        return Fail(LocaleDeclaredTwice(locale, v));
      }
      var changelog := OpenSection(c.changelog, v, locale);
      return Ok(Cursor(changelog, c.currentVersion, Some(locale)));
    } else if Present(c.currentLocale) {
      var v, l := c.currentVersion.value, c.currentLocale.value;
      ghost var was := Texts(c.changelog);
      AppendToSection(c.changelog, v, l, "\n" + line);
      assert was[v][l] + "\n" + line == was[v][l] + ("\n" + line);
      return Ok(c);
    } else {
      return Ok(c);
    }
  }

  /** Texts are read off pointwise: same keys, and each section's text. */
  lemma TextsIs(m: Changelog, t: CP.Sections)
    requires m.Keys == t.Keys && forall v :: v in m ==> m[v].Keys == t[v].Keys
    requires forall v, l :: v in m && l in m[v] ==> m[v][l].markdown == t[v][l]
    ensures Texts(m) == t
  {
    var r := Texts(m);
    forall v | v in m ensures r[v] == t[v] {
      assert r[v].Keys == t[v].Keys;
    }
  }

  /** `changelog[v] = {}` drops the sections of `v` and keeps every other one. */
  lemma ResetVersion(m: Changelog, v: string)
    requires Distinct(m)
    ensures Texts(m[v := map[]]) == Texts(m)[v := map[]]
    ensures Sections(m[v := map[]]) <= Sections(m)
    ensures Distinct(m[v := map[]])
  {
    var n := m[v := map[]];
    forall s | s in Sections(n) ensures s in Sections(m) {
      var v', l' :| v' in n && l' in n[v'] && s == n[v'][l'];
    }
    TextsIs(n, Texts(m)[v := map[]]);
  }

  /** `changelog[v][l] = new Markdown('')`: a fresh, empty section. */
  method OpenSection(m: Changelog, v: string, l: string) returns (next: Changelog)
    requires v in m && l !in m[v] && Distinct(m)
    ensures v in next && l in next[v] && next == m[v := m[v][l := next[v][l]]]
    ensures fresh(next[v][l]) && Distinct(next)
    ensures Sections(next) == Sections(m) + {next[v][l]}
    ensures Texts(next) == Texts(m)[v := Texts(m)[v][l := ""]]
  {
    var section := new M.Markdown("");
    next := m[v := m[v][l := section]];
    AddSection(m, v, l, section);
  }

  /** Adding a section object that is not yet in the changelog adds just it. */
  lemma AddSection(m: Changelog, v: string, l: string, section: M.Markdown)
    requires v in m && l !in m[v] && Distinct(m) && section !in Sections(m)
    ensures var next := m[v := m[v][l := section]];
      && Distinct(next) && Sections(next) == Sections(m) + {section}
      && Texts(next) == Texts(m)[v := Texts(m)[v][l := section.markdown]]
  {
    var next := m[v := m[v][l := section]];
    AddSectionWithin(m, v, l, section);
    forall s | s in Sections(m) + {section} ensures s in Sections(next) {
      if s == section {
        assert next[v][l] == section;
      } else {
        var v', l' :| v' in m && l' in m[v'] && s == m[v'][l'];
        assert (v', l') != (v, l);
        assert s == next[v'][l'];
      }
    }
    AddSectionTexts(m, v, l, section);
  }

  lemma AddSectionWithin(m: Changelog, v: string, l: string, section: M.Markdown)
    requires v in m
    ensures Sections(m[v := m[v][l := section]]) <= Sections(m) + {section}
  {
    var next := m[v := m[v][l := section]];
    forall s | s in Sections(next) ensures s in Sections(m) + {section} {
      var v', l' :| v' in next && l' in next[v'] && s == next[v'][l'];
    }
  }

  lemma AddSectionTexts(m: Changelog, v: string, l: string, section: M.Markdown)
    requires v in m && l !in m[v]
    ensures Texts(m[v := m[v][l := section]]) == Texts(m)[v := Texts(m)[v][l := section.markdown]]
  {
    var t := Texts(m);
    TextsIs(m[v := m[v][l := section]], t[v := t[v][l := section.markdown]]);
  }

  /** `changelog[v][l].append(s)`: only that section's text changes. */
  method AppendToSection(changelog: Changelog, v: string, l: string, s: string)
    requires v in changelog && l in changelog[v] && Distinct(changelog)
    modifies changelog[v][l]
    ensures var was := old(Texts(changelog));
      Texts(changelog) == was[v := was[v][l := was[v][l] + s]]
  {
    ghost var was := Texts(changelog);
    var section := changelog[v][l];
    assert forall v', l' :: v' in changelog && l' in changelog[v'] && (v', l') != (v, l) ==> changelog[v'][l'] != section;
    section.Append(s);
    var t := was[v := was[v][l := was[v][l] + s]];
    assert changelog.Keys == t.Keys;
    assert forall v' :: v' in changelog ==> changelog[v'].Keys == t[v'].Keys;
    forall v', l' | v' in changelog && l' in changelog[v']
      ensures changelog[v'][l'].markdown == t[v'][l']
    {
      if (v', l') != (v, l) {
        assert changelog[v'][l'].markdown == old(changelog[v'][l'].markdown) == was[v'][l'];
      }
    }
    TextsIs(changelog, t);
  }

  // ----- what the scan does, for every input -----------------------------------

  /** A locale heading repeated under one version, with no version heading
      in between, is always rejected as declared twice, even when its first
      section is still empty. */
  lemma {:induction false} LocaleStaysDeclared(st: CP.ScanState, l: string, mid: seq<string>)
    requires CP.Wf(st) && Present(st.currentVersion) && l in st.versions[st.currentVersion.value]
    requires forall i :: 0 <= i < |mid| ==> !IsVersionHeading(mid[i])
    ensures var r := Scan(st, mid);
      && (r.Fail? ==> r.error.LocaleDeclaredTwice?)
      && (r.Ok? ==> r.value.currentVersion == st.currentVersion && l in r.value.versions[st.currentVersion.value])
    decreases |mid|
  {
    if mid != [] {
      match Step(st, mid[0])
      case Fail(_) =>
      case Ok(next) => LocaleStaysDeclared(next, l, mid[1..]);
    }
  }

  lemma DuplicateLocaleAlwaysFails(st: CP.ScanState, heading: string, mid: seq<string>, again: string, rest: seq<string>)
    requires CP.Wf(st) && Present(st.currentVersion)
    requires IsLocaleHeading(heading) && IsLocaleHeading(again) && LocaleName(again) == LocaleName(heading)
    requires forall i :: 0 <= i < |mid| ==> !IsVersionHeading(mid[i])
    ensures var r := Scan(st, [heading] + mid + [again] + rest); r.Fail? && r.error.LocaleDeclaredTwice?
  {
    LocaleIsNotVersion(heading);
    LocaleIsNotVersion(again);
    var first, tail := [heading] + mid, [again] + rest;
    assert [heading] + mid + [again] + rest == first + tail;
    ScanAppend(st, first, tail);
    assert first[0] == heading && first[1..] == mid;
    var step := Step(st, heading);
    if step.Ok? {
      var s1 := step.value;
      LocaleStaysDeclared(s1, LocaleName(heading), mid);
      var scanned := Scan(s1, mid);
      if scanned.Ok? {
        assert tail[0] == again && tail[1..] == rest;
        assert Step(scanned.value, again).Fail?;
      }
    }
  }

  lemma {:induction false} ScanAppend(st: CP.ScanState, a: seq<string>, b: seq<string>)
    requires CP.Wf(st)
    ensures Scan(st, a + b) == match Scan(st, a) case Fail(e) => Fail(e) case Ok(mid) => Scan(mid, b)
    decreases |a|
  {
    if a == [] {
      assert a + b == b;
    } else {
      assert (a + b)[0] == a[0];
      assert (a + b)[1..] == a[1..] + b;
      match Step(st, a[0])
      case Fail(_) =>
      case Ok(next) => ScanAppend(next, a[1..], b);
    }
  }

  /** A version heading whose name is empty (such as `"## "`) leaves no
      current version, so a locale heading right after it is rejected. */
  lemma EmptyVersionNameIsMissing(st: CP.ScanState, heading: string, locale: string, rest: seq<string>)
    requires CP.Wf(st) && IsVersionHeading(heading) && VersionName(heading) == "" && IsLocaleHeading(locale)
    ensures Scan(st, [heading, locale] + rest) == Fail(LocaleWithoutVersion(LocaleName(locale)))
  {
    assert ([heading, locale] + rest)[0] == heading;
    assert ([heading, locale] + rest)[1..][0] == locale;
    assert IsLocaleHeading(locale) ==> !IsVersionHeading(locale) by {
      IndentedHeadings(locale);
      var k := LeadingSpaces(locale);
      if IsLocaleHeading(locale) { CP.HeadingKinds(locale[k..]); }
    }
  }

  /** While a locale is open, every non-heading line is appended raw (not
      trimmed) after a line break; the other sections do not change. */
  lemma {:induction false} OpenSectionCollectsRawLines(st: CP.ScanState, body: seq<string>)
    requires CP.Wf(st) && Present(st.currentLocale)
    requires forall i :: 0 <= i < |body| ==> IsContent(body[i])
    ensures Scan(st, body) == Ok(CP.AppendOpen(st, CP.Prefixed(body)))
    decreases |body|
  {
    var v, l := st.currentVersion.value, st.currentLocale.value;
    if body == [] {
      assert st.versions[v][l] + CP.Prefixed(body) == st.versions[v][l];
      assert st.versions[v][l := st.versions[v][l]] == st.versions[v];
      assert st.versions[v := st.versions[v]] == st.versions;
    } else {
      var next := CP.AppendOpen(st, "\n" + body[0]);
      assert st.versions[v][l] + "\n" + body[0] == st.versions[v][l] + ("\n" + body[0]);
      assert Step(st, body[0]) == Ok(next);
      OpenSectionCollectsRawLines(next, body[1..]);
      assert Scan(st, body) == Scan(next, body[1..]);
      var text := st.versions[v][l] + ("\n" + body[0]) + CP.Prefixed(body[1..]);
      assert text == st.versions[v][l] + CP.Prefixed(body);
      assert next.versions[v][l] + CP.Prefixed(body[1..]) == text;
      assert next.versions[v][l := text] == st.versions[v][l := text];
      assert CP.AppendOpen(next, CP.Prefixed(body[1..])) == CP.AppendOpen(st, CP.Prefixed(body));
    }
  }

  /** A version heading, a locale heading and content lines scan to one
      section holding those lines, each after a line break. */
  lemma ScanOneSection(hv: string, hl: string, body: seq<string>)
    requires IsVersionHeading(hv) && IsLocaleHeading(hl) && VersionName(hv) != "" && LocaleName(hl) != ""
    requires forall i :: 0 <= i < |body| ==> IsContent(body[i])
    ensures var v, l := VersionName(hv), LocaleName(hl);
      Scan(CP.Init, [hv, hl] + body) == Ok(CP.ScanState(map[v := map[l := CP.Prefixed(body)]], Some(v), Some(l)))
  {
    var v, l := VersionName(hv), LocaleName(hl);
    var s2 := CP.ScanState(map[v := map[l := ""]], Some(v), Some(l));
    ScanTwoHeadings(hv, hl, body);
    OpenSectionCollectsRawLines(s2, body);
    assert "" + CP.Prefixed(body) == CP.Prefixed(body);
    OverwriteOnly(v, l, "", CP.Prefixed(body));
  }

  /** After a version heading and a locale heading, that locale's section is open and empty. */
  lemma ScanTwoHeadings(hv: string, hl: string, rest: seq<string>)
    requires IsVersionHeading(hv) && IsLocaleHeading(hl) && VersionName(hv) != ""
    ensures var v, l := VersionName(hv), LocaleName(hl);
      Scan(CP.Init, [hv, hl] + rest) == Scan(CP.ScanState(map[v := map[l := ""]], Some(v), Some(l)), rest)
  {
    var v, l := VersionName(hv), LocaleName(hl);
    var lines := [hv, hl] + rest;
    LocaleIsNotVersion(hl);
    var s1 := CP.ScanState(map[v := map[]], Some(v), None);
    var s2 := CP.ScanState(map[v := map[l := ""]], Some(v), Some(l));
    assert Step(CP.Init, hv) == Ok(s1);
    assert s1.versions[v := s1.versions[v][l := ""]] == s2.versions;
    assert Step(s1, hl) == Ok(s2);
    assert lines[0] == hv && lines[1..][0] == hl && lines[1..][1..] == rest;
    assert Scan(CP.Init, lines) == Scan(s1, lines[1..]);
  }

  lemma OverwriteOnly(v: string, l: string, a: string, b: string)
    ensures var m := map[v := map[l := a]]; m[v := m[v][l := b]] == map[v := map[l := b]]
  {
    var m := map[v := map[l := a]];
    var n := m[v := m[v][l := b]];
    assert n.Keys == {v};
    assert n[v] == map[l := b];
    assert n == map[v := map[l := b]];
  }

  /** Outside a locale section (before any, or under an empty locale name),
      lines that are not headings are ignored. */
  lemma {:induction false} UnopenedLinesIgnored(st: CP.ScanState, pre: seq<string>, rest: seq<string>)
    requires CP.Wf(st) && !Present(st.currentLocale)
    requires forall i :: 0 <= i < |pre| ==> IsContent(pre[i])
    ensures Scan(st, pre + rest) == Scan(st, rest)
    decreases |pre|
  {
    if pre == [] {
      assert pre + rest == rest;
    } else {
      assert (pre + rest)[0] == pre[0];
      assert (pre + rest)[1..] == pre[1..] + rest;
      assert Step(st, pre[0]) == Ok(st);
      UnopenedLinesIgnored(st, pre[1..], rest);
    }
  }
}
