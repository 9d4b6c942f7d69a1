/** `PluginChangelogParser.readZip` (lib/pluginChangelogParser.js): finds the
    CHANGELOG.md of a Shopware 5 plugin archive, scans it line by line into
    version -> locale -> text sections, and regroups the non-empty sections as
    locale -> version -> text, optionally rendered to HTML. */
module ChangelogParser {
  import opened Common
  import Text
  import Archive

  // ----- line classification (on trimmed lines) -------------------------------

  /** `line.search(/^##[^#]+/) !== -1`. */
  predicate IsVersionHeading(line: string) {
    |line| >= 3 && line[0] == '#' && line[1] == '#' && line[2] != '#'
  }

  /** `line.search(/^###[^#]+/) !== -1`. */
  predicate IsLocaleHeading(line: string) {
    |line| >= 4 && line[0] == '#' && line[1] == '#' && line[2] == '#' && line[3] != '#'
  }

  predicate IsContent(line: string) {
    !IsVersionHeading(line) && !IsLocaleHeading(line)
  }

  /** `line.substr(2).trim()`. */
  function VersionName(line: string): string {
    Text.Trim(Text.Substr(line, 2))
  }

  /** `line.substr(3).trim()`. */
  function LocaleName(line: string): string {
    Text.Trim(Text.Substr(line, 3))
  }

  /** A `###` line is never a version heading, and a line that starts with
      `####` is neither kind of heading: the marker must be followed by a
      character other than `#`. */
  lemma HeadingKinds(line: string)
    ensures IsLocaleHeading(line) ==> !IsVersionHeading(line)
    ensures |line| >= 4 && line[..4] == "####" ==> IsContent(line)
    ensures IsVersionHeading(line) || IsLocaleHeading(line) <==> |line| >= 3 && line[..2] == "##" && exists k :: 2 <= k <= 3 && k < |line| && line[k] != '#' && forall m :: 2 <= m < k ==> line[m] == '#'
  {
    if |line| >= 3 && line[..2] == "##" {
      assert line[0] == line[..2][0] && line[1] == line[..2][1];
      if IsVersionHeading(line) {
        assert 2 <= 2 <= 3 && 2 < |line| && line[2] != '#';
      } else if IsLocaleHeading(line) {
        assert forall m :: 2 <= m < 3 ==> line[m] == '#';
      }
    }
    if |line| >= 4 && line[..4] == "####" {
      assert line[2] == line[..4][2] && line[3] == line[..4][3];
    }
  }

  // ----- the scan state machine -----------------------------------------------

  /** version -> locale -> accumulated text. */
  type Sections = map<string, map<string, string>>

  /** The loop's variables: `versions`, `currentVersion`, `currentLocale`
      (None stands for undefined and null alike). */
  datatype ScanState = ScanState(versions: Sections, currentVersion: Option<string>, currentLocale: Option<string>)

  const Init := ScanState(map[], None, None)

  /** What the loop keeps true: the current version has a map, and an open
      locale has an entry in it. */
  predicate Wf(st: ScanState) {
    && (st.currentVersion.Some? ==> st.currentVersion.value in st.versions)
    && (st.currentLocale.Some? ==> st.currentVersion.Some? && st.currentLocale.value in st.versions[st.currentVersion.value])
  }

  /** One pass of the `forEach` body on a (trimmed) line. */
  function Step(st: ScanState, line: string): (r: Result<ScanState>)
    requires Wf(st)
    ensures r.Ok? ==> Wf(r.value)
  {
    if IsVersionHeading(line) then
      var v := VersionName(line);
      Ok(ScanState(st.versions[v := map[]], Some(v), None))
    else if IsLocaleHeading(line) then
      var l := LocaleName(line);
      if !Present(st.currentVersion) then Fail(LocaleWithoutVersion(l))
      else
        var v := st.currentVersion.value;
        if l in st.versions[v] && st.versions[v][l] != "" then Fail(LocaleDeclaredTwice(l, v))
        else Ok(ScanState(st.versions[v := st.versions[v][l := ""]], st.currentVersion, Some(l)))
    else if Present(st.currentLocale) then
      var v := st.currentVersion.value;
      var l := st.currentLocale.value;
      Ok(st.(versions := st.versions[v := st.versions[v][l := st.versions[v][l] + "\n" + line]]))
    else
      Ok(st)
  }

  /** The whole `forEach`: the first thrown error ends the scan. */
  function Scan(st: ScanState, lines: seq<string>): (r: Result<ScanState>)
    requires Wf(st)
    ensures r.Ok? ==> Wf(r.value)
    decreases |lines|
  {
    if lines == [] then Ok(st)
    else
      match Step(st, lines[0])
      case Fail(e) => Fail(e)
      case Ok(next) => Scan(next, lines[1..])
  }

  /** `raw.split('\n').map(line => line.trim())`. */
  function Lines(raw: string): (r: seq<string>)
    ensures |r| == |Text.Split(raw, '\n')|
    ensures forall i :: 0 <= i < |r| ==> r[i] == Text.Trim(Text.Split(raw, '\n')[i])
  {
    var parts := Text.Split(raw, '\n');
    seq(|parts|, i requires 0 <= i < |parts| => Text.Trim(parts[i]))
  }

  /** The `forEach` over the lines, as the source runs it: the three loop
      variables updated in place, the first error returned. */
  method ScanLines(lines: seq<string>) returns (r: Result<Sections>)
    ensures r.Ok? <==> Scan(Init, lines).Ok?
    ensures r.Ok? ==> r.value == Scan(Init, lines).value.versions
    ensures r.Fail? ==> r.error == Scan(Init, lines).error
  {
    var versions: Sections := map[];
    var currentVersion: Option<string> := None;
    var currentLocale: Option<string> := None;
    var i := 0;
    while i < |lines|
      invariant 0 <= i <= |lines|
      invariant Wf(ScanState(versions, currentVersion, currentLocale))
      invariant Scan(Init, lines) == Scan(ScanState(versions, currentVersion, currentLocale), lines[i..])
    {
      var line := lines[i];
      assert lines[i..][1..] == lines[i + 1..];
      if IsVersionHeading(line) {
        currentVersion := Some(VersionName(line));
        currentLocale := None;
        versions := versions[currentVersion.value := map[]];
      } else if IsLocaleHeading(line) {
        var locale := LocaleName(line);
        if !Present(currentVersion) {
          return Fail(LocaleWithoutVersion(locale));
        }
        currentLocale := Some(locale);
        var v := currentVersion.value;
        if locale in versions[v] && versions[v][locale] != "" {
          return Fail(LocaleDeclaredTwice(locale, v));
        }
        versions := versions[v := versions[v][locale := ""]];
      } else if Present(currentLocale) {
        var v, l := currentVersion.value, currentLocale.value;
        versions := versions[v := versions[v][l := versions[v][l] + "\n" + line]];
      }
      i := i + 1;
    }
    return Ok(versions);
  }

  // ----- what the scan does, for every input -----------------------------------

  /** Until a locale is open, lines that are not headings change nothing:
      text before the first locale heading of a version is dropped. */
  lemma {:induction false} UnopenedLinesDropped(st: ScanState, pre: seq<string>, rest: seq<string>)
    requires Wf(st) && !Present(st.currentLocale)
    requires forall i :: 0 <= i < |pre| ==> IsContent(pre[i])
    ensures Scan(st, pre + rest) == Scan(st, rest)
    decreases |pre|
  {
    if pre == [] {
      assert pre + rest == rest;
    } else {
      assert (pre + rest)[0] == pre[0];
      assert (pre + rest)[1..] == pre[1..] + rest;
      assert Step(st, pre[0]) == Ok(st);
      UnopenedLinesDropped(st, pre[1..], rest);
    }
  }

  /** The lines of an open section, each prefixed with a line break. */
  function Prefixed(body: seq<string>): string {
    if body == [] then "" else "\n" + body[0] + Prefixed(body[1..])
  }

  /** `st` with `text` appended to the open section. */
  function AppendOpen(st: ScanState, text: string): ScanState
    requires Wf(st) && st.currentLocale.Some?
  {
    var v, l := st.currentVersion.value, st.currentLocale.value;
    st.(versions := st.versions[v := st.versions[v][l := st.versions[v][l] + text]])
  }

  /** While a locale is open, each line that is not a heading is appended to
      that section as `"\n" + line`, and nothing else changes. */
  lemma {:induction false} OpenSectionCollectsLines(st: ScanState, body: seq<string>)
    requires Wf(st) && Present(st.currentLocale)
    requires forall i :: 0 <= i < |body| ==> IsContent(body[i])
    ensures Scan(st, body) == Ok(AppendOpen(st, Prefixed(body)))
    decreases |body|
  {
    var v, l := st.currentVersion.value, st.currentLocale.value;
    if body == [] {
      assert st.versions[v][l] + Prefixed(body) == st.versions[v][l];
      assert st.versions[v][l := st.versions[v][l]] == st.versions[v];
      assert st.versions[v := st.versions[v]] == st.versions;
    } else {
      var next := AppendOpen(st, "\n" + body[0]);
      assert st.versions[v][l] + "\n" + body[0] == st.versions[v][l] + ("\n" + body[0]);
      assert Step(st, body[0]) == Ok(next);
      OpenSectionCollectsLines(next, body[1..]);
      assert Scan(st, body) == Scan(next, body[1..]);
      var text := st.versions[v][l] + ("\n" + body[0]) + Prefixed(body[1..]);
      assert text == st.versions[v][l] + Prefixed(body);
      assert next.versions[v][l] + Prefixed(body[1..]) == text;
      assert next.versions[v][l := text] == st.versions[v][l := text];
      assert AppendOpen(next, Prefixed(body[1..])) == AppendOpen(st, Prefixed(body));
    }
  }

  /** A document whose first heading is a locale heading is rejected with
      "Found new locale section ... without an enclosing version header". */
  lemma LocaleBeforeVersionFails(lines: seq<string>, j: nat)
    requires j < |lines| && IsLocaleHeading(lines[j])
    requires forall i :: 0 <= i < j ==> IsContent(lines[i])
    ensures Scan(Init, lines) == Fail(LocaleWithoutVersion(LocaleName(lines[j])))
  {
    UnopenedLinesDropped(Init, lines[..j], lines[j..]);
    assert lines[..j] + lines[j..] == lines;
    assert lines[j..][0] == lines[j];
  }

  /** Two identical locale headings in a row are accepted: the first leaves an
      empty (falsy) section, which the duplicate check does not notice. */
  lemma AdjacentDuplicateSlipsThrough(st: ScanState, heading: string, rest: seq<string>)
    requires Wf(st) && IsLocaleHeading(heading)
    ensures Scan(st, [heading, heading] + rest) == Scan(st, [heading] + rest)
  {
    assert ([heading, heading] + rest)[1..] == [heading] + rest;
    assert ([heading] + rest)[1..] == rest;
    match Step(st, heading)
    case Fail(_) =>
    case Ok(next) =>
      assert Step(next, heading) == Ok(next) by {
        var v := next.currentVersion.value;
        assert next.versions[v][LocaleName(heading) := ""] == next.versions[v];
        assert next.versions[v := next.versions[v]] == next.versions;
      }
  }

  /** Scanning a concatenation is scanning the parts in turn. */
  lemma {:induction false} ScanAppend(st: ScanState, a: seq<string>, b: seq<string>)
    requires Wf(st)
    ensures Scan(st, a + b) == match Scan(st, a) case Fail(e) => Fail(e) case Ok(mid) => Scan(mid, b)
    decreases |a|
  {
    if a == [] {
      assert a + b == b;
    } else {
      assert (a + b)[0] == a[0];
      assert (a + b)[1..] == a[1..] + b;
      match Step(st, a[0])
      case Fail(_) =>
      case Ok(next) => ScanAppend(next, a[1..], b);
    }
  }

  /** One line that is not a version heading keeps the current version and
      its non-empty section `l`, or fails with a duplicate locale. */
  lemma StepKeepsNonEmptySection(st: ScanState, l: string, line: string)
    requires Wf(st) && Present(st.currentVersion)
    requires l in st.versions[st.currentVersion.value] && st.versions[st.currentVersion.value][l] != ""
    requires !IsVersionHeading(line)
    ensures var r := Step(st, line);
      && (r.Fail? ==> r.error.LocaleDeclaredTwice?)
      && (r.Ok? ==> r.value.currentVersion == st.currentVersion && l in r.value.versions[st.currentVersion.value]
                    && r.value.versions[st.currentVersion.value][l] != "")
  {
    if !IsLocaleHeading(line) && Present(st.currentLocale) && st.currentLocale.value == l {
      var v := st.currentVersion.value;
      assert Step(st, line).value.versions[v][l] == st.versions[v][l] + "\n" + line;
    }
  }

  /** Scanning lines with no version heading under an open version never
      empties a non-empty section of that version, and never fails except by
      a duplicate locale. */
  lemma {:induction false} NonEmptySectionStays(st: ScanState, l: string, mid: seq<string>)
    requires Wf(st) && Present(st.currentVersion)
    requires l in st.versions[st.currentVersion.value] && st.versions[st.currentVersion.value][l] != ""
    requires forall i :: 0 <= i < |mid| ==> !IsVersionHeading(mid[i])
    ensures var r := Scan(st, mid);
      && (r.Fail? ==> r.error.LocaleDeclaredTwice?)
      && (r.Ok? ==> r.value.currentVersion == st.currentVersion && l in r.value.versions[st.currentVersion.value]
                    && r.value.versions[st.currentVersion.value][l] != "")
    decreases |mid|
  {
    if mid != [] {
      StepKeepsNonEmptySection(st, l, mid[0]);
      match Step(st, mid[0])
      case Fail(e) =>
      case Ok(next) =>
        NonEmptySectionStays(next, l, mid[1..]);
    }
  }

  /** A locale declared again under the same version, after its first
      section received a line, is rejected with "Locale ... was declared
      twice ...". */
  lemma RepeatedLocaleFails(st: ScanState, heading: string, line: string, mid: seq<string>, again: string, rest: seq<string>)
    requires Wf(st) && Present(st.currentVersion)
    requires IsLocaleHeading(heading) && IsLocaleHeading(again) && LocaleName(again) == LocaleName(heading) != ""
    requires IsContent(line)
    requires forall i :: 0 <= i < |mid| ==> !IsVersionHeading(mid[i])
    ensures var r := Scan(st, [heading, line] + mid + [again] + rest); r.Fail? && r.error.LocaleDeclaredTwice?
  {
    var tail := [again] + rest;
    assert [heading, line] + mid + [again] + rest == [heading, line] + (mid + tail);
    ScanAppend(st, [heading, line], mid + tail);
    assert [heading, line][1..] == [line];
    match Step(st, heading)
    case Fail(e) =>
      assert Scan(st, [heading, line]) == Fail(e);
    case Ok(s1) =>
      var s2 := AppendOpen(s1, "\n" + line);
      var v, l := s1.currentVersion.value, s1.currentLocale.value;
      assert s1.versions[v][l] + "\n" + line == s1.versions[v][l] + ("\n" + line);
      assert Step(s1, line) == Ok(s2);
      assert Scan(s1, [line]) == Ok(s2);
      assert Scan(st, [heading, line]) == Ok(s2);
      NonEmptySectionStays(s2, LocaleName(heading), mid);
      ScanAppend(s2, mid, tail);
      match Scan(s2, mid)
      case Fail(_) =>
      case Ok(s3) =>
        assert tail[0] == again;
        assert Step(s3, again).Fail?;
  }

  /** `st` with every version but `v` forgotten. */
  function Only(st: ScanState, v: string): ScanState
    requires v in st.versions
  {
    st.(versions := map[v := st.versions[v]])
  }

  /** A line that is not a version heading acts on the current version alone. */
  lemma StepIsolated(base: Sections, st: ScanState, v: string, line: string)
    requires Wf(st) && st.currentVersion == Some(v)
    requires st.versions == base[v := st.versions[v]]
    requires !IsVersionHeading(line)
    ensures var a := Step(st, line);
      var b := Step(Only(st, v), line);
      && a.Ok? == b.Ok?
      && (a.Fail? ==> a == b)
      && (a.Ok? ==> a.value.currentVersion == Some(v) && a.value.versions == base[v := a.value.versions[v]]
                    && b.value == Only(a.value, v))
  {
  }

  /** What a version's sections hold depends only on the lines after its
      latest heading, and scanning those lines touches no other version. */
  lemma {:induction false} VersionBodyIsolated(base: Sections, st: ScanState, v: string, body: seq<string>)
    requires Wf(st) && st.currentVersion == Some(v)
    requires st.versions == base[v := st.versions[v]]
    requires forall i :: 0 <= i < |body| ==> !IsVersionHeading(body[i])
    ensures var a := Scan(st, body);
      var b := Scan(Only(st, v), body);
      && a.Ok? == b.Ok?
      && (a.Fail? ==> a == b)
      && (a.Ok? ==> a.value.currentVersion == Some(v) && a.value.versions == base[v := a.value.versions[v]]
                    && b.value == Only(a.value, v))
    decreases |body|
  {
    if body != [] {
      StepIsolated(base, st, v, body[0]);
      match Step(st, body[0])
      case Fail(_) =>
      case Ok(next) =>
        VersionBodyIsolated(base, next, v, body[1..]);
    }
  }

  /** The state right after the heading `## <v>` on a scan that had built `base`. */
  function Opened(base: Sections, v: string): ScanState {
    ScanState(base[v := map[]], Some(v), None)
  }

  /** A version heading followed by lines without version headings: the
      version's sections are what those lines build from nothing, so a
      repeated heading discards what the version had; every other version
      keeps what it had. */
  lemma VersionHeadingResets(st: ScanState, heading: string, body: seq<string>)
    requires Wf(st) && IsVersionHeading(heading)
    requires forall i :: 0 <= i < |body| ==> !IsVersionHeading(body[i])
    ensures var v := VersionName(heading);
      var a := Scan(st, [heading] + body);
      var b := Scan(Opened(map[], v), body);
      && a.Ok? == b.Ok?
      && (a.Ok? ==> v in b.value.versions && a.value.versions == st.versions[v := b.value.versions[v]])
  {
    var v := VersionName(heading);
    assert ([heading] + body)[1..] == body;
    var start := Opened(st.versions, v);
    assert Step(st, heading) == Ok(start);
    VersionBodyIsolated(st.versions, start, v, body);
    assert Only(start, v) == Opened(map[], v);
  }

  // ----- section texts keep only trimmed lines -----------------------------------

  /** Every line of the text, split at line breaks, is trimmed: no
      indentation and no trailing `\r` survives. */
  ghost predicate TrimmedLines(text: string) {
    forall p :: p in Text.Split(text, '\n') ==> Text.Trim(p) == p
  }

  ghost predicate AllSectionsTrimmed(st: ScanState) {
    forall v, l :: v in st.versions && l in st.versions[v] ==> TrimmedLines(st.versions[v][l])
  }

  /** A section's text stays made of trimmed lines when a trimmed line is appended. */
  lemma AppendTrimmedLine(text: string, line: string)
    requires TrimmedLines(text)
    requires Text.Trim(line) == line && '\n' !in line
    ensures TrimmedLines(text + "\n" + line)
  {
    Text.SplitAppend(text, '\n', line);
    assert text + "\n" + line == text + ['\n'] + line;
  }

  lemma StepKeepsLinesTrimmed(st: ScanState, line: string)
    requires Wf(st) && AllSectionsTrimmed(st)
    requires Text.Trim(line) == line && '\n' !in line
    ensures Step(st, line).Ok? ==> AllSectionsTrimmed(Step(st, line).value)
  {
    assert Text.Split("", '\n') == [""];
    assert TrimmedLines("");
    if !IsVersionHeading(line) && !IsLocaleHeading(line) && Present(st.currentLocale) {
      var v, l := st.currentVersion.value, st.currentLocale.value;
      AppendTrimmedLine(st.versions[v][l], line);
    }
  }

  lemma {:induction false} ScanKeepsLinesTrimmed(st: ScanState, lines: seq<string>)
    requires Wf(st) && AllSectionsTrimmed(st)
    requires forall i :: 0 <= i < |lines| ==> Text.Trim(lines[i]) == lines[i] && '\n' !in lines[i]
    ensures Scan(st, lines).Ok? ==> AllSectionsTrimmed(Scan(st, lines).value)
    decreases |lines|
  {
    if lines != [] {
      StepKeepsLinesTrimmed(st, lines[0]);
      match Step(st, lines[0])
      case Fail(_) =>
      case Ok(next) =>
        ScanKeepsLinesTrimmed(next, lines[1..]);
    }
  }

  /** Every section the parse of a CHANGELOG.md text builds is made of
      trimmed lines: indentation and `\r` never reach stored text. */
  lemma ParsedSectionsTrimmed(raw: string)
    ensures Scan(Init, Lines(raw)).Ok? ==> AllSectionsTrimmed(Scan(Init, Lines(raw)).value)
  {
    var lines := Lines(raw);
    var parts := Text.Split(raw, '\n');
    forall i | 0 <= i < |lines| ensures Text.Trim(lines[i]) == lines[i] && '\n' !in lines[i] {
      Text.TrimIdempotent(parts[i]);
      Text.TrimKeepsAbsent(parts[i], '\n');
    }
    ScanKeepsLinesTrimmed(Init, lines);
  }

  // ----- regrouping: locale -> version -> text ----------------------------------

  /** A section is kept when it does not trim to nothing. */
  predicate Kept(versions: Sections, v: string, l: string) {
    v in versions && l in versions[v] && Text.Trim(versions[v][l]) != ""
  }

  /** The text stored for a kept section: trimmed, then rendered when HTML is asked for. */
  function Finish(text: string, compileHtml: bool, render: string -> string): string {
    if compileHtml then render(Text.Trim(text)) else Text.Trim(text)
  }

  /** `out` is the regrouping of `versions`: it holds exactly the kept
      sections, under locale then version, each finished; and a locale appears
      only with at least one kept version. */
  ghost predicate IsRegrouping(versions: Sections, out: map<string, map<string, string>>, compileHtml: bool, render: string -> string) {
    && (forall l, v :: l in out && v in out[l] ==> Kept(versions, v, l) && out[l][v] == Finish(versions[v][l], compileHtml, render))
    && (forall v, l :: Kept(versions, v, l) ==> l in out && v in out[l])
    && (forall l :: l in out ==> exists v :: Kept(versions, v, l))
  }

  /** There is only one regrouping of a given scan result. */
  lemma RegroupingUnique(versions: Sections, a: map<string, map<string, string>>, b: map<string, map<string, string>>, compileHtml: bool, render: string -> string)
    requires IsRegrouping(versions, a, compileHtml, render) && IsRegrouping(versions, b, compileHtml, render)
    ensures a == b
  {
    assert a.Keys == b.Keys by {
      forall l | l in a ensures l in b {
        var v :| Kept(versions, v, l);
      }
      forall l | l in b ensures l in a {
        var v :| Kept(versions, v, l);
      }
    }
    forall l | l in a ensures a[l] == b[l] {
      RegroupedLocaleUnique(versions, a, b, compileHtml, render, l);
    }
  }

  /** Two regroupings agree on every locale they both hold. */
  lemma RegroupedLocaleUnique(versions: Sections, a: map<string, map<string, string>>, b: map<string, map<string, string>>, compileHtml: bool, render: string -> string, l: string)
    requires IsRegrouping(versions, a, compileHtml, render) && IsRegrouping(versions, b, compileHtml, render)
    requires l in a && l in b
    ensures a[l] == b[l]
  {
    forall w | w in a[l] ensures w in b[l] && a[l][w] == b[l][w] {
      assert Kept(versions, w, l);
    }
    forall w | w in b[l] ensures w in a[l] {
      assert Kept(versions, w, l);
    }
    assert a[l].Keys == b[l].Keys;
  }

  /** The regrouping restricted to the sections already visited: every
      locale of versions in `doneVersions`, and the locales `doneLocales` of
      version `current`. */
  ghost predicate RegroupedSoFar(versions: Sections, out: map<string, map<string, string>>, compileHtml: bool, render: string -> string,
                                 doneVersions: set<string>, current: string, doneLocales: set<string>) {
    && SoundSoFar(versions, out, compileHtml, render, doneVersions, current, doneLocales)
    && CompleteSoFar(versions, out, doneVersions, current, doneLocales)
    && LocalesJustified(versions, out)
  }

  ghost predicate Visited(doneVersions: set<string>, current: string, doneLocales: set<string>, w: string, l: string) {
    w in doneVersions || (w == current && l in doneLocales)
  }

  ghost predicate SoundSoFar(versions: Sections, out: map<string, map<string, string>>, compileHtml: bool, render: string -> string,
                             doneVersions: set<string>, current: string, doneLocales: set<string>) {
    forall l, w :: l in out && w in out[l] ==>
      && Visited(doneVersions, current, doneLocales, w, l)
      && Kept(versions, w, l) && out[l][w] == Finish(versions[w][l], compileHtml, render)
  }

  ghost predicate CompleteSoFar(versions: Sections, out: map<string, map<string, string>>,
                                doneVersions: set<string>, current: string, doneLocales: set<string>) {
    forall w, l :: Visited(doneVersions, current, doneLocales, w, l) && Kept(versions, w, l) ==> l in out && w in out[l]
  }

  ghost predicate LocalesJustified(versions: Sections, out: map<string, map<string, string>>) {
    forall l :: l in out ==> exists w :: Kept(versions, w, l)
  }

  lemma RegroupedSoFarSwitch(versions: Sections, out: map<string, map<string, string>>, compileHtml: bool, render: string -> string,
                             doneVersions: set<string>, current: string, next: string)
    requires RegroupedSoFar(versions, out, compileHtml, render, doneVersions, current, {})
    ensures RegroupedSoFar(versions, out, compileHtml, render, doneVersions, next, {})
  {
    forall l, w | l in out && w in out[l] ensures Visited(doneVersions, next, {}, w, l) {
      assert Visited(doneVersions, current, {}, w, l);
    }
    forall w, l | Visited(doneVersions, next, {}, w, l) && Kept(versions, w, l) ensures l in out && w in out[l] {
      assert Visited(doneVersions, current, {}, w, l);
    }
  }

  /** The map after visiting section (`current`, `locale`). */
  function AddSection(versions: Sections, out: map<string, map<string, string>>, compileHtml: bool, render: string -> string,
                      current: string, locale: string): map<string, map<string, string>>
    requires current in versions && locale in versions[current]
  {
    if Kept(versions, current, locale)
    then out[locale := (if locale in out then out[locale] else map[])[current := Finish(versions[current][locale], compileHtml, render)]]
    else out
  }

  lemma AddSound(versions: Sections, out: map<string, map<string, string>>, compileHtml: bool, render: string -> string,
                 doneVersions: set<string>, current: string, doneLocales: set<string>, locale: string)
    requires SoundSoFar(versions, out, compileHtml, render, doneVersions, current, doneLocales)
    requires current in versions && locale in versions[current]
    ensures SoundSoFar(versions, AddSection(versions, out, compileHtml, render, current, locale), compileHtml, render, doneVersions, current, doneLocales + {locale})
  {
    var out' := AddSection(versions, out, compileHtml, render, current, locale);
    forall l, w | l in out' && w in out'[l]
      ensures Visited(doneVersions, current, doneLocales + {locale}, w, l)
      ensures Kept(versions, w, l) && out'[l][w] == Finish(versions[w][l], compileHtml, render)
    {
      if l == locale && w == current && Kept(versions, current, locale) {
      } else {
        assert l in out && w in out[l] && out'[l][w] == out[l][w];
        assert Visited(doneVersions, current, doneLocales, w, l);
      }
    }
  }

  lemma AddComplete(versions: Sections, out: map<string, map<string, string>>, compileHtml: bool, render: string -> string,
                    doneVersions: set<string>, current: string, doneLocales: set<string>, locale: string)
    requires CompleteSoFar(versions, out, doneVersions, current, doneLocales)
    requires current in versions && locale in versions[current]
    ensures CompleteSoFar(versions, AddSection(versions, out, compileHtml, render, current, locale), doneVersions, current, doneLocales + {locale})
  {
  }

  lemma AddJustified(versions: Sections, out: map<string, map<string, string>>, compileHtml: bool, render: string -> string,
                     current: string, locale: string)
    requires LocalesJustified(versions, out)
    requires current in versions && locale in versions[current]
    ensures LocalesJustified(versions, AddSection(versions, out, compileHtml, render, current, locale))
  {
    var out' := AddSection(versions, out, compileHtml, render, current, locale);
    forall l | l in out' ensures exists w :: Kept(versions, w, l) {
      if l == locale && Kept(versions, current, locale) {
        assert Kept(versions, current, locale);
      }
    }
  }

  lemma RegroupedSoFarAdd(versions: Sections, out: map<string, map<string, string>>, compileHtml: bool, render: string -> string,
                          doneVersions: set<string>, current: string, doneLocales: set<string>, locale: string)
    requires RegroupedSoFar(versions, out, compileHtml, render, doneVersions, current, doneLocales)
    requires current in versions && locale in versions[current]
    ensures RegroupedSoFar(versions, AddSection(versions, out, compileHtml, render, current, locale), compileHtml, render, doneVersions, current, doneLocales + {locale})
  {
    AddSound(versions, out, compileHtml, render, doneVersions, current, doneLocales, locale);
    AddComplete(versions, out, compileHtml, render, doneVersions, current, doneLocales, locale);
    AddJustified(versions, out, compileHtml, render, current, locale);
  }

  lemma FinishSound(versions: Sections, out: map<string, map<string, string>>, compileHtml: bool, render: string -> string,
                    doneVersions: set<string>, current: string)
    requires current in versions
    requires SoundSoFar(versions, out, compileHtml, render, doneVersions, current, versions[current].Keys)
    ensures SoundSoFar(versions, out, compileHtml, render, doneVersions + {current}, current, {})
  {
    forall l, w | l in out && w in out[l] ensures Visited(doneVersions + {current}, current, {}, w, l) {
      assert Visited(doneVersions, current, versions[current].Keys, w, l);
    }
  }

  lemma FinishComplete(versions: Sections, out: map<string, map<string, string>>, doneVersions: set<string>, current: string)
    requires current in versions
    requires CompleteSoFar(versions, out, doneVersions, current, versions[current].Keys)
    ensures CompleteSoFar(versions, out, doneVersions + {current}, current, {})
  {
    forall w, l | Visited(doneVersions + {current}, current, {}, w, l) && Kept(versions, w, l) ensures l in out && w in out[l] {
      assert Visited(doneVersions, current, versions[current].Keys, w, l);
    }
  }

  lemma RegroupedSoFarFinish(versions: Sections, out: map<string, map<string, string>>, compileHtml: bool, render: string -> string,
                             doneVersions: set<string>, current: string)
    requires current in versions
    requires RegroupedSoFar(versions, out, compileHtml, render, doneVersions, current, versions[current].Keys)
    ensures RegroupedSoFar(versions, out, compileHtml, render, doneVersions + {current}, current, {})
  {
    FinishSound(versions, out, compileHtml, render, doneVersions, current);
    FinishComplete(versions, out, doneVersions, current);
  }

  lemma RegroupedSoFarDone(versions: Sections, out: map<string, map<string, string>>, compileHtml: bool, render: string -> string, current: string)
    requires RegroupedSoFar(versions, out, compileHtml, render, versions.Keys, current, {})
    ensures IsRegrouping(versions, out, compileHtml, render)
  {
  }

  /** The nested `forEach` of the post-processing, as the source runs it:
      for each version and each of its locales, trim, skip empty, render if
      asked, and store under `changelog[locale][version]`. */
  method Regroup(versions: Sections, compileHtml: bool, render: string -> string) returns (changelog: map<string, map<string, string>>)
    ensures IsRegrouping(versions, changelog, compileHtml, render)
  {
    changelog := map[];
    var todo := versions.Keys;
    ghost var done: set<string> := {};
    ghost var last := "";
    while todo != {}
      invariant todo <= versions.Keys && done == versions.Keys - todo
      invariant RegroupedSoFar(versions, changelog, compileHtml, render, done, last, {})
      decreases todo
    {
      var version :| version in todo;
      RegroupedSoFarSwitch(versions, changelog, compileHtml, render, done, last, version);
      changelog := RegroupVersion(versions, version, changelog, compileHtml, render, done);
      done := done + {version};
      todo := todo - {version};
      last := version;
    }
    assert done == versions.Keys;
    RegroupedSoFarDone(versions, changelog, compileHtml, render, last);
  }

  /** The inner `forEach` of the post-processing, over the locales of one version. */
  method RegroupVersion(versions: Sections, version: string, changelog0: map<string, map<string, string>>,
                        compileHtml: bool, render: string -> string, ghost done: set<string>)
    returns (changelog: map<string, map<string, string>>)
    requires version in versions && version !in done
    requires RegroupedSoFar(versions, changelog0, compileHtml, render, done, version, {})
    ensures RegroupedSoFar(versions, changelog, compileHtml, render, done + {version}, version, {})
  {
    changelog := changelog0;
    var locales := versions[version].Keys;
    ghost var doneLocales: set<string> := {};
    while locales != {}
      invariant doneLocales + locales == versions[version].Keys && doneLocales !! locales
      invariant RegroupedSoFar(versions, changelog, compileHtml, render, done, version, doneLocales)
      decreases locales
    {
      var locale :| locale in locales;
      RegroupedSoFarAdd(versions, changelog, compileHtml, render, done, version, doneLocales, locale);
      ghost var next := AddSection(versions, changelog, compileHtml, render, version, locale);
      var content := Text.Trim(versions[version][locale]);
      if |content| != 0 {
        if compileHtml {
          content := render(content);
        }
        var forLocale := if locale in changelog then changelog[locale] else map[];
        changelog := changelog[locale := forLocale[version := content]];
      }
      assert changelog == next;
      doneLocales := doneLocales + {locale};
      locales := locales - {locale};
    }
    RegroupedSoFarFinish(versions, changelog, compileHtml, render, done, version);
  }

  /** Without HTML, every text of the result is non-empty and already trimmed. */
  lemma RegroupedTextsTrimmed(versions: Sections, out: map<string, map<string, string>>, render: string -> string)
    requires IsRegrouping(versions, out, false, render)
    ensures forall l, v :: l in out && v in out[l] ==> out[l][v] != "" && Text.Trim(out[l][v]) == out[l][v]
  {
    forall l, v | l in out && v in out[l] ensures out[l][v] != "" && Text.Trim(out[l][v]) == out[l][v] {
      assert Kept(versions, v, l);
      Text.TrimIdempotent(versions[v][l]);
    }
  }

  // ----- readZip ---------------------------------------------------------------

  /** The CHANGELOG.md pattern, `(Backend|Core|Frontend)\/[^/]+\/CHANGELOG\.md`. */
  const ChangelogFile := "CHANGELOG.md"

  /** The text `readZip` parses: '' without a matching entry; None where
      `zip.file(...)` returns null (the matched name is a folder) and reading
      it throws. */
  function RawChangelog(zip: Archive.Zip): Option<string> {
    match Archive.FindEntry(zip.entries, ChangelogFile)
    case None => Some("")
    case Some(i) => Archive.FileText(zip, zip.entries[i].name)
  }

  /** `new PluginChangelogParser(compileHTML).readZip(filePath)`. */
  method ReadZip(fs: Archive.FileSystem, filePath: string, compileHtml: bool, render: string -> string)
    returns (r: Result<map<string, map<string, string>>>)
    ensures filePath !in fs ==> r == Fail(FileDoesNotExist(filePath))
    ensures filePath in fs && RawChangelog(fs[filePath]).None? ==> r.Fail? && r.error.TypeError?
    ensures filePath in fs && RawChangelog(fs[filePath]).Some? ==>
      var scan := Scan(Init, Lines(RawChangelog(fs[filePath]).value));
      && (r.Ok? <==> scan.Ok?)
      && (r.Fail? ==> r.error == scan.error)
      && (r.Ok? ==> IsRegrouping(scan.value.versions, r.value, compileHtml, render))
  {
    if filePath !in fs {
      return Fail(FileDoesNotExist(filePath));
    }
    var zip := fs[filePath];
    var changelogFile := Archive.FindEntry(zip.entries, ChangelogFile);
    var rawChangelog := "";
    if changelogFile.Some? {
      var text := Archive.FileText(zip, zip.entries[changelogFile.value].name);
      if text.None? {
        return Fail(TypeError("zip.file(changelogFile) is null"));
      }
      rawChangelog := text.value;
    }
    var versions :- ScanLines(Lines(rawChangelog));
    var changelog := Regroup(versions, compileHtml, render);
    return Ok(changelog);
  }

  /** An archive without a CHANGELOG.md entry parses to the empty changelog. */
  lemma NoChangelogIsEmpty(zip: Archive.Zip, compileHtml: bool, render: string -> string, out: map<string, map<string, string>>)
    requires Archive.FindEntry(zip.entries, ChangelogFile).None?
    requires IsRegrouping(map[], out, compileHtml, render)
    ensures RawChangelog(zip) == Some("") && Scan(Init, Lines("")) == Ok(Init)
    ensures out == map[]
  {
    assert Text.Split("", '\n') == [""];
    assert Lines("") == [""];
    assert Text.Trim("") == "";
    assert Step(Init, "") == Ok(Init);
    assert out.Keys == {};
  }
}
