/** The part of the file system and of a ZIP archive the core looks at: a
    path either names an archive or does not exist; an archive is its list of
    entries in `Object.keys(zip.files)` order, each a folder or a file with its
    text. Also the entry-name patterns the readers search for. */
module Archive {
  import opened Common
  import Text

  datatype Entry = Entry(name: string, isDir: bool, text: string)

  datatype Zip = Zip(entries: seq<Entry>)

  /** `fs.exists(path)` holds exactly for the keys; the value is the archive read from there. */
  type FileSystem = map<string, Zip>

  /** `zip.file(name).async('string')`: the text of the file entry called
      `name`; None where `zip.file` returns null (no such entry, or a folder). */
  function FileText(zip: Zip, name: string): (r: Option<string>)
    ensures r.Some? <==> exists i :: 0 <= i < |zip.entries| && zip.entries[i].name == name && !zip.entries[i].isDir
  {
    FileTextFrom(zip.entries, name)
  }

  function FileTextFrom(entries: seq<Entry>, name: string): (r: Option<string>)
    ensures r.Some? <==> exists i :: 0 <= i < |entries| && entries[i].name == name && !entries[i].isDir
  {
    if entries == [] then None
    else if entries[0].name == name && !entries[0].isDir then Some(entries[0].text)
    else
      var r := FileTextFrom(entries[1..], name);
      assert r.Some? ==> exists i :: 0 <= i < |entries| && entries[i].name == name && !entries[i].isDir by {
        if r.Some? {
          var i :| 0 <= i < |entries[1..]| && entries[1..][i].name == name && !entries[1..][i].isDir;
          assert entries[i + 1] == entries[1..][i];
        }
      }
      r
  }

  /** `zip.file(path).async('string')`: a missing file (or a folder) is null,
      and reading from null throws a TypeError. */
  function ReadText(zip: Zip, path: string): (r: Result<string>)
    ensures r.Ok? <==> FileText(zip, path).Some?
    ensures r.Ok? ==> FileText(zip, path) == Some(r.value)
    ensures r.Fail? ==> r.error.TypeError?
  {
    var text := FileText(zip, path);
    if text.None? then Fail(TypeError("cannot read property async of null")) else Ok(text.value)
  }

  // ----- `(Backend|Core|Frontend)\/([^/]+)\/<file>`, searched anywhere in a name -----

  /** The three namespace folders of a Shopware 5 plugin, in the order the
      alternation lists them. */
  const Namespaces: seq<string> := ["Backend", "Core", "Frontend"]

  /** The first `/` at or after position `j`, or `|s|` when there is none. */
  function NextSlash(s: string, j: nat): (k: nat)
    requires j <= |s|
    ensures j <= k <= |s|
    ensures forall m :: j <= m < k ==> s[m] != '/'
    ensures k < |s| ==> s[k] == '/'
    decreases |s| - j
  {
    if j == |s| || s[j] == '/' then j else NextSlash(s, j + 1)
  }

  /** The segment captured by `<ns>\/([^/]+)\/<file>` when the match starts at
      position `i` of `key` with namespace `ns`. */
  function MatchWith(key: string, i: nat, ns: string, file: string): (r: Option<string>)
    requires i <= |key|
    ensures r.Some? ==> r.value != [] && '/' !in r.value
  {
    var prefix := ns + "/";
    if Text.StartsWith(key[i..], prefix) then
      var j := i + |prefix|;
      var k := NextSlash(key, j);
      if k > j && Text.StartsWith(key[k..], "/" + file) then
        assert forall m :: 0 <= m < k - j ==> key[j..k][m] == key[j + m];
        Some(key[j..k])
      else None
    else None
  }

  /** The capture of a match starting at position `i`, trying the namespaces in order. */
  function MatchAt(key: string, i: nat, file: string): (r: Option<string>)
    requires i <= |key|
    ensures r.Some? ==> r.value != [] && '/' !in r.value
  {
    var b := MatchWith(key, i, Namespaces[0], file);
    if b.Some? then b
    else
      var c := MatchWith(key, i, Namespaces[1], file);
      if c.Some? then c else MatchWith(key, i, Namespaces[2], file)
  }

  /** `key.match(pattern)` from position `i` on: the capture of the leftmost match. */
  function SearchFrom(key: string, file: string, i: nat): (r: Option<string>)
    requires i <= |key|
    ensures r.Some? ==> r.value != [] && '/' !in r.value
    decreases |key| - i
  {
    var here := MatchAt(key, i, file);
    if here.Some? then here
    else if i == |key| then None
    else SearchFrom(key, file, i + 1)
  }

  /** The plugin name captured by `(Backend|Core|Frontend)\/([^/]+)\/<file>` in
      `key`, or None when the name does not match. */
  function Search(key: string, file: string): (r: Option<string>)
    ensures r.Some? ==> r.value != [] && '/' !in r.value
  {
    SearchFrom(key, file, 0)
  }

  /** The search from `i` finds nothing exactly when no match starts at
      or after `i`. */
  lemma {:induction false} SearchFromFailsOnlyWithoutMatch(key: string, file: string, i: nat)
    requires i <= |key|
    ensures SearchFrom(key, file, i).None? <==> forall m :: i <= m <= |key| ==> MatchAt(key, m, file).None?
    decreases |key| - i
  {
    var here := MatchAt(key, i, file);
    if here.Some? {
      assert SearchFrom(key, file, i) == here;
    } else if i < |key| {
      SearchFromFailsOnlyWithoutMatch(key, file, i + 1);
      assert SearchFrom(key, file, i) == SearchFrom(key, file, i + 1);
      assert (forall m :: i <= m <= |key| ==> MatchAt(key, m, file).None?)
        <==> (forall m :: i + 1 <= m <= |key| ==> MatchAt(key, m, file).None?) by {
        if forall m :: i + 1 <= m <= |key| ==> MatchAt(key, m, file).None? {
          forall m | i <= m <= |key| ensures MatchAt(key, m, file).None? {
            if m == i { assert MatchAt(key, m, file) == here; }
          }
        }
      }
    }
  }

  /** What the search from `i` finds is the match at the leftmost position
      at or after `i` where one starts. */
  lemma {:induction false} SearchFromIsLeftmost(key: string, file: string, i: nat)
    requires i <= |key| && SearchFrom(key, file, i).Some?
    ensures exists m :: i <= m <= |key| && MatchAt(key, m, file) == SearchFrom(key, file, i)
                     && forall m' :: i <= m' < m ==> MatchAt(key, m', file).None?
    decreases |key| - i
  {
    if MatchAt(key, i, file).Some? {
      assert MatchAt(key, i, file) == SearchFrom(key, file, i);
    } else {
      SearchFromIsLeftmost(key, file, i + 1);
      var m :| i + 1 <= m <= |key| && MatchAt(key, m, file) == SearchFrom(key, file, i + 1)
               && forall m' :: i + 1 <= m' < m ==> MatchAt(key, m', file).None?;
      assert forall m' :: i <= m' < m ==> MatchAt(key, m', file).None?;
    }
  }

  /** `Object.keys(zip.files).find(key => key.match(pattern))`: the index of
      the first entry whose name matches, or None. */
  function FindEntry(entries: seq<Entry>, file: string): (r: Option<nat>)
    ensures r.Some? ==> r.value < |entries| && Search(entries[r.value].name, file).Some?
    ensures r.Some? ==> forall j :: 0 <= j < r.value ==> Search(entries[j].name, file).None?
    ensures r.None? <==> forall j :: 0 <= j < |entries| ==> Search(entries[j].name, file).None?
  {
    if entries == [] then None
    else if Search(entries[0].name, file).Some? then Some(0)
    else
      var rest := FindEntry(entries[1..], file);
      assert forall j :: 1 <= j < |entries| ==> entries[j] == entries[1..][j - 1];
      if rest.Some? then Some(rest.value + 1) else None
  }

  /** `FindEntry` finds the first matching entry. */
  lemma {:induction false} FindEntryAt(entries: seq<Entry>, file: string, i: nat)
    requires i < |entries| && Search(entries[i].name, file).Some?
    requires forall j :: 0 <= j < i ==> Search(entries[j].name, file).None?
    ensures FindEntry(entries, file) == Some(i)
  {
    if i > 0 {
      assert forall j :: 0 <= j < i - 1 ==> entries[1..][j] == entries[j + 1];
      FindEntryAt(entries[1..], file, i - 1);
    }
  }

  // ----- anchored folder patterns of `zip.folder(regex)` -----------------------

  /** `\w`: an ASCII letter, digit or underscore. */
  predicate IsWordChar(c: char) {
    ('a' <= c <= 'z') || ('A' <= c <= 'Z') || ('0' <= c <= '9') || c == '_'
  }

  /** `^\w+\/` matched against `s` from position `j`: one or more word
      characters followed by a slash. */
  predicate WordThenSlash(s: string, j: nat)
    requires j <= |s|
  {
    var k := NextSlash(s, j);
    k > j && k < |s| && forall m :: j <= m < k ==> IsWordChar(s[m])
  }

  /** `/^(Backend|Frontend|Core)\/\w+\//` tested on a folder name. */
  predicate IsSw5RootName(name: string) {
    exists ns :: ns in ["Backend", "Frontend", "Core"] && Text.StartsWith(name, ns + "/") && WordThenSlash(name, |ns| + 1)
  }

  /** `/^\w+\//` tested on a folder name. */
  predicate IsSw6RootName(name: string) {
    WordThenSlash(name, 0)
  }

  /** `zip.folder(regex)[0]`: the index of the first folder entry whose name
      passes `p`, or None. */
  function FirstFolder(entries: seq<Entry>, p: string -> bool): (r: Option<nat>)
    ensures r.Some? ==> r.value < |entries|
  {
    if entries == [] then None
    else if entries[0].isDir && p(entries[0].name) then Some(0)
    else
      var rest := FirstFolder(entries[1..], p);
      if rest.Some? then Some(rest.value + 1) else None
  }

  /** `FirstFolder` finds a folder that passes `p` with none before it, and
      finds nothing exactly when no folder passes. */
  lemma {:induction false} FirstFolderIsFirst(entries: seq<Entry>, p: string -> bool)
    ensures var r := FirstFolder(entries, p);
      && (r.Some? ==> r.value < |entries| && entries[r.value].isDir && p(entries[r.value].name))
      && (r.Some? ==> forall j :: 0 <= j < r.value ==> !(entries[j].isDir && p(entries[j].name)))
      && (r.None? <==> forall j :: 0 <= j < |entries| ==> !(entries[j].isDir && p(entries[j].name)))
  {
    if entries != [] && !(entries[0].isDir && p(entries[0].name)) {
      FirstFolderIsFirst(entries[1..], p);
      assert forall j :: 1 <= j < |entries| ==> entries[j] == entries[1..][j - 1];
    }
  }

  /** The folder `FirstFolder` finds passes `p`. */
  lemma {:induction false} FirstFolderPasses(entries: seq<Entry>, p: string -> bool)
    requires FirstFolder(entries, p).Some?
    ensures entries[FirstFolder(entries, p).value].isDir && p(entries[FirstFolder(entries, p).value].name)
  {
    if !(entries[0].isDir && p(entries[0].name)) {
      FirstFolderPasses(entries[1..], p);
    }
  }
}
