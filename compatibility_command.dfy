/** The compatibility command (lib/commands/compatibility.js): every binary
    of a plugin has its list of compatible Shopware versions moved so that
    its lowest version becomes the requested minimum. The list is sorted in
    place; a higher current minimum is lowered by adding the selectable
    catalog versions below it, a lower one is raised by dropping the
    versions below the minimum, an equal one is left alone, and an emptied
    list falls back to the catalog entry of the minimum itself. The binary
    is saved after a pause of half a second, and a failed save does not
    stop the loop. */
module CompatibilityCommand {
  import opened Common
  import opened Http
  import Semver
  import PI = PluginInfo
  import SO = StoreObjects
  import SC = StoreCommander

  const CompatibilityKey := "compatibleSoftwareVersions"
  /** The pause before each save, in milliseconds. */
  const SaveDelay: nat := 500

  // ----- reading catalog entries ------------------------------------------------

  /** The version `semver` reads from `entry.name`; reading the name of
      null throws, and a missing or malformed name is an invalid version. */
  function EntryVersion(e: Json): (r: Result<Semver.Version>)
    ensures r.Ok? <==> e.JObj? && "name" in e.props && PI.SemverOf(e.props["name"]).Ok?
    ensures r.Ok? ==> r.value == PI.SemverOf(e.props["name"]).value
    ensures r.Fail? ==> r.error.TypeError?
  {
    var name :- Prop(Some(e), "name");
    if name.None? then Fail(TypeError("Invalid Version")) else PI.SemverOf(name.value)
  }

  /** The key the list is sorted by, once every name is known to be read. */
  function NameKey(e: Json): Semver.Version {
    if EntryVersion(e).Ok? then EntryVersion(e).value else Semver.Version(0, 0, 0)
  }

  /** An entry whose `selectable` is truthy. */
  predicate Selected(e: Json) {
    e.JObj? && IsTruthy(SO.Lookup(e.props, "selectable"))
  }

  /** `entry.selectable`, read as a condition. */
  function IsSelectable(e: Json): (r: Result<bool>)
    ensures r.Fail? <==> e.JNull?
    ensures r == Ok(true) <==> Selected(e)
  {
    var s :- Prop(Some(e), "selectable");
    Ok(IsTruthy(s))
  }

  /** `version.selectable && semver.gte(version.name, min) &&
      semver.lt(version.name, current)`, short-circuiting. */
  function InRange(e: Json, lo: Semver.Version, cur: Semver.Version): (r: Result<bool>)
    ensures r == Ok(true) <==> Selected(e) && EntryVersion(e).Ok? && Semver.LessEq(lo, EntryVersion(e).value) && Semver.Less(EntryVersion(e).value, cur)
    ensures r.Fail? <==> e.JNull? || (Selected(e) && EntryVersion(e).Fail?)
  {
    var s :- IsSelectable(e);
    if !s then Ok(false)
    else
      var v :- EntryVersion(e);
      Ok(Semver.LessEq(lo, v) && Semver.Less(v, cur))
  }

  /** `version.selectable && semver.gte(version.name, min)`. */
  function AtLeast(e: Json, lo: Semver.Version): (r: Result<bool>)
    ensures r == Ok(true) <==> Selected(e) && EntryVersion(e).Ok? && Semver.LessEq(lo, EntryVersion(e).value)
    ensures r.Fail? <==> e.JNull? || (Selected(e) && EntryVersion(e).Fail?)
  {
    var s :- IsSelectable(e);
    if !s then Ok(false)
    else
      var v :- EntryVersion(e);
      Ok(Semver.LessEq(lo, v))
  }

  /** `version.selectable && semver.eq(version.name, min)`. */
  function Matches(e: Json, lo: Semver.Version): (r: Result<bool>)
    ensures r == Ok(true) <==> Selected(e) && EntryVersion(e) == Ok(lo)
    ensures r.Fail? <==> e.JNull? || (Selected(e) && EntryVersion(e).Fail?)
  {
    var s :- IsSelectable(e);
    if !s then Ok(false)
    else
      var v :- EntryVersion(e);
      Ok(v == lo)
  }

  // ----- filter and find with a callback that may throw -------------------------

  /** `items.filter(keep)`: the callback runs on the items in order, and the
      first item it throws on makes the whole filter throw. */
  function Kept(items: seq<Json>, keep: Json -> Result<bool>): (r: Result<seq<Json>>)
    ensures r.Ok? <==> forall i :: 0 <= i < |items| ==> keep(items[i]).Ok?
    ensures r.Ok? ==> forall x :: x in r.value <==> x in items && keep(x) == Ok(true)
    ensures r.Ok? ==> |r.value| <= |items|
    ensures r.Fail? ==> exists i :: 0 <= i < |items| && keep(items[i]) == Fail(r.error)
  {
    if items == [] then Ok([])
    else
      var k :- keep(items[0]);
      var rest :- Kept(items[1..], keep);
      assert forall x :: x in items <==> x == items[0] || x in items[1..];
      Ok(if k then [items[0]] + rest else rest)
  }

  /** Filtering keeps the order of the items: the filter of two lists one
      after the other is the filter of the first followed by the filter of
      the second. */
  lemma {:induction false} KeptAppend(a: seq<Json>, b: seq<Json>, keep: Json -> Result<bool>)
    requires Kept(a + b, keep).Ok?
    ensures Kept(a, keep).Ok? && Kept(b, keep).Ok?
    ensures Kept(a + b, keep).value == Kept(a, keep).value + Kept(b, keep).value
    decreases |a|
  {
    if a == [] {
      assert a + b == b;
    } else {
      var ab := a + b;
      assert ab[0] == a[0] && ab[1..] == a[1..] + b;
      KeptFirst(ab, keep);
      KeptAppend(a[1..], b, keep);
      KeptFirst(a, keep);
      var head := if keep(a[0]) == Ok(true) then [a[0]] else [];
      Regrouped(head, Kept(a[1..], keep).value, Kept(b, keep).value);
    }
  }

  /** One step of the filter: the callback on the first item, then the
      filter of the rest. */
  lemma KeptFirst(items: seq<Json>, keep: Json -> Result<bool>)
    requires items != []
    ensures Kept(items, keep).Ok? <==> keep(items[0]).Ok? && Kept(items[1..], keep).Ok?
    ensures Kept(items, keep).Ok? ==>
      Kept(items, keep).value == (if keep(items[0]) == Ok(true) then [items[0]] else []) + Kept(items[1..], keep).value
  {
  }

  /** Concatenation regroups. */
  lemma Regrouped(x: seq<Json>, y: seq<Json>, z: seq<Json>)
    ensures x + (y + z) == (x + y) + z
  {
  }

  /** The first item the filter keeps is the first item the callback
      accepts. */
  lemma {:induction false} KeptHeadIsFirst(items: seq<Json>, keep: Json -> Result<bool>)
    requires Kept(items, keep).Ok? && Kept(items, keep).value != []
    ensures exists i ::
      && 0 <= i < |items| && items[i] == Kept(items, keep).value[0] && keep(items[i]) == Ok(true)
      && forall j :: 0 <= j < i ==> keep(items[j]) == Ok(false)
  {
    if keep(items[0]) == Ok(false) {
      KeptHeadIsFirst(items[1..], keep);
      var i :| 0 <= i < |items[1..]| && items[1..][i] == Kept(items[1..], keep).value[0] && keep(items[1..][i]) == Ok(true)
        && forall j :: 0 <= j < i ==> keep(items[1..][j]) == Ok(false);
      assert items[i + 1] == Kept(items, keep).value[0];
      forall j | 0 <= j < i + 1 ensures keep(items[j]) == Ok(false) {
        if j > 0 {
          assert items[j] == items[1..][j - 1];
        }
      }
    }
  }

  /** `items.find(test)`: the first item the callback accepts, undefined
      when it accepts none, and the error of the first item it throws on
      before that. */
  function First(items: seq<Json>, test: Json -> Result<bool>): (r: Result<Option<Json>>)
    ensures r == Ok(None) <==> forall i :: 0 <= i < |items| ==> test(items[i]) == Ok(false)
    ensures r.Ok? && r.value.Some? ==>
      exists i :: 0 <= i < |items| && items[i] == r.value.value && test(items[i]) == Ok(true)
        && forall j :: 0 <= j < i ==> test(items[j]) == Ok(false)
    ensures r.Fail? ==> exists i :: 0 <= i < |items| && test(items[i]) == Fail(r.error)
  {
    if items == [] then Ok(None)
    else
      var t :- test(items[0]);
      if t then Ok(Some(items[0]))
      else
        var rest := First(items[1..], test);
        assert forall i :: 0 < i < |items| ==> items[i] == items[1..][i - 1];
        assert rest.Ok? && rest.value.Some? ==> exists i :: 0 <= i < |items[1..]| && items[1..][i] == rest.value.value && test(items[i + 1]) == Ok(true)
          && forall j :: 0 <= j < i + 1 ==> test(items[j]) == Ok(false);
        rest
  }

  // ----- the current minimum -----------------------------------------------------

  /** `binary.compatibleSoftwareVersions`, which must be an array. */
  function Entries(props: map<string, Json>): (r: Result<seq<Json>>)
    ensures r.Ok? <==> SO.Lookup(props, CompatibilityKey).Some? && props[CompatibilityKey].JArr?
    ensures r.Ok? ==> r.value == props[CompatibilityKey].items
    ensures r.Fail? ==> r.error.TypeError?
  {
    match SO.Lookup(props, CompatibilityKey)
    case Some(JArr(items)) => Ok(items)
    case _ => Fail(TypeError("compatibleSoftwareVersions is not an array"))
  }

  /** `list.sort((l, r) => semver.compare(l.name, r.name))` on a non-empty
      list: a single entry is not compared; with two or more, every name is
      read, and one `semver` cannot read throws. */
  function SortedByName(entries: seq<Json>): (r: Result<seq<Json>>)
    ensures |entries| <= 1 ==> r == Ok(entries)
    ensures |entries| >= 2 ==> (r.Ok? <==> forall i :: 0 <= i < |entries| ==> EntryVersion(entries[i]).Ok?)
    ensures r.Ok? ==> Semver.SortedBy(r.value, NameKey) && multiset(r.value) == multiset(entries)
    ensures r.Fail? ==> r.error.TypeError?
  {
    if |entries| <= 1 then Ok(entries)
    else if forall i :: 0 <= i < |entries| ==> EntryVersion(entries[i]).Ok? then Ok(Semver.SortBy(entries, NameKey))
    else Fail(TypeError("Invalid Version"))
  }

  /** The binary's list as the sort leaves it. */
  function Sorting(props: map<string, Json>): Result<seq<Json>> {
    var entries :- Entries(props);
    SortedByName(entries)
  }

  /** `shopwareVersions`, the catalog of the store's statics, which must be
      an array. */
  function CatalogItems(catalog: Option<Json>): (r: Result<seq<Json>>)
    ensures r.Ok? <==> catalog.Some? && catalog.value.JArr?
    ensures r.Ok? ==> r.value == catalog.value.items
    ensures r.Fail? ==> r.error.TypeError?
  {
    match catalog
    case Some(JArr(items)) => Ok(items)
    case _ => Fail(TypeError("shopwareVersions.filter is not a function"))
  }

  /** `minCompatibleVersion`: the name of the first entry of the sorted
      list, or, for an empty list, the name of the first selectable catalog
      entry (reading it of none throws). */
  function CurrentMinimum(sorted: seq<Json>, catalog: Option<Json>): (r: Result<Option<Json>>)
    ensures sorted == [] ==> (r.Ok? <==> CatalogItems(catalog).Ok? && Kept(CatalogItems(catalog).value, IsSelectable).Ok?
                                         && Kept(CatalogItems(catalog).value, IsSelectable).value != [])
    ensures sorted == [] && r.Ok? ==>
      exists i :: 0 <= i < |catalog.value.items| && Selected(catalog.value.items[i])
        && r.value == SO.Lookup(catalog.value.items[i].props, "name")
        && forall j :: 0 <= j < i ==> !Selected(catalog.value.items[j])
  {
    if sorted != [] then Prop(Some(sorted[0]), "name")
    else
      var items :- CatalogItems(catalog);
      var selectable :- Kept(items, IsSelectable);
      if selectable == [] then Fail(TypeError("cannot read property name of undefined"))
      else
        KeptHeadIsFirst(items, IsSelectable);
        Prop(Some(selectable[0]), "name")
  }

  /** The version the current minimum names. */
  function CurrentVersion(sorted: seq<Json>, catalog: Option<Json>): Result<Semver.Version> {
    var name :- CurrentMinimum(sorted, catalog);
    if name.None? then Fail(TypeError("Invalid Version")) else PI.SemverOf(name.value)
  }

  /** The current minimum of a sorted non-empty list is the lowest version
      of the list. */
  lemma CurrentMinimumIsLeast(entries: seq<Json>, sorted: seq<Json>, catalog: Option<Json>)
    requires SortedByName(entries) == Ok(sorted) && CurrentVersion(sorted, catalog).Ok? && entries != []
    ensures forall e :: e in entries ==> EntryVersion(e).Ok? && Semver.LessEq(CurrentVersion(sorted, catalog).value, EntryVersion(e).value)
  {
    assert sorted[0] in multiset(entries);
    forall e | e in entries
      ensures EntryVersion(e).Ok? && Semver.LessEq(CurrentVersion(sorted, catalog).value, EntryVersion(e).value)
    {
      assert e in multiset(sorted);
      var j :| 0 <= j < |sorted| && sorted[j] == e;
      if |entries| >= 2 {
        var i :| 0 <= i < |entries| && entries[i] == e;
        assert EntryVersion(entries[i]).Ok?;
        var k :| 0 <= k < |entries| && entries[k] == sorted[0];
        assert EntryVersion(entries[k]).Ok?;
        if j > 0 {
          assert Semver.LessEq(NameKey(sorted[0]), NameKey(sorted[j]));
        }
      }
    }
  }

  // ----- lowering, raising and the fallback --------------------------------------

  /** The list after lowering: the existing entries, followed by the
      selectable catalog versions from the minimum up to, not including,
      the current minimum. */
  function Lowered(sorted: seq<Json>, items: seq<Json>, lo: Semver.Version, cur: Semver.Version): (r: Result<seq<Json>>)
    ensures r.Ok? <==> forall i :: 0 <= i < |items| ==> InRange(items[i], lo, cur).Ok?
    ensures r.Ok? ==> |r.value| >= |sorted| && r.value[..|sorted|] == sorted
    ensures r.Ok? ==> forall x :: x in r.value[|sorted|..] <==>
      x in items && Selected(x) && EntryVersion(x).Ok? && Semver.LessEq(lo, EntryVersion(x).value) && Semver.Less(EntryVersion(x).value, cur)
  {
    var added :- Kept(items, e => InRange(e, lo, cur));
    assert (sorted + added)[..|sorted|] == sorted && (sorted + added)[|sorted|..] == added;
    Ok(sorted + added)
  }

  /** The list after raising: the existing entries that are selectable and
      not below the minimum, in order. */
  function Raised(sorted: seq<Json>, lo: Semver.Version): (r: Result<seq<Json>>)
    ensures r.Ok? <==> forall i :: 0 <= i < |sorted| ==> AtLeast(sorted[i], lo).Ok?
    ensures r.Ok? ==> forall x :: x in r.value <==>
      x in sorted && Selected(x) && EntryVersion(x).Ok? && Semver.LessEq(lo, EntryVersion(x).value)
  {
    Kept(sorted, e => AtLeast(e, lo))
  }

  /** `[shopwareVersions.find(v => v.selectable && semver.eq(v.name, min))]`:
      the first selectable catalog entry of the minimum, or null (the
      `undefined` of an array sent as JSON) when there is none. */
  function Fallback(items: seq<Json>, lo: Semver.Version): (r: Result<Json>)
    ensures r == Ok(JNull) <==> forall i :: 0 <= i < |items| ==> Matches(items[i], lo) == Ok(false)
    ensures r.Ok? && r.value != JNull ==> r.value in items && Selected(r.value) && EntryVersion(r.value) == Ok(lo)
  {
    var found :- First(items, e => Matches(e, lo));
    Ok(if found.Some? then found.value else JNull)
  }

  /** What a binary's minimum calls for: nothing, or a new list to save. */
  datatype Adjustment = Unchanged | Replaced(list: seq<Json>)

  /** A list the adjustment emptied falls back to the minimum's entry. */
  function WithFallback(list: seq<Json>, catalog: Option<Json>, lo: Semver.Version): (r: Result<Adjustment>)
    ensures list != [] ==> r == Ok(Replaced(list))
    ensures r.Ok? ==> r.value.Replaced? && r.value.list != []
  {
    if list != [] then Ok(Replaced(list))
    else
      var items :- CatalogItems(catalog);
      var entry :- Fallback(items, lo);
      Ok(Replaced([entry]))
  }

  /** Lines 68 to 86 for one sorted list, up to the assignment: the
      current minimum is compared with the requested one; a lower request
      assigns the lowered list, a higher one the raised list, and an equal
      one changes nothing. */
  function Assignment(sorted: seq<Json>, catalog: Option<Json>, minVersion: string): (r: Result<Adjustment>)
    ensures r == Ok(Unchanged) <==> CurrentVersion(sorted, catalog).Ok? && PI.SemverOf(JStr(minVersion)) == CurrentVersion(sorted, catalog)
    ensures r.Ok? ==> CurrentVersion(sorted, catalog).Ok? && PI.SemverOf(JStr(minVersion)).Ok?
    ensures r.Fail? ==> r.error.TypeError?
  {
    var current :- CurrentMinimum(sorted, catalog);
    var lo :- PI.SemverOf(JStr(minVersion));
    var cur :- if current.None? then Fail(TypeError("Invalid Version")) else PI.SemverOf(current.value);
    if Semver.Less(lo, cur) then
      var items :- CatalogItems(catalog);
      var lowered :- Lowered(sorted, items, lo, cur);
      Ok(Replaced(lowered))
    else if Semver.Less(cur, lo) then
      var raised :- Raised(sorted, lo);
      Ok(Replaced(raised))
    else
      Ok(Unchanged)
  }

  /** The body of the loop for one sorted list: the list assigned, with the
      minimum's entry when the assignment emptied it. */
  function Adjusted(sorted: seq<Json>, catalog: Option<Json>, minVersion: string): (r: Result<Adjustment>)
    ensures r == Ok(Unchanged) <==> CurrentVersion(sorted, catalog).Ok? && PI.SemverOf(JStr(minVersion)) == CurrentVersion(sorted, catalog)
    ensures r.Ok? ==> CurrentVersion(sorted, catalog).Ok? && PI.SemverOf(JStr(minVersion)).Ok?
    ensures r.Fail? ==> r.error.TypeError?
  {
    var assignment :- Assignment(sorted, catalog, minVersion);
    if assignment.Unchanged? then Ok(Unchanged)
    else WithFallback(assignment.list, catalog, PI.SemverOf(JStr(minVersion)).value)
  }

  /** When the assignment succeeds and only the fallback throws, the list
      assigned was empty: the fallback runs only for an empty list. */
  lemma FallbackThrowsOnlyOnEmpty(sorted: seq<Json>, catalog: Option<Json>, minVersion: string)
    requires Assignment(sorted, catalog, minVersion).Ok? && Adjusted(sorted, catalog, minVersion).Fail?
    ensures Assignment(sorted, catalog, minVersion).value == Replaced([])
  {
  }

  // ----- what an adjustment promises ----------------------------------------------

  /** An entry that does not bring the minimum below `lo`: null (the
      fallback that found nothing) or an entry of version `lo` or above. */
  predicate NotBelow(e: Json, lo: Semver.Version) {
    e.JNull? || (EntryVersion(e).Ok? && Semver.LessEq(lo, EntryVersion(e).value))
  }

  /** Every existing entry of a sorted list is at or above its current
      minimum, and so at or above any version not above that minimum. */
  lemma ExistingNotBelow(entries: seq<Json>, sorted: seq<Json>, catalog: Option<Json>, lo: Semver.Version)
    requires SortedByName(entries) == Ok(sorted) && CurrentVersion(sorted, catalog).Ok?
    requires Semver.LessEq(lo, CurrentVersion(sorted, catalog).value)
    ensures forall e :: e in sorted ==> NotBelow(e, lo)
  {
    var cur := CurrentVersion(sorted, catalog).value;
    if sorted != [] {
      CurrentMinimumIsLeast(entries, sorted, catalog);
      forall e | e in sorted ensures NotBelow(e, lo) {
        assert e in multiset(sorted);
        assert e in entries;
        if lo != cur && cur != EntryVersion(e).value {
          Semver.LessTransitive(lo, cur, EntryVersion(e).value);
        }
      }
    }
  }

  /** The list a fallback gives holds nothing below the minimum. */
  lemma FallbackNotBelow(catalog: Option<Json>, lo: Semver.Version, list: seq<Json>)
    requires WithFallback([], catalog, lo) == Ok(Replaced(list))
    ensures forall e :: e in list ==> NotBelow(e, lo)
  {
  }

  /** After a lowering or a raising, no entry of the new list is below the
      requested minimum. */
  lemma AdjustedNotBelow(entries: seq<Json>, sorted: seq<Json>, catalog: Option<Json>, minVersion: string, list: seq<Json>)
    requires SortedByName(entries) == Ok(sorted)
    requires Adjusted(sorted, catalog, minVersion) == Ok(Replaced(list))
    ensures Semver.Parse(minVersion).Some?
    ensures forall e :: e in list ==> NotBelow(e, Semver.Parse(minVersion).value)
  {
    var lo := PI.SemverOf(JStr(minVersion)).value;
    var cur := CurrentVersion(sorted, catalog).value;
    if Semver.Less(lo, cur) {
      var lowered := Lowered(sorted, CatalogItems(catalog).value, lo, cur).value;
      if lowered == [] {
        FallbackNotBelow(catalog, lo, list);
      } else {
        ExistingNotBelow(entries, sorted, catalog, lo);
        assert list == lowered[..|sorted|] + lowered[|sorted|..];
      }
    } else {
      assert Semver.Less(cur, lo);
      var raised := Raised(sorted, lo).value;
      if raised == [] {
        FallbackNotBelow(catalog, lo, list);
      }
    }
  }

  /** Lowering keeps every existing entry, in sorted order, at the head
      of the list, and adds exactly the selectable catalog entries from the
      minimum up to the current minimum (or, when there are none and the
      list was empty, the minimum's entry or null). */
  lemma LoweringKeepsEntries(sorted: seq<Json>, catalog: Option<Json>, minVersion: string, list: seq<Json>, lo: Semver.Version, cur: Semver.Version)
    requires Adjusted(sorted, catalog, minVersion) == Ok(Replaced(list))
    requires PI.SemverOf(JStr(minVersion)) == Ok(lo) && CurrentVersion(sorted, catalog) == Ok(cur) && Semver.Less(lo, cur)
    ensures catalog.Some? && catalog.value.JArr?
    ensures |list| >= |sorted| && list[..|sorted|] == sorted
    ensures forall x ::
      (x in catalog.value.items && Selected(x) && EntryVersion(x).Ok?
        && Semver.LessEq(lo, EntryVersion(x).value) && Semver.Less(EntryVersion(x).value, cur)) ==> x in list[|sorted|..]
    ensures forall x :: x in list[|sorted|..] ==>
      x.JNull? || (x in catalog.value.items && Selected(x) && EntryVersion(x).Ok?
        && Semver.LessEq(lo, EntryVersion(x).value) && Semver.Less(EntryVersion(x).value, cur))
  {
    var lowered := Lowered(sorted, catalog.value.items, lo, cur).value;
    if lowered == [] {
      assert sorted == [];
    }
  }

  /** Raising keeps exactly the existing entries that are selectable and
      not below the minimum; when none is left, the list is the minimum's
      catalog entry alone, or null. */
  lemma RaisingKeepsEntries(sorted: seq<Json>, catalog: Option<Json>, minVersion: string, list: seq<Json>, lo: Semver.Version, cur: Semver.Version)
    requires Adjusted(sorted, catalog, minVersion) == Ok(Replaced(list))
    requires PI.SemverOf(JStr(minVersion)) == Ok(lo) && CurrentVersion(sorted, catalog) == Ok(cur) && Semver.Less(cur, lo)
    ensures forall x :: x in sorted && Selected(x) && EntryVersion(x).Ok? && Semver.LessEq(lo, EntryVersion(x).value) ==> x in list
    ensures forall x :: x in list && x in sorted ==> Selected(x) && EntryVersion(x).Ok? && Semver.LessEq(lo, EntryVersion(x).value)
    ensures forall x :: x in list && x !in sorted ==> list == [x] && (x.JNull? || (Selected(x) && EntryVersion(x) == Ok(lo)))
  {
    Semver.LessTrichotomy(lo, cur);
    var raised := Raised(sorted, lo).value;
    if raised == [] {
      var entry := Fallback(catalog.value.items, lo).value;
      assert list == [entry];
    }
  }

  /** An emptied list holds null only when the catalog has no selectable
      entry of the minimum. */
  lemma FallbackNullMeansNoEntry(sorted: seq<Json>, catalog: Option<Json>, minVersion: string, lo: Semver.Version)
    requires Adjusted(sorted, catalog, minVersion) == Ok(Replaced([JNull]))
    requires PI.SemverOf(JStr(minVersion)) == Ok(lo)
    ensures catalog.Some? && catalog.value.JArr?
    ensures forall x :: x in catalog.value.items ==> !(Selected(x) && EntryVersion(x) == Ok(lo))
  {
    var cur := CurrentVersion(sorted, catalog).value;
    if Semver.Less(lo, cur) {
      LoweredNotNull(sorted, catalog, lo, cur);
    } else {
      var raised := Raised(sorted, lo).value;
      assert JNull !in raised;
    }
    NoMatchNoEntry(CatalogItems(catalog).value, lo);
  }

  /** A lowering never yields the list of null alone. */
  lemma LoweredNotNull(sorted: seq<Json>, catalog: Option<Json>, lo: Semver.Version, cur: Semver.Version)
    requires CatalogItems(catalog).Ok? && Lowered(sorted, CatalogItems(catalog).value, lo, cur).Ok?
    requires CurrentMinimum(sorted, catalog).Ok?
    ensures Lowered(sorted, CatalogItems(catalog).value, lo, cur).value != [JNull]
  {
    var lowered := Lowered(sorted, CatalogItems(catalog).value, lo, cur).value;
    assert JNull !in lowered[|sorted|..];
    assert sorted != [] ==> sorted[0] != JNull;
  }

  /** A fallback of null means no catalog entry matched. */
  lemma NoMatchNoEntry(items: seq<Json>, lo: Semver.Version)
    requires Fallback(items, lo) == Ok(JNull)
    ensures forall x :: x in items ==> !(Selected(x) && EntryVersion(x) == Ok(lo))
  {
    forall x | x in items ensures !(Selected(x) && EntryVersion(x) == Ok(lo)) {
      var i :| 0 <= i < |items| && items[i] == x;
      assert Matches(items[i], lo) == Ok(false);
    }
  }

  // ----- the loop over the binaries ------------------------------------------------

  /** A PUT whose body holds a compatibility list no entry of which is
      below `lo`. */
  predicate PutNotBelow(s: Sent, lo: Semver.Version) {
    && s.verb == Put && s.data.JObj?
    && CompatibilityKey in s.data.props && s.data.props[CompatibilityKey].JArr?
    && forall e :: e in s.data.props[CompatibilityKey].items ==> NotBelow(e, lo)
  }

  /** The trace grew by one save: a pause, then a PUT whose list holds no
      entry below the minimum. */
  predicate OneSave(before: Net, after: Net, minVersion: string) {
    && Semver.Parse(minVersion).Some?
    && |after.sent| == |before.sent| + 1 && after.sent[..|before.sent|] == before.sent
    && PutNotBelow(after.sent[|before.sent|], Semver.Parse(minVersion).value)
    && after.sleeps == before.sleeps + [SaveDelay]
    && after.events == before.events
  }

  /** The trace grew by saves only, each as `OneSave` says. */
  predicate SavesOnly(before: Net, after: Net, minVersion: string) {
    && |before.sent| <= |after.sent|
    && after.sent[..|before.sent|] == before.sent
    && after.sleeps == before.sleeps + Copies(SaveDelay, |after.sent| - |before.sent|)
    && after.events == before.events
    && (|after.sent| > |before.sent| ==>
          && Semver.Parse(minVersion).Some?
          && forall j :: |before.sent| <= j < |after.sent| ==> PutNotBelow(after.sent[j], Semver.Parse(minVersion).value))
  }

  /** One save followed by saves are saves. */
  lemma SavesOnlyPrepend(before: Net, mid: Net, after: Net, minVersion: string)
    requires OneSave(before, mid, minVersion) && SavesOnly(mid, after, minVersion)
    ensures SavesOnly(before, after, minVersion)
  {
    var n := |after.sent| - |mid.sent|;
    AppendCopies(before.sleeps, SaveDelay, n);
    assert after.sent[..|before.sent|] == after.sent[..|mid.sent|][..|before.sent|];
    forall j | |before.sent| <= j < |after.sent| ensures PutNotBelow(after.sent[j], Semver.Parse(minVersion).value) {
      if j < |mid.sent| {
        assert after.sent[j] == after.sent[..|mid.sent|][j];
      }
    }
  }

  /** The save of a binary with the adjusted list: the pause, then one PUT
      of the binary; its properties take the three fields of a saved
      binary's reply, and stay as put when the save fails. */
  function Saved(props: map<string, Json>, list: seq<Json>, pluginId: string, net: Net)
    : (o: (Result<bool>, map<string, Json>, Net))
    ensures var put := props[CompatibilityKey := JArr(list)];
      && o.0 == Ok(true)
      && o.2.sent == net.sent + [Sent(Put, SC.BinaryPath(pluginId, JsString(SO.Lookup(props, "id"))), None, JObj(put), None)]
      && o.2.sleeps == net.sleeps + [SaveDelay] && o.2.events == net.events
      && (o.1 == put || o.1 == SC.WrittenBack(put, o.1))
  {
    var put := props[CompatibilityKey := JArr(list)];
    var sent := Transmit(Paused(net, SaveDelay), Sent(Put, SC.BinaryPath(pluginId, JsString(SO.Lookup(props, "id"))), None, JObj(put), None));
    (Ok(true), if IsSuccess(sent.0) && !sent.0.data.JNull? then SC.WrittenBack(put, SO.Fields(sent.0.data)) else put, sent.1)
  }

  /** One binary, as a value: the result (whether a save was sent), the
      binary's new properties and the new trace. Its list is sorted in
      place; when the minimum differs, the adjusted list replaces it and
      the binary is saved, a failed save being only reported. A save
      carries a list no entry of which is below the minimum; only a list
      that cannot be read or adjusted fails, with a TypeError. A fallback
      that throws does so after the emptied list was assigned, and the
      binary keeps that empty list. */
  function Outcome(props: map<string, Json>, catalog: Option<Json>, minVersion: string, pluginId: string, net: Net)
    : (o: (Result<bool>, map<string, Json>, Net))
  {
    var sorting := Sorting(props);
    if sorting.Fail? then (Fail(sorting.error), props, net)
    else
      var assignment := Assignment(sorting.value, catalog, minVersion);
      var adjusted := Adjusted(sorting.value, catalog, minVersion);
      if assignment.Fail? then (Fail(assignment.error), props[CompatibilityKey := JArr(sorting.value)], net)
      else if adjusted.Fail? then (Fail(adjusted.error), props[CompatibilityKey := JArr(assignment.value.list)], net)
      else if adjusted.value.Unchanged? then (Ok(false), props[CompatibilityKey := JArr(sorting.value)], net)
      else Saved(props, adjusted.value.list, pluginId, net)
  }

  /** One binary fails only with a TypeError, and sends at most one save,
      after its pause and with a list no entry of which is below the
      minimum. */
  lemma OutcomeSavesOnce(props: map<string, Json>, catalog: Option<Json>, minVersion: string, pluginId: string, net: Net)
    ensures var o := Outcome(props, catalog, minVersion, pluginId, net);
      && (o.0.Fail? ==> o.0.error.TypeError?)
      && (o.0 == Ok(true) ==> OneSave(net, o.2, minVersion))
      && (o.0 != Ok(true) ==> o.2 == net)
  {
    var sorting := Sorting(props);
    if sorting.Ok? {
      var adjusted := Adjusted(sorting.value, catalog, minVersion);
      if adjusted.Ok? && adjusted.value.Replaced? {
        AdjustedNotBelow(Entries(props).value, sorting.value, catalog, minVersion, adjusted.value.list);
      }
    }
  }

  /** A lowering or raising that empties the list, followed by a fallback
      that throws, leaves the binary holding `[]` and sends nothing. */
  lemma EmptiedListStays(props: map<string, Json>, catalog: Option<Json>, minVersion: string, pluginId: string, net: Net)
    requires Sorting(props).Ok? && Assignment(Sorting(props).value, catalog, minVersion).Ok?
    requires Adjusted(Sorting(props).value, catalog, minVersion).Fail?
    ensures var o := Outcome(props, catalog, minVersion, pluginId, net);
      o.0.Fail? && o.1 == props[CompatibilityKey := JArr([])] && o.2 == net
  {
    FallbackThrowsOnlyOnEmpty(Sorting(props).value, catalog, minVersion);
  }

  /** `binary => { ... }`, the body of the loop, on one binary. */
  method UpdateBinary(commander: SC.Commander, plugin: SO.Plugin, binary: SO.Binary, catalog: Option<Json>, minVersion: string)
    returns (r: Result<bool>)
    modifies binary, commander.remote
    ensures (r, binary.props, commander.remote.net) == Outcome(old(binary.props), catalog, minVersion, plugin.Id(), old(commander.remote.net))
  {
    var before := binary.props;
    var entries :- Entries(binary.props);
    var sorted :- SortedByName(entries);
    binary.props := binary.props[CompatibilityKey := JArr(sorted)];
    var assignment :- Assignment(sorted, catalog, minVersion);
    if assignment.Unchanged? {
      return Ok(false);
    }
    binary.props := before[CompatibilityKey := JArr(assignment.list)];
    var adjusted :- WithFallback(assignment.list, catalog, PI.SemverOf(JStr(minVersion)).value);
    binary.props := before[CompatibilityKey := JArr(adjusted.list)];
    assert SO.Lookup(binary.props, "id") == SO.Lookup(before, "id");
    commander.remote.Pause(SaveDelay);
    var saved := commander.SavePluginBinary(plugin, binary);
    r := Ok(true);
  }

  /** What the loop does to one binary: its result, its new properties and
      the new trace, from its properties and the trace. */
  type Step = (map<string, Json>, Net) -> (Result<bool>, map<string, Json>, Net)

  /** `sequentiallyAwaitEach(items, step)`, as a value on the items'
      properties: the items are handled from the first, each on the trace
      the previous one left; the first that fails stops the loop with its
      error and leaves the items after it as they were. */
  function InTurn(props: seq<map<string, Json>>, step: Step, net: Net): (o: (Result<()>, seq<map<string, Json>>, Net))
    ensures |o.1| == |props|
    decreases |props|
  {
    if props == [] then (Ok(()), [], net)
    else
      var first := step(props[0], net);
      if first.0.Fail? then (Fail(first.0.error), [first.1] + props[1..], first.2)
      else
        var rest := InTurn(props[1..], step, first.2);
        (rest.0, [first.1] + rest.1, rest.2)
  }

  /** The body of the compatibility loop as a `Step`. */
  function Adjusting(catalog: Option<Json>, minVersion: string, pluginId: string): Step {
    (props, net) => Outcome(props, catalog, minVersion, pluginId, net)
  }

  /** The loop over the binaries, as a value on their properties: each
      binary as `Outcome` says, from the first, until a list that cannot be
      read or adjusted stops it. */
  function UpdateAll(props: seq<map<string, Json>>, catalog: Option<Json>, minVersion: string, pluginId: string, net: Net)
    : (o: (Result<()>, seq<map<string, Json>>, Net))
  {
    InTurn(props, Adjusting(catalog, minVersion, pluginId), net)
  }

  /** The loop fails only with a TypeError, and sends saves only, at most
      one per binary, each after its pause and with a list no entry of
      which is below the minimum. */
  lemma {:induction false} UpdateAllSavesOnly(props: seq<map<string, Json>>, catalog: Option<Json>, minVersion: string, pluginId: string, net: Net)
    ensures var o := UpdateAll(props, catalog, minVersion, pluginId, net);
      && (o.0.Fail? ==> o.0.error.TypeError?)
      && SavesOnly(net, o.2, minVersion) && |o.2.sent| <= |net.sent| + |props|
    decreases |props|
  {
    if props != [] {
      var step := Outcome(props[0], catalog, minVersion, pluginId, net);
      assert Adjusting(catalog, minVersion, pluginId)(props[0], net) == step;
      OutcomeSavesOnce(props[0], catalog, minVersion, pluginId, net);
      if step.0.Ok? {
        var rest := UpdateAll(props[1..], catalog, minVersion, pluginId, step.2);
        UpdateAllSavesOnly(props[1..], catalog, minVersion, pluginId, step.2);
        if step.0 == Ok(true) {
          SavesOnlyPrepend(net, step.2, rest.2, minVersion);
        }
      }
    }
  }

  /** The loop from the item at `i` stops there when that item's step
      fails: the item takes its new properties, the ones after it keep
      theirs. */
  lemma InTurnStops(props: seq<map<string, Json>>, i: nat, step: Step, net: Net, first: (Result<bool>, map<string, Json>, Net))
    requires i < |props| && step(props[i], net) == first && first.0.Fail?
    ensures var o := InTurn(props[i..], step, net);
      && o.0 == Fail(first.0.error) && o.2 == first.2 && o.1[0] == first.1
      && forall j :: i < j < |props| ==> o.1[j - i] == props[j]
  {
    assert props[i..][0] == props[i] && props[i..][1..] == props[i + 1..];
  }

  /** The loop from the item at `i` goes on with the next item, on the
      trace the step left, when that item's step succeeds. */
  lemma InTurnGoesOn(props: seq<map<string, Json>>, i: nat, step: Step, net: Net, first: (Result<bool>, map<string, Json>, Net))
    requires i < |props| && step(props[i], net) == first && first.0.Ok?
    ensures var o := InTurn(props[i..], step, net);
      var rest := InTurn(props[i + 1..], step, first.2);
      && o.0 == rest.0 && o.2 == rest.2 && o.1[0] == first.1
      && forall k :: 0 < k < |o.1| ==> o.1[k] == rest.1[k - 1]
  {
    assert props[i..][0] == props[i] && props[i..][1..] == props[i + 1..];
  }

  /** `step` does to one binary what `Outcome` does. */
  ghost predicate Agrees(step: Step, catalog: Option<Json>, minVersion: string, pluginId: string) {
    forall props, net {:trigger Outcome(props, catalog, minVersion, pluginId, net)} ::
      step(props, net) == Outcome(props, catalog, minVersion, pluginId, net)
  }

  /** The callback on the binary at `i`, seen through a step that agrees
      with `Outcome`: the loop reasons about the step only. The binary
      takes the properties the step gives, and the ones after it are not
      touched. */
  method Visit(commander: SC.Commander, plugin: SO.Plugin, i: nat, catalog: Option<Json>, minVersion: string,
               ghost start: seq<map<string, Json>>, ghost step: Step)
    returns (r: Result<bool>)
    requires i < |plugin.binaries| == |start| && SO.DistinctBinaries(plugin.binaries)
    requires Agrees(step, catalog, minVersion, plugin.Id())
    requires forall j :: i <= j < |plugin.binaries| ==> plugin.binaries[j].props == start[j]
    modifies plugin.binaries[i], commander.remote
    ensures (r, plugin.binaries[i].props, commander.remote.net) == step(start[i], old(commander.remote.net))
    ensures forall j :: i < j < |plugin.binaries| ==> plugin.binaries[j].props == start[j]
  {
    var binary := plugin.binaries[i];
    r := UpdateBinary(commander, plugin, binary, catalog, minVersion);
    forall j | i < j < |plugin.binaries| ensures plugin.binaries[j].props == start[j] {
      assert binary != plugin.binaries[j];
    }
  }

  /** `sequentiallyAwaitEach` on the binaries from the one at `i`: that
      binary is handled, and, unless that fails, the ones after it. Each
      binary's properties change as `InTurn` says, and no other object
      does. */
  method UpdateFrom(commander: SC.Commander, plugin: SO.Plugin, i: nat, catalog: Option<Json>, minVersion: string,
                    ghost start: seq<map<string, Json>>, ghost step: Step)
    returns (r: Result<()>)
    requires i <= |plugin.binaries| == |start| && SO.DistinctBinaries(plugin.binaries)
    requires Agrees(step, catalog, minVersion, plugin.Id())
    requires forall j :: i <= j < |plugin.binaries| ==> plugin.binaries[j].props == start[j]
    modifies commander.remote, plugin.binaries[i..]
    ensures var o := InTurn(start[i..], step, old(commander.remote.net));
      && r == o.0 && commander.remote.net == o.2
      && forall j :: i <= j < |plugin.binaries| ==> plugin.binaries[j].props == o.1[j - i]
    decreases |plugin.binaries| - i
  {
    if i == |plugin.binaries| {
      return Ok(());
    }
    ghost var net := commander.remote.net;
    assert plugin.binaries[i] in plugin.binaries[i..];
    var saved := Visit(commander, plugin, i, catalog, minVersion, start, step);
    ghost var first := (saved, plugin.binaries[i].props, commander.remote.net);
    if saved.Fail? {
      InTurnStops(start, i, step, net, first);
      return Fail(saved.error);
    }
    r := UpdateFrom(commander, plugin, i + 1, catalog, minVersion, start, step);
    assert plugin.binaries[i] !in plugin.binaries[i + 1..];
    InTurnGoesOn(start, i, step, net, first);
    ghost var o := InTurn(start[i..], step, net);
    ghost var rest := InTurn(start[i + 1..], step, first.2);
    forall j | i < j < |plugin.binaries| ensures plugin.binaries[j].props == o.1[j - i] {
      assert o.1[j - i] == rest.1[j - (i + 1)];
    }
  }

  /** The loop over the plugin's binaries, one after another, as
      `UpdateAll` says on their properties: its result, the new
      properties of every binary and the new trace. */
  method UpdateCompatibility(commander: SC.Commander, plugin: SO.Plugin, catalog: Option<Json>, minVersion: string)
    returns (r: Result<()>)
    requires SO.DistinctBinaries(plugin.binaries)
    modifies commander.remote, set b: SO.Binary | b in plugin.binaries
    ensures var o := UpdateAll(old(SO.BinaryProps(plugin.binaries)), catalog, minVersion, plugin.Id(), old(commander.remote.net));
      && r == o.0 && commander.remote.net == o.2
      && forall j :: 0 <= j < |plugin.binaries| ==> plugin.binaries[j].props == o.1[j]
  {
    ghost var start := SO.BinaryProps(plugin.binaries);
    assert start[0..] == start && plugin.binaries[0..] == plugin.binaries;
    r := UpdateFrom(commander, plugin, 0, catalog, minVersion, start, Adjusting(catalog, minVersion, plugin.Id()));
  }
}
