/** The store's records as the commanders (lib/shopwareStoreCommander.js and
    lib/shopware_store_commander.js) keep and change them in place: a plugin
    with its binaries and reviews, each an object shared between the
    commander's cache and its callers. */
module StoreObjects {
  import opened Common

  function Lookup(m: map<string, Json>, key: string): Option<Json> {
    if key in m then Some(m[key]) else None
  }

  /** `obj[key] = value`; assigning `undefined` leaves the key unset. */
  function Assigned(m: map<string, Json>, key: string, value: Option<Json>): (r: map<string, Json>)
  {
    if value.Some? then m[key := value.value] else m - {key}
  }

  /** The properties of an object built from a JSON value; a value that is
      not an object contributes none. */
  function Fields(v: Json): map<string, Json> {
    if v.JObj? then v.props else map[]
  }

  /** The items of the array held under `key`; anything else holds none. */
  function ArrayItems(m: map<string, Json>, key: string): seq<Json> {
    if key in m && m[key].JArr? then m[key].items else []
  }

  /** Whether the property `key` holds an array, so that array methods
      such as `find` and `push` can be called on it. */
  predicate HoldsArray(m: map<string, Json>, key: string) {
    key in m && m[key].JArr?
  }

  /** A binary of a plugin. */
  class Binary {
    var props: map<string, Json>

    constructor (props: map<string, Json>)
      ensures this.props == props
    {
      this.props := props;
    }
  }

  /** A review request of a plugin. */
  class Review {
    var props: map<string, Json>

    constructor (props: map<string, Json>)
      ensures this.props == props
    {
      this.props := props;
    }
  }

  /** A plugin record. `props` holds the JSON value of every property as
      last received or assigned (a `binaries` link, or the array fetched
      from it); `binaries`, `latestBinary` and `reviews` hold the objects
      the commander and the commands change in place, built from the arrays
      the plugin received; `loadedExtraFields` is the list of fields loaded
      on demand (`scsLoadedExtraFields`, `_loadedExtraFields` in the older
      file), None until the first load. */
  class Plugin {
    var props: map<string, Json>
    var binaries: seq<Binary>
    var latestBinary: Option<Binary>
    var reviews: seq<Review>
    var loadedExtraFields: Option<seq<string>>

    /** A plugin of the account listing: its binaries and reviews are the
        objects of the arrays it carries, if any. */
    constructor (props: map<string, Json>)
      ensures this.props == props && latestBinary.None? && loadedExtraFields.None?
      ensures |binaries| == |ArrayItems(props, "binaries")|
      ensures forall i :: 0 <= i < |binaries| ==> fresh(binaries[i]) && binaries[i].props == Fields(ArrayItems(props, "binaries")[i])
      ensures |reviews| == |ArrayItems(props, "reviews")|
      ensures forall i :: 0 <= i < |reviews| ==> fresh(reviews[i]) && reviews[i].props == Fields(ArrayItems(props, "reviews")[i])
    {
      this.props := props;
      latestBinary, loadedExtraFields := None, None;
      new;
      binaries := Objects(ArrayItems(props, "binaries"));
      reviews := ReviewObjects(ArrayItems(props, "reviews"));
    }

    function Name(): string
      reads this
    {
      JsString(Lookup(props, "name"))
    }

    function Id(): string
      reads this
    {
      JsString(Lookup(props, "id"))
    }
  }

  /** The properties of binaries, in order. */
  function BinaryProps(bs: seq<Binary>): (r: seq<map<string, Json>>)
    reads set b | b in bs
    ensures |r| == |bs| && forall i :: 0 <= i < |bs| ==> r[i] == bs[i].props
  {
    if bs == [] then [] else [bs[0].props] + BinaryProps(bs[1..])
  }

  /** The properties of reviews, in order. */
  function ReviewProps(rs: seq<Review>): (r: seq<map<string, Json>>)
    reads set v | v in rs
    ensures |r| == |rs| && forall i :: 0 <= i < |rs| ==> r[i] == rs[i].props
  {
    if rs == [] then [] else [rs[0].props] + ReviewProps(rs[1..])
  }

  /** Binaries that are distinct objects, as those built from the items of
      an array are. */
  predicate DistinctBinaries(bs: seq<Binary>) {
    forall i, j :: 0 <= i < j < |bs| ==> bs[i] != bs[j]
  }

  /** Objects built from the items of a JSON array, in order. */
  method Objects(items: seq<Json>) returns (bs: seq<Binary>)
    ensures |bs| == |items| && (forall i :: 0 <= i < |items| ==> fresh(bs[i]) && bs[i].props == Fields(items[i]))
  {
    bs := [];
    for i := 0 to |items|
      invariant |bs| == i && forall j :: 0 <= j < i ==> fresh(bs[j]) && bs[j].props == Fields(items[j])
    {
      var b := new Binary(Fields(items[i]));
      bs := bs + [b];
    }
  }

  method ReviewObjects(items: seq<Json>) returns (rs: seq<Review>)
    ensures |rs| == |items| && (forall i :: 0 <= i < |items| ==> fresh(rs[i]) && rs[i].props == Fields(items[i]))
  {
    rs := [];
    for i := 0 to |items|
      invariant |rs| == i && forall j :: 0 <= j < i ==> fresh(rs[j]) && rs[j].props == Fields(items[j])
    {
      var r := new Review(Fields(items[i]));
      rs := rs + [r];
    }
  }

  // ----- updatePluginData -------------------------------------------------------

  /** The merge `updatePluginData` intends: a key of `data` overwrites the
      plugin's value only when that value is truthy and the key is not a
      loaded extra field; no key is added. */
  function Merged(props: map<string, Json>, data: map<string, Json>, loaded: seq<string>): map<string, Json> {
    map k | k in props :: if k in data && Truthy(props[k]) && k !in loaded then data[k] else props[k]
  }

  /** The list `updatePluginData` consults, with a missing list read as
      empty. */
  function LoadedOrEmpty(loaded: Option<seq<string>>): seq<string> {
    if loaded.Some? then loaded.value else []
  }

  /** What `Object.keys(null)` throws when a `null` answer is merged. */
  const NullData := TypeError("cannot convert null to object")

  /** `updatePluginData(plugin, data)` as written: with no loaded-fields list
      on the plugin, the first key of `data` whose value on the plugin is
      truthy reads `indexOf` of `undefined`. */
  function UpdatePluginDataAsWritten(props: map<string, Json>, data: Json, loaded: Option<seq<string>>): (r: Result<map<string, Json>>)
    ensures r.Fail? ==> r.error.TypeError?
  {
    if data.JNull? then Fail(NullData)
    else if loaded.None? && exists k :: k in Fields(data) && k in props && Truthy(props[k]) then
      Prop(None, "indexOf").PropagateFailure()
    else Ok(Merged(props, Fields(data), LoadedOrEmpty(loaded)))
  }

  /** `updatePluginData(plugin, data)` with a missing loaded-fields list read
      as empty, which is what the merge evidently intends and what the model
      uses: each key of `data` is handled in turn. */
  method UpdatePluginData(plugin: Plugin, data: Json) returns (r: Result<()>)
    modifies plugin
    ensures r.Fail? <==> data.JNull?
    ensures r.Fail? ==> r == Fail(NullData) && plugin.props == old(plugin.props)
    ensures r.Ok? ==> plugin.props == Merged(old(plugin.props), Fields(data), LoadedOrEmpty(plugin.loadedExtraFields))
    ensures plugin.binaries == old(plugin.binaries) && plugin.latestBinary == old(plugin.latestBinary)
    ensures plugin.reviews == old(plugin.reviews) && plugin.loadedExtraFields == old(plugin.loadedExtraFields)
  {
    if data.JNull? {
      return Fail(NullData);
    }
    var fields := Fields(data);
    var loaded := LoadedOrEmpty(plugin.loadedExtraFields);
    ghost var start := plugin.props;
    var keys := fields.Keys;
    while keys != {}
      invariant keys <= fields.Keys
      invariant plugin.props == Merged(start, fields - keys, loaded)
      invariant plugin.binaries == old(plugin.binaries) && plugin.latestBinary == old(plugin.latestBinary)
      invariant plugin.reviews == old(plugin.reviews) && plugin.loadedExtraFields == old(plugin.loadedExtraFields)
      decreases keys
    {
      var key :| key in keys;
      if key in plugin.props && Truthy(plugin.props[key]) && key !in loaded {
        plugin.props := plugin.props[key := fields[key]];
      }
      keys := keys - {key};
      assert plugin.props == Merged(start, fields - keys, loaded) by {
        MergedStep(start, fields, keys + {key}, loaded, key);
      }
    }
    assert fields - {} == fields;
    return Ok(());
  }

  /** One key of the merge loop: the value a key has before its turn is its
      original value. */
  lemma MergedStep(props: map<string, Json>, data: map<string, Json>, keys: set<string>, loaded: seq<string>, key: string)
    requires key in keys && keys <= data.Keys
    ensures var before := Merged(props, data - keys, loaded);
      var after := Merged(props, data - (keys - {key}), loaded);
      && (key in before <==> key in props)
      && (key in props ==> before[key] == props[key])
      && after == (if key in props && Truthy(props[key]) && key !in loaded then before[key := data[key]] else before)
  {
    var before := Merged(props, data - keys, loaded);
    var after := Merged(props, data - (keys - {key}), loaded);
    var expected := if key in props && Truthy(props[key]) && key !in loaded then before[key := data[key]] else before;
    assert after.Keys == expected.Keys;
  }

  /** The merge keeps the plugin's keys, protects loaded fields and falsy
      values, and takes every other value from `data`. */
  lemma MergeRule(props: map<string, Json>, data: map<string, Json>, loaded: seq<string>)
    ensures Merged(props, data, loaded).Keys == props.Keys
    ensures forall k :: k in props && k in loaded ==> Merged(props, data, loaded)[k] == props[k]
    ensures forall k :: k in props && !Truthy(props[k]) ==> Merged(props, data, loaded)[k] == props[k]
    ensures forall k :: k in props && k in data && Truthy(props[k]) && k !in loaded ==> Merged(props, data, loaded)[k] == data[k]
  {
  }

  /** Applying the same response twice is applying it once. */
  lemma MergeIdempotent(props: map<string, Json>, data: map<string, Json>, loaded: seq<string>)
    ensures Merged(Merged(props, data, loaded), data, loaded) == Merged(props, data, loaded)
  {
  }

  /** With a loaded-fields list on the plugin, the merge as written and the
      corrected merge agree. */
  lemma AsWrittenAgreesWithList(props: map<string, Json>, data: Json, loaded: seq<string>)
    requires !data.JNull?
    ensures UpdatePluginDataAsWritten(props, data, Some(loaded)) == Ok(Merged(props, Fields(data), loaded))
  {
  }

  /** A plugin found without extra fields has no list, and a response that
      carries its (truthy) id makes the merge as written throw. */
  lemma AsWrittenThrowsWithoutList(id: int)
    requires id != 0
    ensures var plugin := map["id" := JNum(id)];
      && UpdatePluginDataAsWritten(plugin, JObj(plugin), None).Fail?
      && UpdatePluginDataAsWritten(plugin, JObj(plugin), None).error.TypeError?
      && Merged(plugin, plugin, LoadedOrEmpty(None)) == plugin
  {
    var plugin := map["id" := JNum(id)];
    assert "id" in Fields(JObj(plugin)) && "id" in plugin && Truthy(plugin["id"]);
  }
}
