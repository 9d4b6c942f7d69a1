/** `ShopwareStoreCommander` in its two generations: lib/shopwareStoreCommander.js
    (`Current`, async functions over the axios client) and
    lib/shopware_store_commander.js (`Legacy`, promise chains over the
    superagent client). Both cache the account's plugins, load fields on
    demand, upload and save binaries, request reviews and enable partial
    ionCube encryption; only the newer one gets as far as polling a
    requested review. They differ also in the shape of some requests and
    in how addon names are compared. Requests are shown as the commander
    hands them to its client; how the client authenticates them is
    modelled with the clients. */
module StoreCommander {
  import opened Common
  import opened Http
  import opened StoreObjects

  datatype Generation = Current | Legacy

  const EncryptionAddon := "encryptionIonCube"
  const PartialEncryptionAddon := "partialIonCubeEncryptionAllowed"
  const MaxPolls: nat := 20
  const PollSeconds: nat := 3
  const PendingReview := JNum(1)
  /** What reading the length of a `null` list of binaries throws. */
  const BinariesOfNull := TypeError("cannot read property length of null")
  /** What `push` on reviews that are not an array throws. */
  const ReviewsNotArray := TypeError("plugin.reviews.push is not a function")
  /** What the older file's `this.client.spinner.setSpinnerTitle` throws. */
  const NoSpinner := TypeError("cannot read property setSpinnerTitle of undefined")
  /** What reading the id of a pushed `null` review throws. */
  const ReviewIdOfNull := TypeError("cannot read property id of null")

  // ----- reading JSON the way the commander does --------------------------------

  /** The body of a reply the client resolves with, or the error it rejects
      with. */
  function Response(reply: Reply): (r: Result<Json>)
    ensures r.Ok? <==> IsSuccess(reply)
    ensures r.Ok? ==> r.value == reply.data
    ensures r.Fail? ==> r.error == ErrorOf(reply)
  {
    if IsSuccess(reply) then Ok(reply.data) else Fail(ErrorOf(reply))
  }

  /** `v.forEach` / `v.find`: only an array has them. */
  function Items(v: Option<Json>): (r: Result<seq<Json>>)
    ensures r.Ok? <==> v.Some? && v.value.JArr?
    ensures r.Ok? ==> r.value == v.value.items
    ensures r.Fail? ==> r.error.TypeError?
  {
    if v.Some? && v.value.JArr? then Ok(v.value.items) else Fail(TypeError("not a function"))
  }

  /** `v[0]`; reading it of `null` throws. */
  function First(v: Json): (r: Result<Option<Json>>)
    ensures r.Fail? <==> v.JNull?
    ensures v.JArr? && v.items != [] ==> r == Ok(Some(v.items[0]))
    ensures v.JArr? && v.items == [] ==> r == Ok(None)
  {
    match v
    case JNull => Fail(TypeError("cannot read property 0 of null"))
    case JArr(items) => Ok(if items == [] then None else Some(items[0]))
    case JObj(props) => Ok(Lookup(props, "0"))
    case JStr(s) => Ok(if s == [] then None else Some(JStr([s[0]])))
    case _ => Ok(None)
  }

  /** `a === b` of two values read from JSON: objects and arrays read from
      different places are never identical. */
  predicate StrictEquals(a: Option<Json>, b: Option<Json>) {
    a == b && (a.None? || !(a.value.JArr? || a.value.JObj?))
  }

  /** `v == s` against a string: a string compares by its text; other
      values compare by their string form (numbers and booleans in the
      spelling JSON gives them); `undefined` and `null` never equal a
      string. */
  predicate LooseEqualsString(v: Option<Json>, s: string) {
    match v
    case None => false
    case Some(JNull) => false
    case Some(JBool(b)) => s == (if b then "1" else "0")
    case Some(j) => JsonString(j) == s
  }

  /** How an addon's name is compared: `===` in the newer file, `==` in the
      older one. */
  predicate NameMatches(generation: Generation, name: Option<Json>, wanted: string) {
    match generation
    case Current => name == Some(JStr(wanted))
    case Legacy => LooseEqualsString(name, wanted)
  }

  /** `items.find(x => x.name === wanted)`: the first item whose name
      matches; reading the name of a `null` item before it throws. */
  function FindByName(generation: Generation, items: seq<Json>, wanted: string): (r: Result<Option<Json>>)
    ensures r.Ok? && r.value.Some? ==> r.value.value in items && r.value.value.JObj?
    ensures r.Fail? ==> r.error.TypeError?
  {
    if items == [] then Ok(None)
    else
      var name :- Prop(Some(items[0]), "name");
      if NameMatches(generation, name, wanted) then
        assert name.Some?;
        Ok(Some(items[0]))
      else FindByName(generation, items[1..], wanted)
  }

  /** `items.find(x => x.id === id)`. */
  function FindById(items: seq<Json>, id: Option<Json>): (r: Result<Option<Json>>)
    ensures r.Ok? && r.value.Some? ==> r.value.value in items
    ensures r.Fail? ==> r.error.TypeError?
  {
    if items == [] then Ok(None)
    else
      var v :- Prop(Some(items[0]), "id");
      if StrictEquals(v, id) then Ok(Some(items[0])) else FindById(items[1..], id)
  }

  /** The name under which a plugin item is filed: the string form of its
      `name`. */
  function FiledName(item: Json): string {
    if item.JObj? then JsString(Lookup(item.props, "name")) else "undefined"
  }

  /** The names of the listed plugins. */
  function Names(items: seq<Json>): (r: seq<string>)
    ensures |r| == |items|
  {
    seq(|items|, i requires 0 <= i < |items| => FiledName(items[i]))
  }

  /** `accountData.plugins` as `forEach` builds it, with each plugin's
      name given: each plugin's properties under its name, a later plugin
      replacing an earlier one of the same name; a `null` plugin throws. */
  function Filed(items: seq<Json>, names: seq<string>): Result<map<string, map<string, Json>>>
    requires |names| == |items|
  {
    if items == [] then Ok(map[])
    else
      var m :- Filed(items[..|items| - 1], names[..|names| - 1]);
      var name :- Prop(Some(items[|items| - 1]), "name");
      Ok(m[names[|names| - 1] := Fields(items[|items| - 1])])
  }

  function KeyedByName(items: seq<Json>): Result<map<string, map<string, Json>>> {
    Filed(items, Names(items))
  }

  /** The query of the plugin listing; an `undefined` producer id is not
      sent. */
  function PluginQuery(producerId: Option<Json>): Json {
    var q := map["offset" := JNum(0), "limit" := JNum(1000)];
    JObj(if producerId.Some? then q["producerId" := producerId.value] else q)
  }

  /** What `loadAccountData` reads from its three replies: the producer id,
      the plugins by name and the statics. */
  function AccountData(script: seq<Reply>): Result<(Option<Json>, map<string, map<string, Json>>, Json)> {
    var producers :- Response(NextReply(script));
    var first :- First(producers);
    var producerId :- Prop(first, "id");
    var listing :- ListingData(Rest(script));
    Ok((producerId, listing.0, listing.1))
  }

  /** The two replies after the producers: the plugins by name and the
      statics. */
  function ListingData(script: seq<Reply>): Result<(map<string, map<string, Json>>, Json)> {
    var list :- Response(NextReply(script));
    var items :- Items(Some(list));
    var plugins :- KeyedByName(items);
    var statics :- Response(NextReply(Rest(script)));
    Ok((plugins, statics))
  }

  /** The trace after the three requests of a `loadAccountData` that
      succeeds. */
  function AccountNet(net: Net, producerId: Option<Json>): Net {
    var producers := Transmit(net, Fetch("producers")).1;
    var plugins := Transmit(producers, Sent(Get, "plugins", None, PluginQuery(producerId), None)).1;
    Transmit(plugins, Fetch("pluginstatics/all")).1
  }

  predicate NoDuplicates(s: seq<string>) {
    forall i, j :: 0 <= i < j < |s| ==> s[i] != s[j]
  }

  /** `filePath.split(/(\\|\/)/g).pop()`: what follows the last `/` or `\`. */
  function BinaryName(filePath: string): (r: string)
    ensures '/' !in r && '\\' !in r
    ensures |r| <= |filePath| && filePath[|filePath| - |r|..] == r
    ensures |r| < |filePath| ==> filePath[|filePath| - |r| - 1] in {'/', '\\'}
  {
    if filePath == [] then []
    else if filePath[|filePath| - 1] in {'/', '\\'} then []
    else BinaryName(filePath[..|filePath| - 1]) + [filePath[|filePath| - 1]]
  }

  // ----- paths and request shapes -----------------------------------------------

  function PluginPath(pluginId: string): string {
    "plugins/" + pluginId
  }

  function BinariesPath(pluginId: string): string {
    "plugins/" + pluginId + "/binaries"
  }

  function BinaryPath(pluginId: string, binaryId: string): string {
    "plugins/" + pluginId + "/binaries/" + binaryId
  }

  function ReviewsPath(pluginId: string): string {
    "plugins/" + pluginId + "/reviews"
  }

  function Fetch(path: string): Sent {
    Sent(Get, path, None, JObj(map[]), None)
  }

  /** An upload: the newer file posts the file stream as the body; the
      older one posts `{}` and attaches the file when a path is given. */
  function Upload(generation: Generation, path: string, filePath: string): Sent {
    match generation
    case Current => Sent(Post, path, None, JNull, Some(filePath))
    case Legacy => Sent(Post, path, None, JObj(map[]), if filePath != "" then Some(filePath) else None)
  }

  /** The review request: no body in the newer file, `{}` in the older. */
  function ReviewRequest(generation: Generation, pluginId: string): Sent {
    Sent(Post, ReviewsPath(pluginId), None, if generation == Current then JNull else JObj(map[]), None)
  }

  // ----- reviews and addons -----------------------------------------------------

  /** `review.status.id`, which throws when the status is missing. */
  function StatusId(review: map<string, Json>): Result<Option<Json>> {
    Prop(Lookup(review, "status"), "id")
  }

  /** A review whose status can be read and is no longer pending. */
  predicate ReviewFinished(review: map<string, Json>) {
    StatusId(review).Ok? && StatusId(review).value != Some(PendingReview)
  }

  /** The properties after `binary.changelogs = …; …; binary.status = …`. */
  const WriteBackKeys := {"changelogs", "compatibleSoftwareVersions", "status"}

  function WrittenBack(binary: map<string, Json>, data: map<string, Json>): (r: map<string, Json>)
    ensures forall k :: k in WriteBackKeys ==> Lookup(r, k) == Lookup(data, k)
    ensures forall k :: k !in WriteBackKeys ==> Lookup(r, k) == Lookup(binary, k)
  {
    var a := Assigned(binary, "changelogs", Lookup(data, "changelogs"));
    var b := Assigned(a, "compatibleSoftwareVersions", Lookup(data, "compatibleSoftwareVersions"));
    Assigned(b, "status", Lookup(data, "status"))
  }

  /** What `enablePartialIonCubeEncryption` decides before sending: None
      when there is nothing to do (the plugin is not encrypted, or partial
      encryption is already enabled), the statics' addon to add otherwise,
      and an error when the statics lack it or a lookup throws. */
  function AddonPlan(generation: Generation, plugin: map<string, Json>, statics: Json): Result<Option<Json>> {
    var addons :- Items(Lookup(plugin, "addons"));
    var encryption :- FindByName(generation, addons, EncryptionAddon);
    if encryption.None? then Ok(None)
    else
      var partial :- FindByName(generation, addons, PartialEncryptionAddon);
      if partial.Some? then Ok(None)
      else
        var staticAddons :- Prop(Some(statics), "addons");
        var offered :- Items(staticAddons);
        var addon :- FindByName(generation, offered, PartialEncryptionAddon);
        if addon.None? then Fail(MissingAddonOption(JsString(Lookup(plugin, "name"))))
        else Ok(addon)
  }

  /** The property under which a plugin keeps the list of its loaded
      fields: `scsLoadedExtraFields` in the newer file, `_loadedExtraFields`
      in the older. */
  function LoadedKey(generation: Generation): string {
    if generation == Current then "scsLoadedExtraFields" else "_loadedExtraFields"
  }

  /** Objects as JSON values. */
  function Objs(ps: seq<map<string, Json>>): (r: seq<Json>)
    ensures |r| == |ps| && forall i :: 0 <= i < |ps| ==> r[i] == JObj(ps[i])
  {
    seq(|ps|, i requires 0 <= i < |ps| => JObj(ps[i]))
  }

  /** Strings as JSON values. */
  function Strs(names: seq<string>): (r: seq<Json>)
    ensures |r| == |names| && forall i :: 0 <= i < |names| ==> r[i] == JStr(names[i])
  {
    seq(|names|, i requires 0 <= i < |names| => JStr(names[i]))
  }

  /** The body the client sends for a plugin object whose own properties
      are `props`: the object as `JSON.stringify` sees it, so an array of
      binaries or reviews holds the objects as they are now, an assigned
      latest binary is included, and so is the list of loaded fields. */
  function Serialised(generation: Generation, props: map<string, Json>, plugin: Plugin): (r: Json)
    reads plugin`binaries, plugin`reviews, plugin`latestBinary, plugin`loadedExtraFields
    reads set b | b in plugin.binaries, set v | v in plugin.reviews
    reads if plugin.latestBinary.Some? then {plugin.latestBinary.value} else {}
    ensures r.JObj?
    ensures forall k :: k in props && k !in {"binaries", "reviews", "latestBinary", LoadedKey(generation)} ==> k in r.props && r.props[k] == props[k]
    ensures forall k :: k in r.props ==> k in props || k in {"latestBinary", LoadedKey(generation)}
    ensures HoldsArray(props, "binaries") ==> Lookup(r.props, "binaries") == Some(JArr(Objs(BinaryProps(plugin.binaries))))
    ensures HoldsArray(props, "reviews") ==> Lookup(r.props, "reviews") == Some(JArr(Objs(ReviewProps(plugin.reviews))))
    ensures plugin.latestBinary.Some? ==> Lookup(r.props, "latestBinary") == Some(JObj(plugin.latestBinary.value.props))
    ensures plugin.loadedExtraFields.Some? ==> Lookup(r.props, LoadedKey(generation)) == Some(JArr(Strs(plugin.loadedExtraFields.value)))
  {
    var withBinaries := if HoldsArray(props, "binaries") then props["binaries" := JArr(Objs(BinaryProps(plugin.binaries)))] else props;
    var withReviews := if HoldsArray(props, "reviews") then withBinaries["reviews" := JArr(Objs(ReviewProps(plugin.reviews)))] else withBinaries;
    var withLatest := if plugin.latestBinary.Some? then withReviews["latestBinary" := JObj(plugin.latestBinary.value.props)] else withReviews;
    JObj(if plugin.loadedExtraFields.Some? then withLatest[LoadedKey(generation) := JArr(Strs(plugin.loadedExtraFields.value))] else withLatest)
  }

  /** `plugin.addons.push(addon)`. */
  function Pushed(plugin: map<string, Json>, addon: Json): map<string, Json> {
    plugin["addons" := JArr(ArrayItems(plugin, "addons") + [addon])]
  }

  /** `Object.keys(v).length > 0`: the own keys of an object, or the
      indices of an array or a string. */
  predicate HasKeys(v: Json) {
    match v
    case JObj(props) => props != map[]
    case JArr(items) => items != []
    case JStr(s) => s != ""
    case _ => false
  }

  /** The binary objects built from `items`, one per item, in order. */
  predicate Mirrors(binaries: seq<Binary>, items: seq<Json>)
    reads binaries
  {
    |binaries| == |items| && forall i :: 0 <= i < |items| ==> binaries[i].props == Fields(items[i])
  }

  /** The review objects built from `items`, one per item, in order. */
  predicate MirrorsReviews(reviews: seq<Review>, items: seq<Json>)
    reads reviews
  {
    |reviews| == |items| && forall i :: 0 <= i < |items| ==> reviews[i].props == Fields(items[i])
  }

  /** The plugin's binaries after `plugin.binaries = data` and
      `plugin.latestBinary = plugin.binaries[plugin.binaries.length - 1]`:
      the objects of the array, the last of them the latest; a body that is
      not an array gives neither. */
  predicate HoldsBinaries(plugin: Plugin, data: Json)
    reads plugin, plugin.binaries
  {
    if data.JArr? then
      && Mirrors(plugin.binaries, data.items)
      && plugin.latestBinary == (if data.items == [] then None else Some(plugin.binaries[|data.items| - 1]))
    else plugin.binaries == [] && plugin.latestBinary.None?
  }

  /** One fetch per link. */
  function Fetches(links: seq<string>): (r: seq<Sent>)
    ensures |r| == |links|
  {
    if links == [] then [] else Fetches(links[..|links| - 1]) + [Fetch(links[|links| - 1])]
  }

  /** The body of a reply (`null` for none). */
  function Body(reply: Reply): Json {
    if reply.Answer? then reply.data else JNull
  }

  /** A plugin's properties and its list of loaded fields. */
  datatype Loading = Loading(props: map<string, Json>, loaded: seq<string>)

  /** `list.push(field)` unless the field is listed already. */
  function Marked(list: seq<string>, field: string): seq<string> {
    if field in list then list else list + [field]
  }

  /** One field of `loadExtraPluginFields` on values: the link is
      fetched, and on success the body replaces the field, which is marked
      loaded. */
  function LoadStep(state: Loading, net: Net, field: string, link: string): (Result<()>, Loading, Net) {
    var (reply, after) := Transmit(net, Fetch(link));
    if IsSuccess(reply) then (Ok(()), Loading(state.props[field := reply.data], Marked(state.loaded, field)), after)
    else (Fail(ErrorOf(reply)), state, after)
  }

  /** The links the plugin holds under the fields: `plugin[field]`. */
  function Links(props: map<string, Json>, fields: seq<string>): (r: seq<string>)
    ensures |r| == |fields|
  {
    if fields == [] then [] else Links(props, fields[..|fields| - 1]) + [JsString(Lookup(props, fields[|fields| - 1]))]
  }

  /** `loadExtraPluginFields` on values: each field fetched in turn from
      its link; the first failed fetch stops it. */
  function LoadAll(start: Loading, net: Net, fields: seq<string>, links: seq<string>): (Result<()>, Loading, Net)
    requires |fields| == |links|
  {
    if fields == [] then (Ok(()), start, net)
    else
      var (r, state, after) := LoadAll(start, net, fields[..|fields| - 1], links[..|links| - 1]);
      if r.Fail? then (r, state, after)
      else LoadStep(state, after, fields[|fields| - 1], links[|links| - 1])
  }

  /** One poll on values: the review listed under the review's id in the
      fetched body lends it its status and comment; a body that is not an
      array, or a review that is not listed, throws. */
  function Polled(review: map<string, Json>, data: Json): (r: Result<map<string, Json>>)
    ensures r.Fail? ==> r.error.TypeError?
  {
    var items :- Items(Some(data));
    var updated :- FindById(items, Lookup(review, "id"));
    var status :- Prop(updated, "status");
    var comment := Prop(updated, "comment").value;
    Ok(Assigned(Assigned(review, "status", status), "comment", comment))
  }

  /** One poll on values: a pause of three seconds, then the plugin's
      reviews are fetched and the review takes the status and comment of
      the one listed under its id; the result is its new status id, whose
      reading throws when the listed review has no status object. */
  function PollStep(review: map<string, Json>, net: Net, pluginId: string): (r: (Result<Option<Json>>, map<string, Json>, Net))
    ensures r.2 == Net(Rest(net.script), net.sent + [Fetch(ReviewsPath(pluginId))], net.events, net.sleeps + [PollSeconds * 1000])
    ensures r.0.Ok? ==> r.0 == StatusId(r.1) && IsSuccess(NextReply(net.script)) && Polled(review, NextReply(net.script).data) == Ok(r.1)
    ensures r.0.Fail? ==> r.0.error != ReviewTimeout
  {
    var after := Net(Rest(net.script), net.sent + [Fetch(ReviewsPath(pluginId))], net.events, net.sleeps + [PollSeconds * 1000]);
    var reply := NextReply(net.script);
    if !IsSuccess(reply) then (Fail(ErrorOf(reply)), review, after)
    else
      var polled := Polled(review, reply.data);
      if polled.Fail? then (Fail(polled.error), review, after)
      else (StatusId(polled.value), polled.value, after)
  }

  /** `pollReviewStatus` on values, entered with `pollCount` polls done: a
      review still pending is polled again, and the twentieth poll that
      finds it pending gives up. */
  function PollAll(review: map<string, Json>, net: Net, pluginId: string, pollCount: nat): (Result<()>, map<string, Json>, Net)
    requires pollCount < MaxPolls
    decreases MaxPolls - pollCount
  {
    var step := PollStep(review, net, pluginId);
    if step.0 == Ok(Some(PendingReview)) && pollCount + 1 < MaxPolls then PollAll(step.1, step.2, pluginId, pollCount + 1)
    else if step.0 == Ok(Some(PendingReview)) then (Fail(ReviewTimeout), step.1, step.2)
    else (if step.0.Ok? then Ok(()) else Fail(step.0.error), step.1, step.2)
  }

  /** Maps that agree on every key are equal. */
  lemma SameLookups(a: map<string, Json>, b: map<string, Json>)
    requires forall k :: Lookup(a, k) == Lookup(b, k)
    ensures a == b
  {
    assert forall k :: k in a <==> Lookup(a, k).Some?;
    assert a.Keys == b.Keys;
  }

  /** A later poll overwrites what an earlier poll wrote, so the result of
      polling depends only on the last body fetched. */
  lemma PollRepeats(review: map<string, Json>, status: Option<Json>, comment: Option<Json>, data: Json)
    ensures Polled(Assigned(Assigned(review, "status", status), "comment", comment), data) == Polled(review, data)
  {
    var polled := Assigned(Assigned(review, "status", status), "comment", comment);
    assert Lookup(polled, "id") == Lookup(review, "id");
    var a := Polled(polled, data);
    var b := Polled(review, data);
    if a.Ok? {
      forall k
        ensures Lookup(a.value, k) == Lookup(b.value, k)
      {
      }
      SameLookups(a.value, b.value);
    }
  }

  class Commander {
    const generation: Generation
    const remote: Remote
    /** `accountData.producerId`. */
    var producerId: Option<Json>
    /** `accountData.plugins`: None until the account data is loaded. */
    var plugins: Option<map<string, Plugin>>
    var statics: Json

    constructor (generation: Generation, remote: Remote)
      ensures this.generation == generation && this.remote == remote
      ensures producerId.None? && plugins.None? && statics == JObj(map[])
    {
      this.generation, this.remote := generation, remote;
      producerId, plugins, statics := None, None, JObj(map[]);
    }

    /** The cached plugin objects. */
    function Cached(): set<Plugin>
      reads this
    {
      if plugins.Some? then plugins.value.Values else {}
    }

    /** The properties of the cached plugins, by name. */
    function CachedProps(): map<string, map<string, Json>>
      reads this, Cached()
    {
      if plugins.None? then map[] else map k | k in plugins.value :: plugins.value[k].props
    }

    /** A request through the client: the body it resolves with. */
    method Call(request: Sent) returns (r: Result<Json>)
      modifies remote
      ensures var (reply, net) := Transmit(old(remote.net), request);
        remote.net == net && r == Response(reply)
    {
      var reply := remote.Send(request);
      r := Response(reply);
    }

    /** One plugin of the listing filed under `key`: a new plugin object
        replaces whatever was filed under that name. */
    method File(key: string, item: Json)
      requires plugins.Some?
      modifies this
      ensures producerId == old(producerId) && statics == old(statics)
      ensures plugins.Some? && CachedProps() == old(CachedProps())[key := Fields(item)]
      ensures key in plugins.value && fresh(plugins.value[key]) && plugins.value[key].loadedExtraFields.None?
      ensures forall k :: k in plugins.value && k != key ==> k in old(plugins.value) && plugins.value[k] == old(plugins.value[k])
    {
      var plugin := new Plugin(Fields(item));
      plugins := Some(plugins.value[key := plugin]);
      assert CachedProps().Keys == old(CachedProps()).Keys + {key};
    }

    /** The `forEach` of `loadAccountData` that files each listed plugin
        under its name. */
    method FilePlugins(items: seq<Json>) returns (r: Result<()>)
      modifies this
      ensures producerId == old(producerId) && statics == old(statics)
      ensures r.Ok? <==> KeyedByName(items).Ok?
      ensures r.Fail? ==> r.error == KeyedByName(items).error
      ensures plugins.Some? && (r.Ok? ==> CachedProps() == KeyedByName(items).value)
      ensures forall k :: k in plugins.value ==> fresh(plugins.value[k]) && plugins.value[k].loadedExtraFields.None?
      ensures r.Ok? ==> forall k :: k in plugins.value ==> plugins.value[k].Name() == k
    {
      plugins := Some(map[]);
      ghost var names := Names(items);
      var i := 0;
      while i < |items|
        invariant 0 <= i <= |items|
        invariant producerId == old(producerId) && statics == old(statics)
        invariant plugins.Some? && Filed(items[..i], names[..i]) == Ok(CachedProps())
        invariant forall k :: k in plugins.value ==> fresh(plugins.value[k]) && plugins.value[k].loadedExtraFields.None?
      {
        var name := Prop(Some(items[i]), "name");
        assert items[..i + 1][..i] == items[..i] && names[..i + 1][..i] == names[..i];
        if name.Fail? {
          FiledPrefixFails(items, names, i + 1);
          return Fail(name.error);
        }
        var key := JsString(name.value);
        assert key == names[i] by {
          FiledUnder(items[i]);
        }
        File(key, items[i]);
        i := i + 1;
      }
      assert items[..i] == items && names[..i] == names;
      FiledUnderOwnName(items, names);
      assert forall k :: k in plugins.value ==> plugins.value[k].props == CachedProps()[k];
      r := Ok(());
    }

    /** `loadAccountData()`: the producer id of the first producer, the
        plugins by name and the statics, read with three requests. */
    method LoadAccountData() returns (r: Result<()>)
      modifies this, remote
      ensures var expected := AccountData(old(remote.net.script));
        && (r.Ok? <==> expected.Ok?)
        && (r.Fail? ==> r.error == expected.error)
        && (r.Ok? ==> producerId == expected.value.0 && plugins.Some? && CachedProps() == expected.value.1 && statics == expected.value.2)
      ensures r.Ok? ==> forall k :: k in plugins.value ==> fresh(plugins.value[k]) && plugins.value[k].loadedExtraFields.None?
      ensures r.Ok? ==> forall k :: k in plugins.value ==> plugins.value[k].Name() == k
      ensures r.Ok? ==> remote.net == AccountNet(old(remote.net), producerId)
      ensures r.Ok? ==> remote.net.sent == old(remote.net.sent) + [Fetch("producers"), Sent(Get, "plugins", None, PluginQuery(producerId), None), Fetch("pluginstatics/all")]
      ensures |old(remote.net.sent)| < |remote.net.sent| <= |old(remote.net.sent)| + 3
      ensures remote.net.sent[..|old(remote.net.sent)|] == old(remote.net.sent) && remote.net.sent[|old(remote.net.sent)|] == Fetch("producers")
      ensures remote.net.events == old(remote.net.events) && remote.net.sleeps == old(remote.net.sleeps)
    {
      var producers :- Call(Fetch("producers"));
      var first :- First(producers);
      var id :- Prop(first, "id");
      producerId, plugins := id, None;
      r := LoadListing(id);
    }

    /** The rest of `loadAccountData()` once the producer id is read: the
        plugin listing, filed by name, then the statics. */
    method LoadListing(id: Option<Json>) returns (r: Result<()>)
      modifies this, remote
      ensures var expected := ListingData(old(remote.net.script));
        && (r.Ok? <==> expected.Ok?)
        && (r.Fail? ==> r.error == expected.error)
        && producerId == old(producerId)
        && (r.Ok? ==> plugins.Some? && CachedProps() == expected.value.0 && statics == expected.value.1)
      ensures r.Ok? ==> forall k :: k in plugins.value ==> fresh(plugins.value[k]) && plugins.value[k].loadedExtraFields.None?
      ensures r.Ok? ==> forall k :: k in plugins.value ==> plugins.value[k].Name() == k
      ensures var listed := Transmit(old(remote.net), Sent(Get, "plugins", None, PluginQuery(id), None)).1;
        r.Ok? ==> remote.net == Transmit(listed, Fetch("pluginstatics/all")).1
      ensures |old(remote.net.sent)| < |remote.net.sent| <= |old(remote.net.sent)| + 2
      ensures remote.net.sent[..|old(remote.net.sent)|] == old(remote.net.sent)
      ensures remote.net.sent[|old(remote.net.sent)|] == Sent(Get, "plugins", None, PluginQuery(id), None)
      ensures r.Ok? ==> |remote.net.sent| == |old(remote.net.sent)| + 2 && remote.net.sent[|old(remote.net.sent)| + 1] == Fetch("pluginstatics/all")
      ensures remote.net.events == old(remote.net.events) && remote.net.sleeps == old(remote.net.sleeps)
    {
      var list :- Call(Sent(Get, "plugins", None, PluginQuery(id), None));
      var items := Items(Some(list));
      if items.Fail? {
        plugins := Some(map[]);
        return Fail(items.error);
      }
      var filed :- FilePlugins(items.value);
      var stats :- Call(Fetch("pluginstatics/all"));
      statics := stats;
      r := Ok(());
    }

    /** `findPlugin(name, extraFields)`: the account data is loaded only
        when no plugins are cached, and extra fields only for a non-empty
        list. */
    method FindPlugin(name: string, extraFields: Option<seq<string>>) returns (r: Result<Plugin>)
      modifies this, remote, Cached()
      ensures old(plugins).Some? ==> plugins == old(plugins) && producerId == old(producerId) && statics == old(statics)
      ensures old(plugins).Some? && name !in old(plugins).value ==> r == Fail(PluginNotFound(name)) && remote.net == old(remote.net)
      ensures old(plugins).Some? && name in old(plugins).value && (extraFields.None? || extraFields.value == []) ==>
        r == Ok(old(plugins).value[name]) && remote.net == old(remote.net)
      ensures old(plugins).None? ==> |remote.net.sent| > |old(remote.net.sent)| && remote.net.sent[|old(remote.net.sent)|] == Fetch("producers")
      ensures r.Ok? ==> plugins.Some? && name in plugins.value && r.value == plugins.value[name]
      ensures r.Ok? && old(plugins).None? ==> forall k :: k in plugins.value ==> fresh(plugins.value[k])
      ensures r.Ok? && extraFields.Some? && extraFields.value != [] ==>
        r.value.loadedExtraFields.Some? && forall f :: f in extraFields.value ==> f in r.value.loadedExtraFields.value
      ensures old(plugins).None? ==>
        var account := AccountData(old(remote.net.script));
        && (account.Fail? ==> r == Fail(account.error))
        && (account.Ok? ==> plugins.Some? && producerId == account.value.0 && statics == account.value.2)
        && (account.Ok? && name !in account.value.1 ==>
              r == Fail(PluginNotFound(name)) && remote.net == AccountNet(old(remote.net), account.value.0))
        && (account.Ok? && name in account.value.1 && (extraFields.None? || extraFields.value == []) ==>
              && r.Ok? && r.value.props == account.value.1[name] && r.value.loadedExtraFields.None?
              && remote.net == AccountNet(old(remote.net), account.value.0))
        && (account.Ok? && name in account.value.1 && extraFields.Some? && extraFields.value != [] ==>
              var listed := account.value.1[name];
              var load := LoadAll(Loading(listed, []), AccountNet(old(remote.net), account.value.0), extraFields.value, Links(listed, extraFields.value));
              && name in plugins.value && remote.net == load.2
              && (r.Ok? <==> load.0.Ok?) && (r.Fail? ==> r.error == load.0.error)
              && plugins.value[name].props == load.1.props && plugins.value[name].loadedExtraFields == Some(load.1.loaded))
      ensures old(plugins).None? && r.Ok? && (extraFields.None? || "name" !in extraFields.value) ==> r.value.Name() == name
      ensures r.Ok? && extraFields.Some? && "binaries" in extraFields.value ==> Mirrors(r.value.binaries, ArrayItems(r.value.props, "binaries"))
      ensures old(plugins).Some? && name in old(plugins).value && extraFields.Some? && extraFields.value != [] ==>
        var plugin := old(plugins).value[name];
        var load := LoadAll(Loading(old(plugin.props), LoadedOrEmpty(old(plugin.loadedExtraFields))), old(remote.net),
                            extraFields.value, Links(old(plugin.props), extraFields.value));
        && remote.net == load.2 && (r.Ok? <==> load.0.Ok?) && (r.Fail? ==> r.error == load.0.error)
        && plugin.props == load.1.props && plugin.loadedExtraFields == Some(load.1.loaded)
    {
      if plugins.None? {
        var loaded := LoadAccountData();
        if loaded.Fail? {
          return Fail(loaded.error);
        }
      }
      if name !in plugins.value {
        return Fail(PluginNotFound(name));
      }
      var plugin := plugins.value[name];
      assert plugin in Cached();
      if extraFields.Some? && |extraFields.value| > 0 {
        var fields := extraFields.value;
        ghost var start := Loading(plugin.props, LoadedOrEmpty(plugin.loadedExtraFields));
        ghost var propsBefore := plugin.props;
        ghost var net := remote.net;
        var loaded := LoadExtraPluginFields(plugin, fields);
        LoadAllExtends(start, net, fields, Links(propsBefore, fields));
        if "name" !in fields {
          UnnamedKept(start, net, fields, Links(propsBefore, fields), "name");
        }
        if loaded.Fail? {
          return Fail(loaded.error);
        }
        MarkedOnce(start, net, fields, Links(propsBefore, fields));
      }
      return Ok(plugin);
    }

    /** One field of `loadExtraPluginFields`: the link is fetched, the body
        replaces the field (and, for `binaries` and `reviews`, gives the
        objects), and the field is marked loaded unless it already is. */
    method LoadField(plugin: Plugin, field: string, link: string) returns (r: Result<()>)
      requires plugin.loadedExtraFields.Some?
      modifies plugin, remote
      ensures plugin.loadedExtraFields.Some?
      ensures (r, Loading(plugin.props, plugin.loadedExtraFields.value), remote.net)
        == LoadStep(Loading(old(plugin.props), old(plugin.loadedExtraFields).value), old(remote.net), field, link)
      ensures field != "binaries" ==> plugin.binaries == old(plugin.binaries)
      ensures field != "reviews" ==> plugin.reviews == old(plugin.reviews)
      ensures field == "binaries" && r.Ok? ==> Mirrors(plugin.binaries, ArrayItems(plugin.props, "binaries"))
      ensures field != "binaries" && old(Mirrors(plugin.binaries, ArrayItems(plugin.props, "binaries"))) ==>
        Mirrors(plugin.binaries, ArrayItems(plugin.props, "binaries"))
      ensures plugin.latestBinary == old(plugin.latestBinary)
    {
      var body :- Call(Fetch(link));
      plugin.props := plugin.props[field := body];
      if field == "binaries" {
        var objects := Objects(ArrayItems(plugin.props, "binaries"));
        plugin.binaries := objects;
      } else if field == "reviews" {
        var objects := ReviewObjects(ArrayItems(plugin.props, "reviews"));
        plugin.reviews := objects;
      }
      plugin.loadedExtraFields := Some(Marked(plugin.loadedExtraFields.value, field));
      r := Ok(());
    }

    /** The state of `loadExtraPluginFields` after the first `i` fields
        loaded, from `start` and the trace `net`: the plugin is as
        `LoadAll` says for them, the objects of fields not asked for are
        the ones the plugin had (`binaries`, `reviews`), the latest binary
        is still `latest`, and loaded binaries are mirrored by objects. */
    ghost predicate Progress(plugin: Plugin, start: Loading, net: Net, fields: seq<string>, links: seq<string>, i: nat,
                             binaries: seq<Binary>, reviews: seq<Review>, latest: Option<Binary>)
      reads remote, plugin, plugin.binaries
    {
      && |fields| == |links| && i <= |fields|
      && plugin.loadedExtraFields.Some?
      && LoadAll(start, net, fields[..i], links[..i]) == (Ok(()), Loading(plugin.props, plugin.loadedExtraFields.value), remote.net)
      && ("binaries" !in fields ==> plugin.binaries == binaries)
      && ("reviews" !in fields ==> plugin.reviews == reviews)
      && ("binaries" in fields[..i] ==> Mirrors(plugin.binaries, ArrayItems(plugin.props, "binaries")))
      && plugin.latestBinary == latest
    }

    /** Field `i` of `loadExtraPluginFields`, after the first `i` loaded:
        either all of the first `i + 1` are loaded, or the whole load has
        failed here. */
    method LoadNext(plugin: Plugin, start: Loading, ghost net: Net, fields: seq<string>, links: seq<string>, i: nat,
                    ghost binaries: seq<Binary>, ghost reviews: seq<Review>, ghost latest: Option<Binary>)
      returns (r: Result<()>)
      requires i < |fields| && Progress(plugin, start, net, fields, links, i, binaries, reviews, latest)
      modifies plugin, remote
      ensures r.Ok? ==> Progress(plugin, start, net, fields, links, i + 1, binaries, reviews, latest)
      ensures r.Fail? ==>
        && plugin.loadedExtraFields.Some?
        && LoadAll(start, net, fields, links) == (r, Loading(plugin.props, plugin.loadedExtraFields.value), remote.net)
        && ("binaries" !in fields ==> plugin.binaries == binaries)
        && ("reviews" !in fields ==> plugin.reviews == reviews)
        && plugin.latestBinary == latest
    {
      LoadAllNext(start, net, fields, links, i);
      Listed(fields, i, "binaries");
      assert fields[i] in fields;
      r := LoadField(plugin, fields[i], links[i]);
      if r.Fail? {
        LoadAllStops(start, net, fields, links, i + 1);
      }
    }

    /** `loadExtraPluginFields(plugin, fields)`: each field is fetched from
        the link the plugin holds under it, replaced by the body and marked
        loaded. The fetches run one after the other here. */
    method LoadExtraPluginFields(plugin: Plugin, fields: seq<string>) returns (r: Result<()>)
      modifies plugin, remote
      ensures plugin.loadedExtraFields.Some?
      ensures (r, Loading(plugin.props, plugin.loadedExtraFields.value), remote.net)
        == LoadAll(Loading(old(plugin.props), LoadedOrEmpty(old(plugin.loadedExtraFields))), old(remote.net), fields, Links(old(plugin.props), fields))
      ensures "binaries" !in fields ==> plugin.binaries == old(plugin.binaries)
      ensures "reviews" !in fields ==> plugin.reviews == old(plugin.reviews)
      ensures r.Ok? && "binaries" in fields ==> Mirrors(plugin.binaries, ArrayItems(plugin.props, "binaries"))
      ensures plugin.latestBinary == old(plugin.latestBinary)
    {
      var start := Loading(plugin.props, LoadedOrEmpty(plugin.loadedExtraFields));
      if plugin.loadedExtraFields.None? {
        plugin.loadedExtraFields := Some([]);
      }
      var links := Links(plugin.props, fields);
      ghost var net := remote.net;
      ghost var binaries, reviews, latest := plugin.binaries, plugin.reviews, plugin.latestBinary;
      var i := 0;
      while i < |fields|
        invariant Progress(plugin, start, net, fields, links, i, binaries, reviews, latest)
      {
        var loaded := LoadNext(plugin, start, net, fields, links, i, binaries, reviews, latest);
        if loaded.Fail? {
          return loaded;
        }
        i := i + 1;
      }
      assert fields[..i] == fields && links[..i] == links;
      r := Ok(());
    }

    /** The cached plugin filed under `name`, as a set to name in frames. */
    function Target(name: string): set<Plugin>
      reads this
    {
      if plugins.Some? && name in plugins.value then {plugins.value[name]} else {}
    }

    /** `this.accountData.plugins[name]`. */
    function CachedAs(name: string): Option<Plugin>
      reads this
    {
      if plugins.Some? && name in plugins.value then Some(plugins.value[name]) else None
    }

    /** Whether `updatePluginData(this.accountData.plugins[name], data)`
        throws: with no plugins loaded, with a `null` response, or with no
        plugin of that name and a response that has keys. */
    predicate MergeThrows(name: string, data: Json)
      reads this
    {
      plugins.None? || data.JNull? || (name !in plugins.value && HasKeys(data))
    }

    /** `plugin.binaries = data; plugin.latestBinary =
        plugin.binaries[plugin.binaries.length - 1]`: the body is stored and
        gives the binary objects, the last of them the latest; reading the
        length of `null` throws. */
    method StoreBinaries(plugin: Plugin, data: Json) returns (r: Result<()>)
      modifies plugin
      ensures plugin.props == old(plugin.props)["binaries" := data]
      ensures r.Fail? <==> data.JNull?
      ensures r.Fail? ==> r == Fail(BinariesOfNull) && plugin.binaries == [] && plugin.latestBinary == old(plugin.latestBinary)
      ensures r.Ok? ==> HoldsBinaries(plugin, data) && forall b :: b in plugin.binaries ==> fresh(b)
      ensures r.Ok? && plugin.latestBinary.Some? ==> fresh(plugin.latestBinary.value)
      ensures plugin.reviews == old(plugin.reviews) && plugin.loadedExtraFields == old(plugin.loadedExtraFields)
    {
      plugin.props := plugin.props["binaries" := data];
      if data.JNull? {
        plugin.binaries := [];
        return Fail(BinariesOfNull);
      }
      if data.JArr? {
        var objects := Objects(data.items);
        plugin.binaries := objects;
        plugin.latestBinary := if objects == [] then None else Some(objects[|objects| - 1]);
      } else {
        plugin.binaries, plugin.latestBinary := [], None;
      }
      r := Ok(());
    }

    /** `uploadPluginBinary(plugin, filePath)`: the file is posted to the
        plugin's binaries, and the plugin takes the binaries the store
        answers with. */
    method UploadPluginBinary(plugin: Plugin, filePath: string) returns (r: Result<Plugin>)
      modifies plugin, remote
      ensures var (reply, net) := Transmit(old(remote.net), Upload(generation, BinariesPath(old(plugin.Id())), filePath));
        && remote.net == net
        && (r.Ok? <==> IsSuccess(reply) && !reply.data.JNull?)
        && (!IsSuccess(reply) ==> r == Fail(ErrorOf(reply)) && plugin.props == old(plugin.props) && plugin.binaries == old(plugin.binaries))
        && (IsSuccess(reply) ==> plugin.props == old(plugin.props)["binaries" := reply.data])
        && (IsSuccess(reply) && reply.data.JNull? ==> r == Fail(BinariesOfNull))
        && (r.Ok? ==> r.value == plugin && HoldsBinaries(plugin, reply.data))
      ensures r.Ok? ==> forall b :: b in plugin.binaries ==> fresh(b)
      ensures r.Ok? && plugin.latestBinary.Some? ==> fresh(plugin.latestBinary.value)
      ensures plugin.reviews == old(plugin.reviews) && plugin.loadedExtraFields == old(plugin.loadedExtraFields)
    {
      var data :- Call(Upload(generation, BinariesPath(plugin.Id()), filePath));
      var stored :- StoreBinaries(plugin, data);
      r := Ok(plugin);
    }

    /** `updatePluginBinary(plugin, binary, filePath)`: the file replaces
        the binary's file, and the plugin takes the binaries the store
        answers with. */
    method UpdatePluginBinary(plugin: Plugin, binary: Binary, filePath: string) returns (r: Result<Plugin>)
      modifies plugin, remote
      ensures var path := BinaryPath(old(plugin.Id()), JsString(Lookup(binary.props, "id"))) + "/file";
        var (reply, net) := Transmit(old(remote.net), Upload(generation, path, filePath));
        && remote.net == net
        && (r.Ok? <==> IsSuccess(reply) && !reply.data.JNull?)
        && (!IsSuccess(reply) ==> r == Fail(ErrorOf(reply)) && plugin.props == old(plugin.props) && plugin.binaries == old(plugin.binaries))
        && (IsSuccess(reply) ==> plugin.props == old(plugin.props)["binaries" := reply.data])
        && (IsSuccess(reply) && reply.data.JNull? ==> r == Fail(BinariesOfNull))
        && (r.Ok? ==> r.value == plugin && HoldsBinaries(plugin, reply.data))
      ensures r.Ok? ==> forall b :: b in plugin.binaries ==> fresh(b)
      ensures r.Ok? && plugin.latestBinary.Some? ==> fresh(plugin.latestBinary.value)
      ensures plugin.reviews == old(plugin.reviews) && plugin.loadedExtraFields == old(plugin.loadedExtraFields)
    {
      var path := BinaryPath(plugin.Id(), JsString(Lookup(binary.props, "id"))) + "/file";
      var data :- Call(Upload(generation, path, filePath));
      var stored :- StoreBinaries(plugin, data);
      r := Ok(plugin);
    }

    /** `savePluginBinary(plugin, binary)`: the binary is put, and takes the
        changelogs, compatible versions and status of the answer. */
    method SavePluginBinary(plugin: Plugin, binary: Binary) returns (r: Result<Plugin>)
      modifies binary, remote
      ensures var path := BinaryPath(plugin.Id(), JsString(Lookup(old(binary.props), "id")));
        var (reply, net) := Transmit(old(remote.net), Sent(Put, path, None, JObj(old(binary.props)), None));
        && remote.net == net
        && (r.Ok? <==> IsSuccess(reply) && !reply.data.JNull?)
        && (!IsSuccess(reply) ==> r == Fail(ErrorOf(reply)))
        && (r.Ok? ==> r.value == plugin && binary.props == WrittenBack(old(binary.props), Fields(reply.data)))
        && (r.Fail? ==> binary.props == old(binary.props))
        && (IsSuccess(reply) && reply.data.JNull? ==> r == Fail(TypeError("cannot read property changelogs of null")))
    {
      var path := BinaryPath(plugin.Id(), JsString(Lookup(binary.props, "id")));
      var data :- Call(Sent(Put, path, None, JObj(binary.props), None));
      var changelogs :- Prop(Some(data), "changelogs");
      binary.props := Assigned(binary.props, "changelogs", changelogs);
      binary.props := Assigned(binary.props, "compatibleSoftwareVersions", Prop(Some(data), "compatibleSoftwareVersions").value);
      binary.props := Assigned(binary.props, "status", Prop(Some(data), "status").value);
      r := Ok(plugin);
    }

    /** One poll of `pollReviewStatus`. */
    method PollOnce(plugin: Plugin, review: Review) returns (r: Result<Option<Json>>)
      modifies review, remote
      ensures (r, review.props, remote.net) == PollStep(old(review.props), old(remote.net), plugin.Id())
    {
      remote.Sleep(PollSeconds);
      var data :- Call(Fetch(ReviewsPath(plugin.Id())));
      var items :- Items(Some(data));
      var updated :- FindById(items, Lookup(review.props, "id"));
      var status :- Prop(updated, "status");
      var comment := Prop(updated, "comment").value;
      review.props := Assigned(Assigned(review.props, "status", status), "comment", comment);
      r := StatusId(review.props);
    }

    /** `pollReviewStatus(review)`, entered with `pollCount` polls done: a
        pending review is polled again, until the twentieth poll. */
    method PollReviewStatus(plugin: Plugin, review: Review, pollCount: nat) returns (r: Result<()>)
      requires pollCount < MaxPolls
      modifies review, remote
      decreases MaxPolls - pollCount
      ensures (r, review.props, remote.net) == PollAll(old(review.props), old(remote.net), plugin.Id(), pollCount)
    {
      var id := PollOnce(plugin, review);
      if id.Ok? && id.value == Some(PendingReview) && pollCount + 1 < MaxPolls {
        r := PollReviewStatus(plugin, review, pollCount + 1);
      } else {
        r := if id.Fail? then Fail(id.error) else if id.value != Some(PendingReview) then Ok(()) else Fail(ReviewTimeout);
      }
    }

    /** `requestBinaryReview(plugin)`: a review is requested, added to the
        plugin's reviews and polled until it is no longer pending; `push`
        throws when the plugin's reviews are not an array. The older file
        never polls: its `pollReviewStatus` first reads `spinner` of its
        client, which the superagent client does not have, and so throws
        right after the push. */
    method RequestBinaryReview(plugin: Plugin) returns (r: Result<Plugin>)
      modifies plugin, remote
      ensures var (reply, net) := Transmit(old(remote.net), ReviewRequest(generation, old(plugin.Id())));
        && (!IsSuccess(reply) ==> r == Fail(ErrorOf(reply)) && remote.net == net && plugin.reviews == old(plugin.reviews))
        && (IsSuccess(reply) && !HoldsArray(old(plugin.props), "reviews") ==>
              r == Fail(ReviewsNotArray) && remote.net == net && plugin.reviews == old(plugin.reviews))
        && (generation == Legacy && IsSuccess(reply) && HoldsArray(old(plugin.props), "reviews") ==>
              && r == Fail(NoSpinner) && remote.net == net
              && (reply.data.JNull? ==> plugin.reviews == old(plugin.reviews))
              && (!reply.data.JNull? ==>
                    && |plugin.reviews| == |old(plugin.reviews)| + 1 && plugin.reviews[..|old(plugin.reviews)|] == old(plugin.reviews)
                    && fresh(plugin.reviews[|old(plugin.reviews)|]) && plugin.reviews[|old(plugin.reviews)|].props == Fields(reply.data)))
        && (generation == Current && IsSuccess(reply) && HoldsArray(old(plugin.props), "reviews") && reply.data.JNull? ==>
              && r == Fail(if IsSuccess(NextReply(net.script)) then ReviewIdOfNull else ErrorOf(NextReply(net.script)))
              && plugin.reviews == old(plugin.reviews)
              && remote.net == Net(Rest(net.script), net.sent + [Fetch(ReviewsPath(old(plugin.Id())))], net.events, net.sleeps + [PollSeconds * 1000]))
        && (generation == Current && IsSuccess(reply) && HoldsArray(old(plugin.props), "reviews") && !reply.data.JNull? ==>
              var polled := PollAll(Fields(reply.data), net, old(plugin.Id()), 0);
              && |plugin.reviews| == |old(plugin.reviews)| + 1 && plugin.reviews[..|old(plugin.reviews)|] == old(plugin.reviews)
              && fresh(plugin.reviews[|old(plugin.reviews)|]) && plugin.reviews[|old(plugin.reviews)|].props == polled.1
              && remote.net == polled.2
              && (r.Ok? <==> polled.0.Ok?) && (r.Fail? ==> r.error == polled.0.error)
              && (r.Ok? ==> r.value == plugin && ReviewFinished(polled.1)))
      ensures plugin.props == old(plugin.props) && plugin.binaries == old(plugin.binaries)
      ensures plugin.latestBinary == old(plugin.latestBinary) && plugin.loadedExtraFields == old(plugin.loadedExtraFields)
    {
      var data :- Call(ReviewRequest(generation, plugin.Id()));
      if !HoldsArray(plugin.props, "reviews") {
        return Fail(ReviewsNotArray);
      }
      if generation == Legacy {
        if !data.JNull? {
          var pushed := new Review(Fields(data));
          plugin.reviews := plugin.reviews + [pushed];
        }
        return Fail(NoSpinner);
      }
      if data.JNull? {
        // the `null` review is pushed, and reading its id after the first
        // fetch of the reviews throws
        remote.Sleep(PollSeconds);
        var listed :- Call(Fetch(ReviewsPath(plugin.Id())));
        return Fail(ReviewIdOfNull);
      }
      var review := new Review(Fields(data));
      plugin.reviews := plugin.reviews + [review];
      ghost var net := remote.net;
      var polled := PollReviewStatus(plugin, review, 0);
      PollAllOutcome(Fields(data), net, plugin.Id(), 0);
      if polled.Fail? {
        return Fail(polled.error);
      }
      r := Ok(plugin);
    }

    /** `updatePluginData(this.accountData.plugins[name], data)`, with the
        merge that a missing loaded-fields list reads as empty. */
    method MergeIntoCached(name: string, data: Json) returns (r: Result<()>)
      modifies Target(name)
      ensures r.Fail? <==> MergeThrows(name, data)
      ensures r.Fail? ==> r.error.TypeError?
      ensures plugins.Some? && name in plugins.value && data.JNull? ==> r == Fail(NullData)
      ensures plugins.Some? && name in plugins.value ==>
        var target := plugins.value[name];
        && target.props == (if r.Ok? then Merged(old(target.props), Fields(data), LoadedOrEmpty(target.loadedExtraFields)) else old(target.props))
        && target.binaries == old(target.binaries) && target.latestBinary == old(target.latestBinary)
        && target.reviews == old(target.reviews) && target.loadedExtraFields == old(target.loadedExtraFields)
    {
      if plugins.None? {
        return Fail(TypeError("cannot read property of undefined"));
      }
      if name !in plugins.value {
        if data.JNull? || HasKeys(data) {
          return Fail(TypeError("cannot read property of undefined"));
        }
        return Ok(());
      }
      r := UpdatePluginData(plugins.value[name], data);
    }

    /** `savePlugin(plugin)`: the plugin is put, the answer merged into the
        cached plugin of its name, and that plugin returned. */
    method SavePlugin(plugin: Plugin) returns (r: Result<Option<Plugin>>)
      modifies remote, Target(plugin.Name())
      ensures var (reply, net) := Transmit(old(remote.net), Sent(Put, PluginPath(old(plugin.Id())), None, old(Serialised(generation, plugin.props, plugin)), None));
        && remote.net == net
        && (!IsSuccess(reply) ==> r == Fail(ErrorOf(reply)) && plugin.props == old(plugin.props))
        && (IsSuccess(reply) ==> (r.Fail? <==> MergeThrows(old(plugin.Name()), reply.data)))
        && (r.Ok? && plugin in Target(old(plugin.Name())) ==> plugin.props == Merged(old(plugin.props), Fields(reply.data), LoadedOrEmpty(plugin.loadedExtraFields)))
        && (r.Ok? && plugin !in Target(old(plugin.Name())) ==> plugin.props == old(plugin.props))
        && (plugins.Some? && old(plugin.Name()) in plugins.value ==>
              var cached := plugins.value[old(plugin.Name())];
              cached.props == if r.Ok? then Merged(old(cached.props), Fields(reply.data), LoadedOrEmpty(cached.loadedExtraFields)) else old(cached.props))
      ensures r.Fail? ==> plugin.props == old(plugin.props)
      ensures r.Ok? ==> r.value == CachedAs(plugin.Name())
    {
      var data :- Call(Sent(Put, PluginPath(plugin.Id()), None, Serialised(generation, plugin.props, plugin), None));
      var merged :- MergeIntoCached(plugin.Name(), data);
      r := Ok(CachedAs(plugin.Name()));
    }

    /** `enablePartialIonCubeEncryption(plugin)`: an encrypted plugin without
        the partial encryption addon gets the addon of the statics, and is
        put and merged as by `savePlugin`; otherwise nothing is sent. */
    method EnablePartialIonCubeEncryption(plugin: Plugin) returns (r: Result<Option<Plugin>>)
      modifies plugin, remote, Target(plugin.Name())
      ensures var plan := AddonPlan(generation, old(plugin.props), statics);
        && (plan.Fail? ==> r == Fail(plan.error) && plugin.props == old(plugin.props) && remote.net == old(remote.net))
        && (plan == Ok(None) ==> r == Ok(Some(plugin)) && plugin.props == old(plugin.props) && remote.net == old(remote.net))
        && (plan.Ok? && plan.value.Some? ==>
              var pushed := Pushed(old(plugin.props), plan.value.value);
              var (reply, net) := Transmit(old(remote.net), Sent(Put, PluginPath(old(plugin.Id())), None, old(Serialised(generation, pushed, plugin)), None));
              && remote.net == net
              && (!IsSuccess(reply) ==> r == Fail(ErrorOf(reply)) && plugin.props == pushed)
              && (IsSuccess(reply) ==> (r.Fail? <==> MergeThrows(old(plugin.Name()), reply.data)))
              && (IsSuccess(reply) && reply.data.JNull? && plugin in Target(old(plugin.Name())) ==> r == Fail(NullData))
              && (r.Ok? && plugin in Target(old(plugin.Name())) ==> plugin.props == Merged(pushed, Fields(reply.data), LoadedOrEmpty(plugin.loadedExtraFields)))
              && (plugin !in Target(old(plugin.Name())) ==> plugin.props == pushed)
              && (plugins.Some? && old(plugin.Name()) in plugins.value && plugins.value[old(plugin.Name())] != plugin ==>
                    var cached := plugins.value[old(plugin.Name())];
                    cached.props == if r.Ok? then Merged(old(cached.props), Fields(reply.data), LoadedOrEmpty(cached.loadedExtraFields)) else old(cached.props)))
      ensures AddonPlan(generation, old(plugin.props), statics).Fail? || AddonPlan(generation, old(plugin.props), statics) == Ok(None) ==>
        forall cached :: cached in Target(old(plugin.Name())) ==> cached.props == old(cached.props)
      ensures r.Ok? && AddonPlan(generation, old(plugin.props), statics) != Ok(None) ==> r.value == CachedAs(plugin.Name())
      ensures plugin.binaries == old(plugin.binaries) && plugin.reviews == old(plugin.reviews)
      ensures plugin.latestBinary == old(plugin.latestBinary) && plugin.loadedExtraFields == old(plugin.loadedExtraFields)
    {
      var plan :- AddonPlan(generation, plugin.props, statics);
      if plan.None? {
        return Ok(Some(plugin));
      }
      var body := Serialised(generation, Pushed(plugin.props, plan.value), plugin);
      plugin.props := Pushed(plugin.props, plan.value);
      var data :- Call(Sent(Put, PluginPath(plugin.Id()), None, body, None));
      var merged :- MergeIntoCached(plugin.Name(), data);
      r := Ok(CachedAs(plugin.Name()));
    }
  }

  /** `findPlugin` with a name that is not listed, as written: the newer
      file calls its event emitter `this.logger` as if it were a function,
      which throws a TypeError before `process.exit(1)` is reached; the
      older file prints the message and exits. `PluginNotFound` stands for
      that report and exit. */
  function NotFoundAsWritten(generation: Generation, name: string): Error {
    if generation == Current then TypeError("this.logger is not a function") else PluginNotFound(name)
  }

  /** As written, the newer commander never reports a missing plugin: it
      fails with a TypeError instead, where the older one and `FindPlugin`
      report the name. */
  lemma NotFoundMisreported(name: string)
    ensures NotFoundAsWritten(Current, name).TypeError?
    ensures NotFoundAsWritten(Legacy, name) == PluginNotFound(name)
  {
  }

  // ----- what the commander promises --------------------------------------------

  /** A plugin listing that throws part-way throws as a whole, with the
      same error. */
  lemma {:induction false} FiledPrefixFails(items: seq<Json>, names: seq<string>, j: nat)
    requires |names| == |items| && j <= |items| && Filed(items[..j], names[..j]).Fail?
    ensures Filed(items, names) == Fail(Filed(items[..j], names[..j]).error)
    decreases |items|
  {
    if j == |items| {
      assert items[..j] == items && names[..j] == names;
    } else {
      var n := |items| - 1;
      assert items[..n][..j] == items[..j] && names[..n][..j] == names[..j];
      FiledPrefixFails(items[..n], names[..n], j);
    }
  }

  /** A load that fails part-way fails as a whole, with that state. */
  lemma {:induction false} LoadAllStops(start: Loading, net: Net, fields: seq<string>, links: seq<string>, j: nat)
    requires |fields| == |links| && j <= |fields| && LoadAll(start, net, fields[..j], links[..j]).0.Fail?
    ensures LoadAll(start, net, fields, links) == LoadAll(start, net, fields[..j], links[..j])
    decreases |fields|
  {
    if j == |fields| {
      assert fields[..j] == fields && links[..j] == links;
    } else {
      var n := |fields| - 1;
      assert fields[..n][..j] == fields[..j] && links[..n][..j] == links[..j];
      LoadAllStops(start, net, fields[..n], links[..n], j);
    }
  }

  /** A name is among the first `i + 1` entries when it is among the first
      `i` or is entry `i`. */
  lemma Listed(list: seq<string>, i: nat, name: string)
    requires i < |list|
    ensures name in list[..i + 1] <==> name in list[..i] || list[i] == name
  {
    assert list[..i + 1] == list[..i] + [list[i]];
  }

  /** Loading one more field after a successful prefix is one more step. */
  lemma LoadAllNext(start: Loading, net: Net, fields: seq<string>, links: seq<string>, i: nat)
    requires |fields| == |links| && i < |fields| && LoadAll(start, net, fields[..i], links[..i]).0.Ok?
    ensures var p := LoadAll(start, net, fields[..i], links[..i]);
      LoadAll(start, net, fields[..i + 1], links[..i + 1]) == LoadStep(p.1, p.2, fields[i], links[i])
  {
    assert fields[..i + 1][..i] == fields[..i];
    assert links[..i + 1][..i] == links[..i];
  }

  /** A load that succeeds fetched every field in turn: it sent one
      request per field, to that field's link, each answered with success,
      and consumed one reply per field. */
  lemma {:induction false} LoadAllSends(start: Loading, net: Net, fields: seq<string>, links: seq<string>)
    requires |fields| == |links| && LoadAll(start, net, fields, links).0.Ok?
    ensures var after := LoadAll(start, net, fields, links).2;
      && |fields| <= |net.script| && after.script == net.script[|fields|..]
      && after.sent == net.sent + Fetches(links)
      && after.events == net.events && after.sleeps == net.sleeps
      && (forall i :: 0 <= i < |fields| ==> IsSuccess(net.script[i]))
  {
    if fields != [] {
      var n := |fields| - 1;
      LoadAllSends(start, net, fields[..n], links[..n]);
    }
  }

  /** Loading fields keeps the list free of duplicates and leaves it
      holding exactly the earlier entries and the fields, in the order they
      were first marked. */
  lemma {:induction false} MarkedOnce(start: Loading, net: Net, fields: seq<string>, links: seq<string>)
    requires |fields| == |links| && LoadAll(start, net, fields, links).0.Ok?
    ensures var list := LoadAll(start, net, fields, links).1.loaded;
      && (forall f :: f in list <==> f in start.loaded || f in fields)
      && (NoDuplicates(start.loaded) ==> NoDuplicates(list))
      && |start.loaded| <= |list| && list[..|start.loaded|] == start.loaded
  {
    if fields != [] {
      var n := |fields| - 1;
      MarkedOnce(start, net, fields[..n], links[..n]);
      assert fields == fields[..n] + [fields[n]];
    }
  }

  /** A load only appends to what was sent. */
  lemma {:induction false} LoadAllExtends(start: Loading, net: Net, fields: seq<string>, links: seq<string>)
    requires |fields| == |links|
    ensures var after := LoadAll(start, net, fields, links).2;
      |net.sent| <= |after.sent| && after.sent[..|net.sent|] == net.sent
  {
    if fields != [] {
      var n := |fields| - 1;
      LoadAllExtends(start, net, fields[..n], links[..n]);
    }
  }

  /** A property no field names keeps its value. */
  lemma {:induction false} UnnamedKept(start: Loading, net: Net, fields: seq<string>, links: seq<string>, k: string)
    requires |fields| == |links| && k !in fields
    ensures Lookup(LoadAll(start, net, fields, links).1.props, k) == Lookup(start.props, k)
  {
    if fields != [] {
      var n := |fields| - 1;
      assert k !in fields[..n];
      UnnamedKept(start, net, fields[..n], links[..n], k);
    }
  }

  /** After a successful load, a field holds the body of the last reply
      fetched for it. */
  lemma {:induction false} LastFetchWins(start: Loading, net: Net, fields: seq<string>, links: seq<string>, i: nat)
    requires |fields| == |links| && LoadAll(start, net, fields, links).0.Ok?
    requires i < |fields| && fields[i] !in fields[i + 1..]
    ensures i < |net.script| && Lookup(LoadAll(start, net, fields, links).1.props, fields[i]) == Some(Body(net.script[i]))
  {
    LoadAllSends(start, net, fields, links);
    var n := |fields| - 1;
    if i < n {
      assert fields[n] in fields[i + 1..];
      assert fields[..n][i + 1..] == fields[i + 1..n];
      LastFetchWins(start, net, fields[..n], links[..n], i);
    } else {
      LoadAllSends(start, net, fields[..n], links[..n]);
    }
  }
  /** Polling fetches at least once and at most twenty times in all, and
      gives up only after the last allowed poll; the remote only ever
      gains sends, pauses and nothing else. */
  lemma {:induction false} PollAllCount(review: map<string, Json>, net: Net, pluginId: string, pollCount: nat)
    requires pollCount < MaxPolls
    decreases MaxPolls - pollCount
    ensures var p := PollAll(review, net, pluginId, pollCount);
      && |net.sent| + 1 <= |p.2.sent| <= |net.sent| + MaxPolls - pollCount
      && |p.2.sleeps| - |net.sleeps| == |p.2.sent| - |net.sent|
      && p.2.events == net.events
      && (p.0 == Fail(ReviewTimeout) ==> |p.2.sent| == |net.sent| + MaxPolls - pollCount)
  {
    var step := PollStep(review, net, pluginId);
    if step.0 == Ok(Some(PendingReview)) && pollCount + 1 < MaxPolls {
      PollAllCount(step.1, step.2, pluginId, pollCount + 1);
    }
  }

  /** Every send of a poll fetches the plugin's reviews. */
  lemma {:induction false} PollAllFetches(review: map<string, Json>, net: Net, pluginId: string, pollCount: nat)
    requires pollCount < MaxPolls
    decreases MaxPolls - pollCount
    ensures var p := PollAll(review, net, pluginId, pollCount);
      |net.sent| <= |p.2.sent| && p.2.sent == net.sent + Copies(Fetch(ReviewsPath(pluginId)), |p.2.sent| - |net.sent|)
  {
    var step := PollStep(review, net, pluginId);
    var fetch := Fetch(ReviewsPath(pluginId));
    if step.0 == Ok(Some(PendingReview)) && pollCount + 1 < MaxPolls {
      PollAllFetches(step.1, step.2, pluginId, pollCount + 1);
      var last := PollAll(step.1, step.2, pluginId, pollCount + 1).2;
      AppendCopies(net.sent, fetch, |last.sent| - |step.2.sent|);
    } else {
      assert Copies(fetch, 1) == [fetch];
    }
  }

  /** Every pause of a poll lasts three seconds. */
  lemma {:induction false} PollAllPauses(review: map<string, Json>, net: Net, pluginId: string, pollCount: nat)
    requires pollCount < MaxPolls
    decreases MaxPolls - pollCount
    ensures var p := PollAll(review, net, pluginId, pollCount);
      |net.sleeps| <= |p.2.sleeps| && p.2.sleeps == net.sleeps + Copies(PollSeconds * 1000, |p.2.sleeps| - |net.sleeps|)
  {
    var step := PollStep(review, net, pluginId);
    var pause := PollSeconds * 1000;
    assert step.2.sleeps == net.sleeps + [pause];
    if step.0 == Ok(Some(PendingReview)) && pollCount + 1 < MaxPolls {
      PollAllPauses(step.1, step.2, pluginId, pollCount + 1);
      var last := PollAll(step.1, step.2, pluginId, pollCount + 1).2;
      AppendCopies(net.sleeps, pause, |last.sleeps| - |step.2.sleeps|);
    } else {
      assert Copies(pause, 1) == [pause];
    }
  }

  /** Polling ends with a finished review, or gives up with the review
      still pending, or fails. */
  lemma {:induction false} PollAllOutcome(review: map<string, Json>, net: Net, pluginId: string, pollCount: nat)
    requires pollCount < MaxPolls
    decreases MaxPolls - pollCount
    ensures var p := PollAll(review, net, pluginId, pollCount);
      && (p.0.Ok? ==> ReviewFinished(p.1))
      && (p.0 == Fail(ReviewTimeout) ==> StatusId(p.1) == Ok(Some(PendingReview)))
  {
    var step := PollStep(review, net, pluginId);
    if step.0 == Ok(Some(PendingReview)) && pollCount + 1 < MaxPolls {
      PollAllOutcome(step.1, step.2, pluginId, pollCount + 1);
    } else if step.0.Ok? {
      assert StatusId(step.1) == step.0;
    }
  }

  /** Polling changes no property of the review but its status and its
      comment. */
  lemma {:induction false} PollAllKeeps(review: map<string, Json>, net: Net, pluginId: string, pollCount: nat, k: string)
    requires pollCount < MaxPolls && k != "status" && k != "comment"
    decreases MaxPolls - pollCount
    ensures Lookup(PollAll(review, net, pluginId, pollCount).1, k) == Lookup(review, k)
  {
    var step := PollStep(review, net, pluginId);
    if step.0.Ok? {
      PolledShape(review, net.script[0].data);
    }
    if step.0 == Ok(Some(PendingReview)) && pollCount + 1 < MaxPolls {
      PollAllKeeps(step.1, step.2, pluginId, pollCount + 1, k);
    }
  }

  /** A finished review holds the status and comment of the last list
      fetched, whatever the earlier polls wrote. */
  lemma {:induction false} PollAllLast(review: map<string, Json>, net: Net, pluginId: string, pollCount: nat)
    requires pollCount < MaxPolls
    requires PollAll(review, net, pluginId, pollCount).0.Ok?
    decreases MaxPolls - pollCount
    ensures var p := PollAll(review, net, pluginId, pollCount);
      var polls := |p.2.sent| - |net.sent|;
      && 1 <= polls <= |net.script| && IsSuccess(net.script[polls - 1])
      && Polled(review, net.script[polls - 1].data) == Ok(p.1)
  {
    var step := PollStep(review, net, pluginId);
    if step.0 == Ok(Some(PendingReview)) && pollCount + 1 < MaxPolls {
      PollAllLast(step.1, step.2, pluginId, pollCount + 1);
      var last := PollAll(step.1, step.2, pluginId, pollCount + 1).2;
      var later := |last.sent| - |step.2.sent|;
      assert step.2.script == net.script[1..];
      PolledShape(review, net.script[0].data);
      PollRepeats(review, Lookup(step.1, "status"), Lookup(step.1, "comment"), step.2.script[later - 1].data);
    }
  }

  /** A poll only sets the status and the comment. */
  lemma PolledShape(review: map<string, Json>, data: Json)
    requires Polled(review, data).Ok?
    ensures var p := Polled(review, data).value;
      p == Assigned(Assigned(review, "status", Lookup(p, "status")), "comment", Lookup(p, "comment"))
  {
    var p := Polled(review, data).value;
    SameLookups(p, Assigned(Assigned(review, "status", Lookup(p, "status")), "comment", Lookup(p, "comment")));
  }

  // ----- addons -----------------------------------------------------------------

  /** What `find` returns has a matching name. */
  lemma {:induction false} FoundMatches(generation: Generation, items: seq<Json>, wanted: string)
    requires FindByName(generation, items, wanted).Ok? && FindByName(generation, items, wanted).value.Some?
    ensures NameMatches(generation, Lookup(FindByName(generation, items, wanted).value.value.props, "name"), wanted)
  {
    if items != [] {
      var name := Prop(Some(items[0]), "name");
      if !NameMatches(generation, name.value, wanted) {
        FoundMatches(generation, items[1..], wanted);
      }
    }
  }

  /** `find` over a longer array: an item found in the front is still the
      one found; when none is, the search goes on in the rest. */
  lemma {:induction false} FindInAppended(generation: Generation, items: seq<Json>, extra: seq<Json>, wanted: string)
    requires FindByName(generation, items, wanted).Ok?
    ensures FindByName(generation, items + extra, wanted)
      == if FindByName(generation, items, wanted).value.Some? then FindByName(generation, items, wanted) else FindByName(generation, extra, wanted)
  {
    if items == [] {
      assert items + extra == extra;
    } else {
      assert (items + extra)[0] == items[0];
      assert (items + extra)[1..] == items[1..] + extra;
      var name := Prop(Some(items[0]), "name");
      if !NameMatches(generation, name.value, wanted) {
        FindInAppended(generation, items[1..], extra, wanted);
      }
    }
  }

  /** A one-item array whose item has a matching name finds it. */
  lemma FindSingle(generation: Generation, item: Json, wanted: string)
    requires item.JObj? && NameMatches(generation, Lookup(item.props, "name"), wanted)
    ensures FindByName(generation, [item], wanted) == Ok(Some(item))
  {
    assert Prop(Some(item), "name") == Ok(Lookup(item.props, "name"));
  }

  /** Enabling partial encryption is idempotent: once the addon of the
      statics is pushed, the plan for the pushed plugin is to do nothing,
      and so it stays after a response that echoes the addons is merged. */
  lemma EnablingIsIdempotent(generation: Generation, plugin: map<string, Json>, statics: Json, addon: Json, data: map<string, Json>, loaded: seq<string>)
    requires AddonPlan(generation, plugin, statics) == Ok(Some(addon))
    requires "addons" in data ==> data["addons"] == Pushed(plugin, addon)["addons"]
    ensures AddonPlan(generation, Pushed(plugin, addon), statics) == Ok(None)
    ensures AddonPlan(generation, Merged(Pushed(plugin, addon), data, loaded), statics) == Ok(None)
  {
    var addons := ArrayItems(plugin, "addons");
    var pushed := Pushed(plugin, addon);
    var offered := Items(Prop(Some(statics), "addons").value).value;
    assert Lookup(pushed, "addons") == Some(JArr(addons + [addon]));
    FindInAppended(generation, addons, [addon], EncryptionAddon);
    FindInAppended(generation, addons, [addon], PartialEncryptionAddon);
    FoundMatches(generation, offered, PartialEncryptionAddon);
    FindSingle(generation, addon, PartialEncryptionAddon);
    var merged := Merged(pushed, data, loaded);
    assert Lookup(merged, "addons") == Lookup(pushed, "addons");
  }

  // ----- the plugin cache -------------------------------------------------------

  /** A listed plugin is filed under the string form of its name. */
  lemma FiledUnder(item: Json)
    requires !item.JNull?
    ensures Prop(Some(item), "name").Ok? && JsString(Prop(Some(item), "name").value) == FiledName(item)
  {
  }

  /** Every plugin of the listing is filed, under its name, and nothing
      else is. */
  lemma {:induction false} FiledNames(items: seq<Json>, names: seq<string>)
    requires |names| == |items| && Filed(items, names).Ok?
    ensures Filed(items, names).value.Keys == set j | 0 <= j < |items| :: names[j]
  {
    if items != [] {
      var n := |items| - 1;
      FiledNames(items[..n], names[..n]);
      assert forall j :: 0 <= j < n ==> names[..n][j] == names[j];
    }
  }

  /** A plugin that no later plugin of the listing shares a name with is
      the one filed under its name. */
  lemma {:induction false} LaterWins(items: seq<Json>, names: seq<string>, i: nat)
    requires |names| == |items| && Filed(items, names).Ok? && i < |items|
    requires forall j :: i < j < |items| ==> names[j] != names[i]
    ensures names[i] in Filed(items, names).value && Filed(items, names).value[names[i]] == Fields(items[i])
  {
    var n := |items| - 1;
    if i < n {
      assert forall j :: i < j < n ==> names[..n][j] == names[j];
      LaterWins(items[..n], names[..n], i);
    }
  }

  /** Every plugin of the listing is filed under its own name. */
  lemma {:induction false} FiledUnderOwnName(items: seq<Json>, names: seq<string>)
    requires |names| == |items| && Filed(items, names).Ok?
    requires forall j :: 0 <= j < |items| ==> names[j] == FiledName(items[j])
    ensures forall k :: k in Filed(items, names).value ==> JsString(Lookup(Filed(items, names).value[k], "name")) == k
  {
    if items != [] {
      var n := |items| - 1;
      FiledUnderOwnName(items[..n], names[..n]);
    }
  }

  /** The listing files exactly the names of its plugins, and a plugin
      that no later plugin shares a name with is the one filed under its
      name. */
  lemma KeyedByNameFiles(items: seq<Json>, i: nat)
    requires KeyedByName(items).Ok? && i < |items|
    requires forall j :: i < j < |items| ==> FiledName(items[j]) != FiledName(items[i])
    ensures KeyedByName(items).value.Keys == set j | 0 <= j < |items| :: FiledName(items[j])
    ensures FiledName(items[i]) in KeyedByName(items).value && KeyedByName(items).value[FiledName(items[i])] == Fields(items[i])
  {
    var names := Names(items);
    assert forall j :: 0 <= j < |items| ==> names[j] == FiledName(items[j]);
    FiledNames(items, names);
    LaterWins(items, names, i);
  }
}
