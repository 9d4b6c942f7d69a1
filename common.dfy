/** Shared vocabulary of the model: optional values, results that carry the
    errors the JavaScript code throws or rejects with, and plain JSON values. */
module Common {
  import Text

  datatype Option<+T> = None | Some(value: T)

  /** A value or one of the errors the source throws (or rejects its promise with). */
  datatype Result<+T> = Ok(value: T) | Fail(error: Error) {
    predicate IsFailure() { Fail? }

    function PropagateFailure<U>(): Result<U>
      requires Fail?
    {
      Fail(error)
    }

    function Extract(): T
      requires Ok?
    {
      value
    }
  }

  /** Every error the modelled code raises, one constructor per message or kind. */
  datatype Error =
    | FileDoesNotExist(path: string)                       // "File <path> does not exist"
    | LocaleWithoutVersion(locale: string)                 // "Found new locale section ... without an enclosing version header"
    | LocaleDeclaredTwice(locale: string, version: string) // "Locale ... was declared twice for version ..."
    | TypeError(reason: string)                            // a property read on undefined or null
    | JsonSyntaxError                                      // JSON.parse on malformed text
    | LabelNotAvailable(language: string)
    | ChangelogNotAvailable(language: string)
    | ChangelogVersionNotAvailable(language: string, version: string)
    | UndetectedShopwareVersion                            // "Could not detect whether it is a plugin for Shopware 5 or 6."
    | LoginFailed(message: string)                         // "Login failed: <message>"
    | HttpError(status: int, unauthorized: bool, message: string) // a transport error that carries a response
    | NetworkError(message: string)                        // a transport error without a response
    | MissingAddonOption(plugin: string)                   // "Cannot enable partial ionCube encryption ..."
    | ReviewTimeout                                        // "Reviews is taking longer than expected ..."
    | VersionExists(version: string, plugin: string)       // "The binary version ... already exists ..."
    | ReviewNotApproved(plugin: string, statusName: string, comment: string)
    | MissingPluginJson                                    // "Cannot upload plugin binary, because it is missing a plugin.json file."
    | PluginNotFound(name: string)
    | UnknownSortOrder(sort: string)                       // "'Sort' must be one of ..."

  /** A JSON value as produced by a response body or JSON.parse. */
  datatype Json =
    | JNull
    | JBool(b: bool)
    | JNum(n: int)
    | JStr(s: string)
    | JArr(items: seq<Json>)
    | JObj(props: map<string, Json>)

  /** JavaScript truthiness of a JSON value (objects and arrays are always truthy). */
  predicate Truthy(v: Json) {
    match v
    case JNull => false
    case JBool(b) => b
    case JNum(n) => n != 0
    case JStr(s) => s != ""
    case JArr(_) => true
    case JObj(_) => true
  }

  /** Truthiness of an optional string: undefined, null and '' are falsy. */
  predicate Present(s: Option<string>) {
    s.Some? && s.value != ""
  }

  /** JavaScript truthiness of a value that may be `undefined` (None). */
  predicate IsTruthy(v: Option<Json>) {
    v.Some? && Truthy(v.value)
  }

  /** `v[key]`: reading a property of `undefined` or `null` throws a
      TypeError; an object gives its own property, or `undefined` when it has
      none; for any other value the read gives `undefined` here. */
  function Prop(v: Option<Json>, key: string): (r: Result<Option<Json>>)
    ensures r.Fail? <==> v.None? || v.value.JNull?
    ensures r.Fail? ==> r.error.TypeError?
    ensures r.Ok? && v.value.JObj? ==> (r.value.Some? <==> key in v.value.props)
    ensures r.Ok? && r.value.Some? ==> v.value.JObj? && r.value.value == v.value.props[key]
  {
    match v
    case None => Fail(TypeError("cannot read property " + key + " of undefined"))
    case Some(JNull) => Fail(TypeError("cannot read property " + key + " of null"))
    case Some(JObj(props)) => Ok(if key in props then Some(props[key]) else None)
    case Some(_) => Ok(None)
  }

  /** `String(v)`, as a template literal or a property key converts a value. */
  function JsString(v: Option<Json>): string {
    match v
    case None => "undefined"
    case Some(j) => JsonString(j)
  }

  function JsonString(j: Json): string {
    match j
    case JNull => "null"
    case JBool(b) => if b then "true" else "false"
    case JNum(n) => if n < 0 then "-" + Text.NatToString(-n) else Text.NatToString(n)
    case JStr(s) => s
    case JArr(items) => ArrayString(items)
    case JObj(_) => "[object Object]"
  }

  /** `items.join(',')`, where `null` becomes the empty string. */
  function ArrayString(items: seq<Json>): string
    decreases items
  {
    if items == [] then ""
    else
      var first := if items[0].JNull? then "" else JsonString(items[0]);
      if |items| == 1 then first else first + "," + ArrayString(items[1..])
  }

  /** `JSON.parse`: the value a text denotes, or None for malformed text. */
  type JsonParser = string -> Option<Json>

  function ParseJson(text: string, parse: JsonParser): (r: Result<Json>)
    ensures r.Ok? <==> parse(text).Some?
    ensures r.Ok? ==> parse(text) == Some(r.value)
    ensures r.Fail? ==> r.error == JsonSyntaxError
  {
    if parse(text).None? then Fail(JsonSyntaxError) else Ok(parse(text).value)
  }

  /** `n` copies of `x`. */
  function Copies<T>(x: T, n: nat): (r: seq<T>)
    ensures |r| == n && forall i :: 0 <= i < n ==> r[i] == x
  {
    if n == 0 then [] else [x] + Copies(x, n - 1)
  }

  /** One more copy in front extends the copies. */
  lemma AppendCopies<T>(s: seq<T>, x: T, n: nat)
    ensures s + [x] + Copies(x, n) == s + Copies(x, n + 1)
  {
    assert Copies(x, n + 1) == [x] + Copies(x, n);
  }
}
