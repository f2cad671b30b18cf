/**
 * Already-parsed JSON values, as Gson's `JsonElement` tree holds them, and the
 * `JsonElement`/`JsonObject` accessors the plugin calls on them.  An accessor
 * that would throw in Gson returns `None` here.
 */
module Json {
  import opened Wrappers
  import opened KotlinText

  /**
   * A JSON number as Gson's `LazilyParsedNumber` keeps it: its literal text, and
   * its value rounded toward zero (what `intValue()` starts from).
   */
  datatype Number = Number(text: string, truncated: int)

  /** A double-precision value, kept opaque: it is identified by the text `Double.toString` prints for it. */
  datatype Double = Double(text: string)

  datatype Json =
    | JNull
    | JBool(b: bool)
    | JNumber(n: Number)
    | JString(s: string)
    | JArray(items: seq<Json>)
    | JObject(fields: map<string, Json>)

  /** The characters a JSON number literal is made of. */
  predicate IsNumberText(s: string) {
    s != "" && forall k :: 0 <= k < |s| ==> s[k] in "0123456789+-.eE"
  }

  /** `JsonObject.get(key)` when it is present and not JSON null (`?.let { if (!it.isJsonNull) … }`). */
  function GetNonNull(o: map<string, Json>, key: string): (r: Option<Json>)
    ensures r.Some? <==> key in o && o[key] != JNull
    ensures r.Some? ==> r.value == o[key]
  {
    if key in o && o[key] != JNull then Some(o[key]) else None
  }

  /** `JsonElement.getAsJsonObject()`; absent where Gson throws (the element is not an object). */
  function AsObject(j: Json): (r: Option<map<string, Json>>)
    ensures r.Some? <==> j.JObject?
  {
    if j.JObject? then Some(j.fields) else None
  }

  /**
   * What a typed member lookup of Gson's `JsonObject` gives: no member, the
   * member cast to the expected kind, or a `ClassCastException` (JSON null and
   * every other kind of element).
   */
  datatype Access<T> = Absent | Present(value: T) | Throws

  /** `JsonObject.getAsJsonObject(key)`. */
  function GetObject(o: map<string, Json>, key: string): (r: Access<map<string, Json>>)
    ensures r.Absent? <==> key !in o
    ensures r.Present? <==> key in o && o[key].JObject?
    ensures r.Present? ==> r.value == o[key].fields
  {
    if key !in o then Absent else if o[key].JObject? then Present(o[key].fields) else Throws
  }

  /** `JsonObject.getAsJsonArray(key)`. */
  function GetArray(o: map<string, Json>, key: string): (r: Access<seq<Json>>)
    ensures r.Absent? <==> key !in o
    ensures r.Present? <==> key in o && o[key].JArray?
    ensures r.Present? ==> r.value == o[key].items
  {
    if key !in o then Absent else if o[key].JArray? then Present(o[key].items) else Throws
  }

  /**
   * `JsonElement.getAsString()`: a string is itself, a number its literal text,
   * a boolean "true" or "false", an array of exactly one element that element's
   * string; anything else throws.
   */
  function AsString(j: Json): Option<string> {
    match j
    case JString(s) => Some(s)
    case JNumber(n) => Some(n.text)
    case JBool(b) => Some(if b then "true" else "false")
    case JArray(items) => if |items| == 1 then AsString(items[0]) else None
    case _ => None
  }

  /**
   * `JsonElement.getAsBoolean()`: a boolean is itself; any other primitive is
   * `Boolean.parseBoolean` of its string (true only for "true" in any case).
   */
  function AsBoolean(j: Json): Option<bool> {
    match j
    case JBool(b) => Some(b)
    case JString(s) => Some(Lower(s) == "true")
    case JNumber(n) => Some(Lower(n.text) == "true")
    case JArray(items) => if |items| == 1 then AsBoolean(items[0]) else None
    case _ => None
  }

  /**
   * `JsonElement.getAsInt()`: a number gives the low 32 bits of its truncated
   * value; a string is parsed as `Integer.parseInt` does (and throws otherwise).
   */
  function AsInt(j: Json): Option<int> {
    match j
    case JNumber(n) => Some(Wrap32(n.truncated))
    case JString(s) => ParseInt(s)
    case JArray(items) => if |items| == 1 then AsInt(items[0]) else None
    case _ => None
  }

  /**
   * `JsonElement.getAsDouble()`: `Double.parseDouble` of a primitive's string
   * form (a number's literal text included), with the JVM's parser given as
   * `parseDouble`; JSON null and objects throw.
   */
  function AsDouble(j: Json, parseDouble: string -> Option<Double>): Option<Double> {
    match j
    case JNumber(n) => parseDouble(n.text)
    case JString(s) => parseDouble(s)
    case JBool(b) => parseDouble(if b then "true" else "false")
    case JArray(items) => if |items| == 1 then AsDouble(items[0], parseDouble) else None
    case _ => None
  }
}
