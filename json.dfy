/** The JSON values the store handles (section 3 of RFC 8259), the
    org.json accessors the source reads them with, and the text formats it
    relies on, kept abstract. */
module Json {
  import opened Wrappers
  import opened JavaInt
  import opened Strings

  /** A JSON value. Numbers are integers: the source only stores Java `int`s. */
  datatype Json =
    | JNull
    | JBool(b: bool)
    | JInt(n: int)
    | JString(s: string)
    | JArray(items: seq<Json>)
    | JObject(fields: map<string, Json>)

  /** The members of a JSON object, as `org.json.JSONObject` holds them. */
  type JsonObject = map<string, Json>

  /** The text formats the source delegates to libraries: org.json's
      printer (`toString`) and parser (`new JSONObject(text)`,
      `new JSONArray(text)`), and `LocalDateTime.toString`/`parse`. A parse
      that throws is `None`. */
  datatype Codec = Codec(
    render: Json -> string,
    parse: string -> Option<Json>,
    showTime: int -> string,
    parseTime: string -> Option<int>)

  /** What the model assumes of the libraries: printed JSON parses back to
      the same value and is never blank, blank text does not parse (org.json
      throws on it), and a printed date-time parses back to the same
      instant. */
  ghost predicate Lawful(c: Codec) {
    && (forall j :: c.parse(c.render(j)) == Some(j))
    && (forall j :: !IsBlank(c.render(j)))
    && (forall t :: IsBlank(t) ==> c.parse(t) == None)
    && (forall t :: c.parseTime(c.showTime(t)) == Some(t))
  }

  /** `text.trim().isEmpty()`: `trim` strips every character up to U+0020. */
  predicate IsBlank(text: string) {
    forall i :: 0 <= i < |text| ==> text[i] <= ' '
  }

  /** `JSONObject.getString`: only a string member is accepted. */
  function GetString(o: JsonObject, key: string): (r: Option<string>)
    ensures r.Some? <==> key in o && o[key].JString?
    ensures r.Some? ==> o[key] == JString(r.value)
  {
    if key in o && o[key].JString? then Some(o[key].s) else None
  }

  /** The boolean a member stands for under `JSONObject.getBoolean`: a
      boolean, or the word false/true in any case; anything else (null, a
      number, an array, an object, another string) throws, here `None`. */
  function BooleanOf(v: Json): Option<bool> {
    match v
    case JBool(b) => Some(b)
    case JString(s) =>
      if EqualsIgnoreCase(s, "false") then Some(false)
      else if EqualsIgnoreCase(s, "true") then Some(true)
      else None
    case _ => None
  }

  /** `JSONObject.getBoolean`. */
  function GetBoolean(o: JsonObject, key: string): (r: Option<bool>)
    ensures key in o && o[key] == JBool(true) ==> r == Some(true)
    ensures key in o && o[key] == JBool(false) ==> r == Some(false)
    ensures key in o && o[key].JString? ==> (r == Some(true) <==> EqualsIgnoreCase(o[key].s, "true"))
    ensures key in o && o[key].JString? ==> (r == Some(false) <==> EqualsIgnoreCase(o[key].s, "false"))
    ensures key in o && !o[key].JBool? && !o[key].JString? ==> r == None
    ensures key !in o ==> r == None
  {
    if key in o then BooleanOf(o[key]) else None
  }

  /** Java folds the long s onto S, so "falſe" reads as false, and a
      number or a null member makes `getBoolean` throw. */
  lemma GetBooleanExamples()
    ensures GetBoolean(map["completed" := JString("fal\U{017F}e")], "completed") == Some(false)
    ensures GetBoolean(map["completed" := JString("TRUE")], "completed") == Some(true)
    ensures GetBoolean(map["completed" := JString("yes")], "completed") == None
    ensures GetBoolean(map["completed" := JNull], "completed") == None
  {
    var longS := "fal\U{017F}e";
    assert FoldCase(longS[3]) == 's';
    var upper := "TRUE";
    assert FoldCase(upper[0]) == 't' && FoldCase(upper[1]) == 'r';
    assert FoldCase(upper[2]) == 'u' && FoldCase(upper[3]) == 'e';
  }

  /** `JSONObject.optBoolean(key, default)`: like `getBoolean`, with
      `default` for an absent, null or unreadable member. */
  function OptBoolean(o: JsonObject, key: string, default: bool): (r: bool)
    ensures key in o && o[key].JBool? ==> r == o[key].b
    ensures key !in o ==> r == default
  {
    if key in o then BooleanOf(o[key]).GetOr(default) else default
  }

  /** `JSONObject.optInt(key, default)`: a number narrowed to `int`,
      `default` otherwise. */
  function OptInt(o: JsonObject, key: string, default: Int32): (r: Int32)
    ensures key in o && o[key].JInt? && INT_MIN <= o[key].n <= INT_MAX ==> r == o[key].n
    ensures !(key in o && o[key].JInt?) ==> r == default
  {
    if key in o && o[key].JInt? then Wrap32(o[key].n) else default
  }

  /** The text `Object.toString` gives a member that is not a string. */
  function ValueText(v: Json, c: Codec): string {
    match v
    case JBool(b) => if b then "true" else "false"
    case JInt(n) => IntToString(n)
    case JString(s) => s
    case _ => c.render(v)
  }

  /** `JSONObject.optString(key, default)`: `default` for an absent or
      null member, otherwise the member's text. */
  function OptString(o: JsonObject, key: string, default: string, c: Codec): (r: string)
    ensures key in o && o[key].JString? ==> r == o[key].s
    ensures (key !in o || o[key] == JNull) ==> r == default
  {
    if key !in o || o[key] == JNull then default else ValueText(o[key], c)
  }

  /** `JSONObject.optJSONArray(key)`: the member when it is an array. */
  function ArrayMember(o: JsonObject, key: string): (r: Option<seq<Json>>)
    ensures r.Some? <==> key in o && o[key].JArray?
    ensures r.Some? ==> o[key] == JArray(r.value)
  {
    if key in o && o[key].JArray? then Some(o[key].items) else None
  }
}
