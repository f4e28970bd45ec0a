/** Decoded JSON values as both the Python proxy and the JavaScript front end
    see them, with each language's truthiness and string conversion. */
module Json {
  import opened Base

  /** A decoded JSON document. Numbers are integers only. */
  datatype JsonValue =
    | JNull
    | JBool(b: bool)
    | JNum(n: int)
    | JStr(s: string)
    | JArr(items: seq<JsonValue>)
    | JObj(fields: map<string, JsonValue>)

  /** Python's truthiness of the decoded value, as in `if not x:`. */
  predicate PyTruthy(v: JsonValue)
  {
    match v
    case JNull => false
    case JBool(b) => b
    case JNum(n) => n != 0
    case JStr(s) => s != ""
    case JArr(a) => a != []
    case JObj(m) => m != map[]
  }

  /** JavaScript's truthiness of the parsed value: arrays and objects are
      truthy even when empty. */
  predicate JsTruthy(v: JsonValue)
  {
    match v
    case JNull => false
    case JBool(b) => b
    case JNum(n) => n != 0
    case JStr(s) => s != ""
    case JArr(_) => true
    case JObj(_) => true
  }

  /** Python's `str(x)` as an f-string inserts a scalar into a URL.
      Lists and dicts are rendered by a placeholder, not by Python's repr. */
  function PyStr(v: JsonValue): string
  {
    match v
    case JNull => "None"
    case JBool(b) => if b then "True" else "False"
    case JNum(n) => IntToDecimal(n)
    case JStr(s) => s
    case JArr(_) => "[...]"
    case JObj(_) => "{...}"
  }

  /** JavaScript's `${x}` conversion of a parsed value. */
  function JsStr(v: JsonValue): string
  {
    match v
    case JNull => "null"
    case JBool(b) => if b then "true" else "false"
    case JNum(n) => IntToDecimal(n)
    case JStr(s) => s
    case JArr(a) => JsJoin(a)
    case JObj(_) => "[object Object]"
  }

  /** `Array.prototype.toString`: the elements joined by ",", with `null`
      written as the empty text. */
  function JsJoin(a: seq<JsonValue>): string
    decreases a
  {
    if a == [] then ""
    else
      var head := if a[0].JNull? then "" else JsStr(a[0]);
      if |a| == 1 then head else head + "," + JsJoin(a[1..])
  }

  /** A JSON object whose only member names the error: `{'error': msg}`. */
  function ErrorBody(msg: string): (v: JsonValue)
    ensures v.JObj? && v.fields.Keys == {"error"} && v.fields["error"] == JStr(msg)
  {
    JObj(map["error" := JStr(msg)])
  }

  /** The property `key` of a parsed value, `undefined` (None) when the value
      is not an object or has no such member. */
  function Property(v: JsonValue, key: string): (r: Option<JsonValue>)
    ensures r.Some? <==> v.JObj? && key in v.fields
  {
    if v.JObj? && key in v.fields then Some(v.fields[key]) else None
  }

  /** Distinct integers give distinct URL segments, in both languages. */
  lemma NumberTextInjective(i: int, j: int)
    requires PyStr(JNum(i)) == PyStr(JNum(j)) || JsStr(JNum(i)) == JsStr(JNum(j))
    ensures i == j
  {
    IntToDecimalInjective(i, j);
  }
}
