/** Parsed JSON values as the edge functions and pages see them, with the
    JavaScript operations applied to them: truthiness, optional property
    access and `String(v)` as used in template literals. Numbers are
    integers here. */
module JsonValues {
  import opened Wrappers
  import Text

  datatype Json =
    | JNull
    | JBool(b: bool)
    | JNum(n: int)
    | JStr(s: string)
    | JArr(items: seq<Json>)
    | JObj(fields: map<string, Json>)

  /** JavaScript truthiness of a value that is present. */
  predicate Truthy(v: Json) {
    match v
    case JNull => false
    case JBool(b) => b
    case JNum(n) => n != 0
    case JStr(s) => s != []
    case JArr(_) => true
    case JObj(_) => true
  }

  /** Truthiness of a value that may be `undefined` (`None`). */
  predicate TruthyOpt(v: Option<Json>) {
    v.Some? && Truthy(v.value)
  }

  /** `v?.key`: the property when `v` is an object that has it, `undefined`
      otherwise (also for `undefined` and `null`). */
  function Prop(v: Option<Json>, key: string): (r: Option<Json>)
    ensures r.Some? <==> v.Some? && v.value.JObj? && key in v.value.fields
    ensures r.Some? ==> r.value == v.value.fields[key]
  {
    if v.Some? && v.value.JObj? && key in v.value.fields then Some(v.value.fields[key]) else None
  }

  /** `v?.[0]`: index 0 of the value, that is the first element of an
      array, the property "0" of an object, the first character of a string;
      `undefined` otherwise (empty arrays and strings, objects without "0",
      numbers, booleans, `undefined` and `null`). */
  function First(v: Option<Json>): (r: Option<Json>)
    ensures r.Some? <==> (
      && v.Some?
      && ((v.value.JArr? && |v.value.items| > 0) ||
          (v.value.JObj? && "0" in v.value.fields) ||
          (v.value.JStr? && |v.value.s| > 0)))
    ensures r.Some? && v.value.JArr? ==> r.value == v.value.items[0]
    ensures r.Some? && v.value.JObj? ==> r.value == v.value.fields["0"]
    ensures r.Some? && v.value.JStr? ==> r.value == JStr([v.value.s[0]])
  {
    if v.None? then None
    else match v.value
      case JArr(items) => if |items| > 0 then Some(items[0]) else None
      case JObj(fields) => if "0" in fields then Some(fields["0"]) else None
      case JStr(s) => if |s| > 0 then Some(JStr([s[0]])) else None
      case _ => None
  }

  /** `String(v)`, which a template literal applies to an interpolated value:
      arrays are joined with "," (null elements give ""), objects print as
      "[object Object]". */
  function JsString(v: Json): (r: string)
    ensures v.JStr? ==> r == v.s
    decreases v, 1
  {
    match v
    case JNull => "null"
    case JBool(b) => if b then "true" else "false"
    case JNum(n) => if n < 0 then "-" + Text.NatToString(-n) else Text.NatToString(n)
    case JStr(s) => s
    case JArr(items) => ElementsText(v, 0)
    case JObj(_) => "[object Object]"
  }

  /** `Array.prototype.join(",")` over the elements from index `i` on. */
  function ElementsText(v: Json, i: nat): string
    requires v.JArr? && i <= |v.items|
    decreases v, 0, |v.items| - i
  {
    if i == |v.items| then ""
    else
      (if i > 0 then "," else "")
      + (if v.items[i].JNull? then "" else JsString(v.items[i]))
      + ElementsText(v, i + 1)
  }

  /** `${x || fallback}` for an optional request field. */
  function OrDefault(v: Option<Json>, fallback: string): (r: string)
    ensures !TruthyOpt(v) ==> r == fallback
    ensures v.Some? && v.value.JStr? && v.value.s != [] ==> r == v.value.s
  {
    if TruthyOpt(v) then JsString(v.value) else fallback
  }

  /** Object with a single string property, as `{ error: message }`. */
  function ErrorObject(message: string): (r: Json)
    ensures r.JObj? && r.fields.Keys == {"error"} && r.fields["error"] == JStr(message)
  {
    JObj(map["error" := JStr(message)])
  }
}
