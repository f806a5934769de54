/**
 * A response body as the HTTP client hands it over: a parsed JSON value.
 * Only the JavaScript tests the client applies to it are modelled:
 * truthiness, `typeof x === "object"` and the `"key" in x` operator.
 */
module Json {
  import opened Wrappers
  import opened Text

  datatype Json =
    | JNull
    | JBool(b: bool)
    | JNum(n: int)
    | JStr(s: string)
    | JArray(items: seq<Json>)
    | JObject(fields: map<string, Json>)

  /** JavaScript truthiness of a JSON value. */
  predicate Truthy(j: Json) {
    match j
    case JNull => false
    case JBool(b) => b
    case JNum(n) => n != 0
    case JStr(s) => s != ""
    case JArray(_) => true
    case JObject(_) => true
  }

  /** `typeof j === "object"` (null included, as in JavaScript). */
  predicate IsObjectType(j: Json) {
    j.JNull? || j.JArray? || j.JObject?
  }

  /** `key in j` for an object or an array (arrays hold no named keys). */
  predicate HasKey(j: Json, key: string)
    requires IsObjectType(j) && Truthy(j)
  {
    j.JObject? && key in j.fields
  }

  /** `j[key]`, with `None` standing for `undefined`. */
  function Get(j: Json, key: string): (r: Option<Json>)
    ensures r.Some? <==> j.JObject? && key in j.fields
  {
    if j.JObject? && key in j.fields then Some(j.fields[key]) else None
  }

  /**
   * `String(v)`, as a template literal prints a value; `None` is
   * `undefined`. An array reads as the empty text here.
   */
  function JsString(v: Option<Json>): (r: string)
    ensures v.None? ==> r == "undefined"
    ensures v.Some? && v.value.JStr? ==> r == v.value.s
    ensures v.Some? && v.value.JNum? && v.value.n >= 0 ==> r == Decimal(v.value.n)
    ensures v.Some? && v.value.JNum? && v.value.n < 0 ==> r == "-" + Decimal(-v.value.n)
  {
    match v
    case None => "undefined"
    case Some(JNull) => "null"
    case Some(JBool(b)) => if b then "true" else "false"
    case Some(JNum(n)) => if n < 0 then "-" + Decimal(-n) else Decimal(n)
    case Some(JStr(s)) => s
    case Some(JArray(_)) => ""
    case Some(JObject(_)) => "[object Object]"
  }

  /** A non-negative number prints as digits that read back as the number. */
  lemma NumberPrintsBack(n: nat)
    ensures var t := JsString(Some(JNum(n)));
      (forall i :: 0 <= i < |t| ==> '0' <= t[i] <= '9') && DecValue(t) == n
  {
    DecimalValue(n);
  }
}
