/** JSON values as `JSON.parse` hands them to the modelled code, and the
    JavaScript rules that code applies to them: truthiness, reading a named
    property, reading element `[0]`, and conversion to a string (`String(v)`,
    or `${v}` in a template literal). */
module JsonValues {
  import opened Results
  import opened Text

  /** A parsed JSON value. Numbers are split into integers and the other
      finite numbers; `JFrac` carries the text JavaScript prints for it.
      An object is a map from its keys to their values (for a repeated key
      `JSON.parse` keeps the last one). */
  datatype Json =
    | JNull
    | JBool(b: bool)
    | JInt(i: int)
    | JFrac(shown: string)
    | JString(s: string)
    | JArray(items: seq<Json>)
    | JObject(fields: map<string, Json>)

  /** `v.key` (and `v?.key`) on a value that is not null: the value stored
      under `key` when `v` is an object that has that key, and `undefined`
      (`None`) otherwise. None of the keys the modelled code reads is a
      property that arrays, strings, numbers or booleans inherit. */
  function Field(v: Json, key: string): Option<Json> {
    if v.JObject? && key in v.fields then Some(v.fields[key]) else None
  }

  /** `v[0]` (and `v?.[0]`) on a value that is not null: the first element of
      a non-empty array, the first character of a non-empty string, the
      value of an object's key "0", and `undefined` otherwise. */
  function Element0(v: Json): Option<Json> {
    match v
    case JArray(items) => if items != [] then Some(items[0]) else None
    case JString(s) => if s != "" then Some(JString([s[0]])) else None
    case JObject(fields) => if "0" in fields then Some(fields["0"]) else None
    case _ => None
  }

  /** JavaScript truthiness of a JSON value: `null`, `false`, `0` and `""`
      are falsy; every other value, including `[]` and `{}`, is truthy. */
  predicate Truthy(v: Json) {
    match v
    case JNull => false
    case JBool(b) => b
    case JInt(i) => i != 0
    case JFrac(_) => true
    case JString(s) => s != ""
    case JArray(_) => true
    case JObject(_) => true
  }

  /** Truthiness of a value that may be `undefined`. */
  predicate Present(v: Option<Json>) {
    v.Some? && Truthy(v.value)
  }

  /** `v ?? fallback` for a value that may be `undefined`. */
  function OrElse(v: Option<Json>, fallback: Json): Json {
    if v.None? || v.value == JNull then fallback else v.value
  }

  /** `v || fallback` for a value that may be `undefined`. */
  function OrIfFalsy(v: Option<Json>, fallback: Json): (r: Json)
    ensures Truthy(r) ==> r == fallback || Present(v)
    ensures Present(v) ==> r == v.value
    ensures !Present(v) ==> r == fallback
  {
    if Present(v) then v.value else fallback
  }

  /** `String(v)`: strings stay as they are, numbers and booleans print as
      JavaScript prints them, an array joins its elements' strings with ","
      (a `null` element giving ""), and an object gives "[object Object]". */
  function Show(v: Json): string
    decreases v, if v.JArray? then |v.items| + 1 else 0
  {
    match v
    case JNull => "null"
    case JBool(b) => if b then "true" else "false"
    case JInt(i) => Decimal(i)
    case JFrac(shown) => shown
    case JString(s) => s
    case JArray(items) => ShowItems(v, 0)
    case JObject(_) => "[object Object]"
  }

  /** The elements of array `v` from index `k` on, as `Array.prototype.join` writes them. */
  function ShowItems(v: Json, k: nat): string
    requires v.JArray? && k <= |v.items|
    decreases v, |v.items| - k
  {
    if k == |v.items| then ""
    else
      var item := if v.items[k] == JNull then "" else Show(v.items[k]);
      if k + 1 == |v.items| then item else item + "," + ShowItems(v, k + 1)
  }

  /** `String(v)` on each kind of value, spelled out for the reader: a
      string is itself, an integer its decimal digits, `null`, booleans and
      objects their fixed texts. Only the array cases are derived rather
      than read off `Show`: an array gives the comma-joined strings of its
      elements, with `null` elements empty, so an id that is a number or a
      one-element array shows as the number. */
  lemma ShowRules(s: string, n: int, b: bool, fields: map<string, Json>, x: Json, y: Json)
    ensures Show(JString(s)) == s
    ensures Show(JInt(n)) == Decimal(n)
    ensures Show(JNull) == "null" && Show(JBool(b)) == (if b then "true" else "false")
    ensures Show(JObject(fields)) == "[object Object]"
    ensures Show(JArray([])) == ""
    ensures Show(JArray([JInt(n)])) == Decimal(n)
    ensures Show(JArray([x, y])) == (if x == JNull then "" else Show(x)) + "," + (if y == JNull then "" else Show(y))
  {
    var two := JArray([x, y]);
    assert ShowItems(two, 1) == (if y == JNull then "" else Show(y));
  }
}
