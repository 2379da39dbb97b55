/**
 * The JSON values the scripts read from and write to their tracking files,
 * and the few JavaScript operations they apply to them: truthiness,
 * property reads, conversion to a property key and object spread.
 * Numbers are modelled as integers.
 */
module Json {
  import opened Wrappers
  import opened Text

  datatype Json =
    | JNull
    | JBool(b: bool)
    | JNum(n: int)
    | JStr(s: string)
    | JArr(items: seq<Json>)
    | JObj(fields: map<string, Json>)

  /** JavaScript truthiness: `null`, `false`, `0` and `""` are falsy; arrays and objects never are. */
  predicate Truthy(v: Json) {
    match v
    case JNull => false
    case JBool(b) => b
    case JNum(n) => n != 0
    case JStr(s) => s != ""
    case JArr(_) => true
    case JObj(_) => true
  }

  /**
   * `v[key]` read on a value that is not `null`. Only objects carry the
   * properties these scripts ask for; on anything else the read is `undefined`.
   */
  function Property(v: Json, key: string): (r: Option<Json>)
    ensures r.Some? <==> v.JObj? && key in v.fields
    ensures r.Some? ==> r.value == v.fields[key]
  {
    if v.JObj? && key in v.fields then Some(v.fields[key]) else None
  }

  /** `String(v)`: the property key a value becomes when it indexes an object. */
  function KeyOf(v: Json): (key: string)
  {
    match v
    case JNull => "null"
    case JBool(b) => if b then "true" else "false"
    case JNum(n) => IntToString(n)
    case JStr(s) => s
    case JArr(items) => JoinItems(items)
    case JObj(_) => "[object Object]"
  }

  /** `items.join(",")`, where `null` elements render as the empty string. */
  function JoinItems(items: seq<Json>): (text: string)
  {
    if items == [] then ""
    else
      var last := items[|items| - 1];
      var text := if last.JNull? then "" else KeyOf(last);
      if |items| == 1 then text else JoinItems(items[..|items| - 1]) + "," + text
  }

  /** Keys of the fields copied by `{...v}` when `v` is an object, `undefined` or a primitive. */
  function Spread(v: Option<Json>): (fields: map<string, Json>)
    ensures v.Some? && v.value.JObj? ==> fields == v.value.fields
    ensures v.None? ==> fields == map[]
  {
    if v.Some? && v.value.JObj? then v.value.fields else map[]
  }

  /** `tracker[key]`, `undefined` when the key is absent. */
  function Lookup(m: map<string, Json>, key: string): (r: Option<Json>)
    ensures r.Some? <==> key in m
    ensures r.Some? ==> r.value == m[key]
  {
    if key in m then Some(m[key]) else None
  }
}
