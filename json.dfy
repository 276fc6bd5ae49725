/**
 * Decoded JSON as Foundation's `JSONSerialization` hands it to the CLI, and the
 * `as?` casts the CLI applies to it. A dictionary is a `map`; key order is not
 * observable through `[String: Any]`.
 */
module Json {
  import opened Wrappers
  import Text

  datatype Json =
    | JNull
    | JBool(b: bool)
    | JNum(n: real)
    | JStr(s: string)
    | JArr(items: seq<Json>)
    | JObj(fields: map<string, Json>)

  type Object = map<string, Json>

  /** `dict[key]`. */
  function Get(o: Object, key: string): (r: Option<Json>)
    ensures r.Some? <==> key in o
    ensures r.Some? ==> r.value == o[key]
  {
    if key in o then Some(o[key]) else None
  }

  /** `dict[key] as? String`. */
  function GetString(o: Object, key: string): (r: Option<string>)
    ensures r.Some? <==> key in o && o[key].JStr?
    ensures r.Some? ==> o[key] == JStr(r.value)
  {
    if key in o && o[key].JStr? then Some(o[key].s) else None
  }

  /** `dict[key] as? Bool`. */
  function GetBool(o: Object, key: string): (r: Option<bool>)
    ensures r.Some? <==> key in o && o[key].JBool?
    ensures r.Some? ==> o[key] == JBool(r.value)
  {
    if key in o && o[key].JBool? then Some(o[key].b) else None
  }

  /** A number `as? Int` succeeds when it is integral and fits a 64-bit `Int`. */
  predicate IsInt(n: real) {
    n.Floor as real == n && Text.IntMin <= n.Floor <= Text.IntMax
  }

  /** `dict[key] as? Int`. */
  function GetInt(o: Object, key: string): (r: Option<int>)
    ensures r.Some? <==> key in o && o[key].JNum? && IsInt(o[key].n)
    ensures r.Some? ==> o[key] == JNum(r.value as real)
    ensures r.Some? ==> Text.IntMin <= r.value <= Text.IntMax
  {
    if key in o && o[key].JNum? && IsInt(o[key].n) then Some(o[key].n.Floor) else None
  }

  /** `dict[key] as? [String: Any]`. */
  function GetObject(o: Object, key: string): (r: Option<Object>)
    ensures r.Some? <==> key in o && o[key].JObj?
    ensures r.Some? ==> o[key] == JObj(r.value)
  {
    if key in o && o[key].JObj? then Some(o[key].fields) else None
  }

  predicate AllObjects(items: seq<Json>) {
    forall i :: 0 <= i < |items| ==> items[i].JObj?
  }

  /** `dict[key] as? [[String: Any]]`: an array every element of which is a
      dictionary; one element of another kind makes the whole cast fail. */
  function GetObjects(o: Object, key: string): (r: Option<seq<Object>>)
    ensures r.Some? <==> key in o && o[key].JArr? && AllObjects(o[key].items)
    ensures r.Some? ==> |r.value| == |o[key].items|
    ensures r.Some? ==> forall i :: 0 <= i < |r.value| ==> o[key].items[i] == JObj(r.value[i])
  {
    if key in o && o[key].JArr? && AllObjects(o[key].items) then
      Some(seq(|o[key].items|, i requires 0 <= i < |o[key].items| => o[key].items[i].fields))
    else None
  }

  /** `JSONSerialization.isValidJSONObject`: only an array or a dictionary
      is accepted at the top level. */
  predicate IsValidTopLevel(v: Json) {
    v.JArr? || v.JObj?
  }
}
