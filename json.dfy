/** A parsed JSON document, the value `JSON.parse` hands to the generator. Objects keep
    their keys in the order `for…in` visits them. A number is only ever asked whether it
    is integral (`Number.isInteger`), so numbers carry that tag and no arithmetic. */
module Json {
  import opened Text

  datatype JsonValue =
    | JObject(members: seq<Member>)
    | JArray(items: seq<JsonValue>)
    | JString(text: string)
    | JInt(n: int)   // a number for which Number.isInteger holds
    | JNonInt        // a number with a fractional part
    | JBool(b: bool)
    | JNull

  datatype Member = Member(key: string, value: JsonValue)

  /** `typeof v === 'object' && v !== null`: objects and arrays alike. */
  predicate IsObjectLike(v: JsonValue)
  {
    v.JObject? || v.JArray?
  }

  /** How many keys `for (const key in v)` visits: the members of an object, the
      indices of an array, none for anything else. */
  function EntryCount(v: JsonValue): nat
  {
    match v
    case JObject(ms) => |ms|
    case JArray(items) => |items|
    case _ => 0
  }

  /** The `i`-th key `for…in` yields: an object's own key, or an array index as text. */
  function EntryKey(v: JsonValue, i: nat): string
    requires i < EntryCount(v)
  {
    match v
    case JObject(ms) => ms[i].key
    case JArray(_) => NatToString(i)
  }

  /** `v[key]` for the `i`-th key. */
  function EntryValue(v: JsonValue, i: nat): JsonValue
    requires i < EntryCount(v)
  {
    match v
    case JObject(ms) => ms[i].value
    case JArray(items) => items[i]
  }

  /** Property access `doc.key`: the value of the first member named `key` of an object;
      `None` (JavaScript's undefined) when there is none or `doc` is not an object. */
  function Get(doc: JsonValue, key: string): (r: Option<JsonValue>)
    ensures r.Some? <==> doc.JObject? && exists i :: 0 <= i < |doc.members| && doc.members[i].key == key
    ensures r.Some? ==> exists i :: 0 <= i < |doc.members| && doc.members[i] == Member(key, r.value)
  {
    match doc
    case JObject(ms) => Find(ms, key)
    case _ => None
  }

  function Find(ms: seq<Member>, key: string): (r: Option<JsonValue>)
    ensures r.Some? <==> exists i :: 0 <= i < |ms| && ms[i].key == key
    ensures r.Some? ==> exists i :: 0 <= i < |ms| && ms[i] == Member(key, r.value)
  {
    if ms == [] then None
    else if ms[0].key == key then Some(ms[0].value)
    else
      var r := Find(ms[1..], key);
      assert forall i :: 1 <= i < |ms| ==> ms[i] == ms[1..][i - 1];
      r
  }
}
