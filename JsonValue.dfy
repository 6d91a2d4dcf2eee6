/**
 * JSON values as the Android `org.json` classes hold them, and the few
 * accessors of `JSONObject` that the tool-calling pipeline uses.
 *
 * An object is the ordered sequence of its members (a `JSONObject` keeps
 * insertion order). Numbers are kept as their literal text.
 */
module JsonValue {
  import opened Common

  datatype Json =
    | JNull
    | JBool(b: bool)
    | JNum(literal: string)
    | JStr(s: string)
    | JArr(items: seq<Json>)
    | JObj(members: seq<Member>)

  /** One `"key": value` member of an object. */
  datatype Member = Member(key: string, value: Json)

  /** Size measures, used to prove that the schema translator terminates. */
  function Size(j: Json): (n: nat)
    ensures n >= 1
    decreases j
  {
    match j
    case JArr(items) => 1 + ItemsSize(items)
    case JObj(members) => 1 + MembersSize(members)
    case _ => 1
  }

  function ItemsSize(items: seq<Json>): nat
    decreases items
  {
    if |items| == 0 then 0
    else ItemsSize(items[..|items| - 1]) + Size(items[|items| - 1])
  }

  function MembersSize(ms: seq<Member>): nat
    decreases ms
  {
    if |ms| == 0 then 0
    else MembersSize(ms[..|ms| - 1]) + Size(ms[|ms| - 1].value)
  }

  /** The keys of an object, in member order. */
  function Keys(ms: seq<Member>): (ks: seq<string>)
    ensures |ks| == |ms|
    ensures forall i :: 0 <= i < |ms| ==> ks[i] == ms[i].key
  {
    seq(|ms|, i requires 0 <= i < |ms| => ms[i].key)
  }

  /**
   * `JSONObject.keys()` of an object parsed from text: each key once, at the
   * place of its first member. Parsing `put`s every member into a
   * `LinkedHashMap`, and a later `put` of the same key replaces the value
   * but keeps the key's first place.
   */
  function KeyOrder(ms: seq<Member>): (ks: seq<string>)
    ensures forall k :: k in ks <==> k in Keys(ms)
    ensures forall i, j :: 0 <= i < j < |ks| ==> ks[i] != ks[j]
  {
    if |ms| == 0 then []
    else
      var init := KeyOrder(ms[..|ms| - 1]);
      assert Keys(ms) == Keys(ms[..|ms| - 1]) + [ms[|ms| - 1].key];
      if ms[|ms| - 1].key in init then init else init + [ms[|ms| - 1].key]
  }

  /**
   * `JSONObject.opt(key)`: the value bound to `key`. Parsing text into a
   * `JSONObject` overwrites earlier bindings, so the last binding wins.
   */
  function Get(ms: seq<Member>, key: string): (r: Option<Json>)
    ensures r.Some? <==> key in Keys(ms)
    ensures r.Some? ==> exists i :: 0 <= i < |ms| && ms[i] == Member(key, r.value)
    ensures r.Some? ==> Size(r.value) <= MembersSize(ms)
    decreases |ms|
  {
    if |ms| == 0 then None
    else if ms[|ms| - 1].key == key then Some(ms[|ms| - 1].value)
    else
      var r := Get(ms[..|ms| - 1], key);
      assert Keys(ms) == Keys(ms[..|ms| - 1]) + [ms[|ms| - 1].key];
      r
  }

  /** `JSONObject.has(key)`: true even when the value is JSON null. */
  predicate Has(ms: seq<Member>, key: string) {
    Get(ms, key).Some?
  }

  /** Android's coercion of a stored value to a string (`JSON.toString`). */
  function Text(j: Json): string {
    match j
    case JStr(s) => s
    case _ => Serialize(j)
  }

  /** `JSONObject.getString(key)` on a key that is present: never fails. */
  function GetString(ms: seq<Member>, key: string): string
    requires Has(ms, key)
  {
    Text(Get(ms, key).value)
  }

  /** `JSONObject.optString(key, fallback)`: the fallback only when the key is absent. */
  function OptString(ms: seq<Member>, key: string, fallback: string): string {
    match Get(ms, key)
    case Some(v) => Text(v)
    case None => fallback
  }

  /** `JSONObject.optJSONObject(key)`: the nested object, or null for any other value. */
  function OptObject(ms: seq<Member>, key: string): (r: Option<seq<Member>>)
    ensures r.Some? ==> MembersSize(r.value) < MembersSize(ms)
  {
    match Get(ms, key)
    case Some(JObj(inner)) => Some(inner)
    case _ => None
  }

  /** `JSONObject.getJSONArray(key)`: the array, or None where org.json throws. */
  function OptArray(ms: seq<Member>, key: string): Option<seq<Json>> {
    match Get(ms, key)
    case Some(JArr(items)) => Some(items)
    case _ => None
  }

  /** `List(array.length()) { array.getString(it) }`: every element coerced to text. */
  function Texts(items: seq<Json>): (r: seq<string>)
    ensures |r| == |items|
    ensures forall i :: 0 <= i < |items| ==> r[i] == Text(items[i])
  {
    seq(|items|, i requires 0 <= i < |items| => Text(items[i]))
  }

  /** `toString()` of a JSON value (without string escaping). */
  function Serialize(j: Json): string
    decreases j
  {
    match j
    case JNull => "null"
    case JBool(b) => if b then "true" else "false"
    case JNum(literal) => literal
    case JStr(s) => Quote(s)
    case JArr(items) => "[" + SerializeItems(items) + "]"
    case JObj(ms) => "{" + SerializeMembers(ms) + "}"
  }

  function SerializeItems(items: seq<Json>): string
    decreases items
  {
    if |items| == 0 then ""
    else if |items| == 1 then Serialize(items[0])
    else SerializeItems(items[..|items| - 1]) + "," + Serialize(items[|items| - 1])
  }

  function SerializeMembers(ms: seq<Member>): string
    decreases ms
  {
    if |ms| == 0 then ""
    else
      var last := Quote(ms[|ms| - 1].key) + ":" + Serialize(ms[|ms| - 1].value);
      if |ms| == 1 then last else SerializeMembers(ms[..|ms| - 1]) + "," + last
  }

  function Quote(s: string): string {
    "\"" + s + "\""
  }
}
