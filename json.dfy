/**
 * JSON values as org.json (the Android flavour) hands them to the core.
 * Inbound objects are maps from keys to scalar values; outbound objects keep
 * their members in insertion order, as JSONObject's LinkedHashMap does.
 * Serialising to text and gzip compression are not part of this model.
 */
module Json {
  import opened Wrappers
  import opened JavaString

  /**
   * A value read from an inbound object. `Null` is JSONObject.NULL, a real object
   * whose string form is "null"; `Other` is any value of another kind (a long, a
   * double, a nested array or object), given by its Java string form.
   */
  datatype InValue = Null | Bool(b: bool) | Int(i: Int32) | Str(s: string) | Other(text: string)

  type InObject = map<string, InValue>

  /** String.valueOf of an inbound value, which is what getString and optString return. */
  function ValueString(v: InValue): string {
    match v
    case Null => "null"
    case Bool(b) => BoolToString(b)
    case Int(i) => IntToString(i)
    case Str(s) => s
    case Other(t) => t
  }

  /** JSONObject.optString(name, fallback): any present value, coerced to a string. */
  function OptString(o: InObject, name: string, fallback: Option<string>): (r: Option<string>)
    ensures name !in o ==> r == fallback
    ensures name in o ==> r == Some(ValueString(o[name]))
  {
    if name in o then Some(ValueString(o[name])) else fallback
  }

  datatype JsonValue =
    | JNull
    | JBool(b: bool)
    | JInt(i: int)
    | JStr(s: string)
    | JArr(items: seq<JsonValue>)
    | JObj(members: seq<Member>)

  datatype Member = Member(key: string, value: JsonValue)

  /** JSONObject.opt(key) */
  function Lookup(members: seq<Member>, key: string): (r: Option<JsonValue>)
    ensures r.Some? <==> exists i :: 0 <= i < |members| && members[i].key == key
  {
    if members == [] then None
    else if members[0].key == key then Some(members[0].value)
    else Lookup(members[1..], key)
  }

  /** A key missing from every member is not found. */
  lemma LookupAbsent(members: seq<Member>, key: string)
    requires forall m :: m in members ==> m.key != key
    ensures Lookup(members, key) == None
  {
  }

  /** Looking a key up in two member lists written one after the other. */
  lemma {:induction false} LookupConcat(a: seq<Member>, b: seq<Member>, key: string)
    ensures Lookup(a + b, key) == if Lookup(a, key).Some? then Lookup(a, key) else Lookup(b, key)
  {
    if a == [] {
      assert a + b == b;
    } else {
      assert (a + b)[0] == a[0];
      assert (a + b)[1..] == a[1..] + b;
      LookupConcat(a[1..], b, key);
    }
  }

  /** Members that do not carry the key are passed over by a lookup. */
  lemma LookupPast(a: seq<Member>, b: seq<Member>, key: string)
    requires forall m :: m in a ==> m.key != key
    ensures Lookup(a + b, key) == Lookup(b, key)
  {
    LookupConcat(a, b, key);
    LookupAbsent(a, key);
  }

  /** JSONObject.has(key) */
  predicate Has(members: seq<Member>, key: string) {
    Lookup(members, key).Some?
  }

  /** JSONObject.put(key, v): replaces the value in place when the key exists, else appends. */
  function Put(members: seq<Member>, key: string, v: JsonValue): (r: seq<Member>)
    ensures Lookup(r, key) == Some(v)
    ensures forall k :: k != key ==> Lookup(r, k) == Lookup(members, k)
    ensures forall m :: m in r ==> m in members || m == Member(key, v)
  {
    if members == [] then [Member(key, v)]
    else if members[0].key == key then [Member(key, v)] + members[1..]
    else [members[0]] + Put(members[1..], key, v)
  }

  /** The {"type", "success", "message"} object every *Result response has. */
  function ResultObject(kind: string, success: bool, message: string): JsonValue {
    JObj([Member("type", JStr(kind)), Member("success", JBool(success)), Member("message", JStr(message))])
  }
}
