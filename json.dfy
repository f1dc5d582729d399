/** The decoded JSON tree that the codec works on: what Jackson's ObjectMapper
    hands over after parsing the text, as a value. */
module Json {
  import opened Wrappers

  /** A JSON value. Numbers are integers; fractional numbers are not modelled. */
  datatype Value =
    | JNull
    | JBool(b: bool)
    | JNumber(n: int)
    | JString(s: string)
    | JArray(items: seq<Value>)
    | JObject(fields: Object)

  /** A JSON object, or a Java Map<String, Object>: its properties by name. */
  type Object = map<string, Value>

  /** Java's boxed Integer, a signed 32-bit value. */
  newtype Int32 = x: int | -0x8000_0000 <= x < 0x8000_0000

  /** Map.get: an absent key reads as null, exactly like a key bound to null. */
  function Get(obj: Object, key: string): (v: Value)
    ensures key !in obj ==> v == JNull
    ensures key in obj ==> v == obj[key]
  {
    if key in obj then obj[key] else JNull
  }

  /** Jackson's NON_ABSENT / NON_NULL inclusion: null-valued properties are not written. */
  function WithoutNulls(obj: Object): (r: Object)
    ensures forall k :: k in r <==> k in obj && obj[k] != JNull
    ensures forall k :: k in r ==> r[k] == obj[k]
  {
    map k | k in obj && obj[k] != JNull :: obj[k]
  }

  /** Reading a property back after null-valued properties were dropped gives
      what was there before: a dropped null reads as null again. */
  lemma GetWithoutNulls(obj: Object, key: string)
    ensures Get(WithoutNulls(obj), key) == Get(obj, key)
    ensures key in WithoutNulls(obj) <==> Get(obj, key) != JNull
  {
  }

  /** What binds to a Java String property: null (or absent) or a string. */
  predicate StringOrNull(v: Value) {
    v.JNull? || v.JString?
  }

  /** A nullable Java String as a JSON value. */
  function OptString(s: Option<string>): (v: Value)
    ensures v == JNull <==> s.None?
  {
    match s
    case None => JNull
    case Some(t) => JString(t)
  }

  /** A nullable Java Map<String, Object> as a JSON value. */
  function OptObject(m: Option<Object>): (v: Value)
    ensures v == JNull <==> m.None?
  {
    match m
    case None => JNull
    case Some(o) => JObject(o)
  }

  /** A nullable Java Integer as a JSON value. */
  function OptInt32(i: Option<Int32>): (v: Value)
    ensures v == JNull <==> i.None?
  {
    match i
    case None => JNull
    case Some(n) => JNumber(n as int)
  }
}
