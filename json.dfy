/**
 * An abstract view of the ArduinoJson documents the response processors read.
 * A parsed document is the map of its root object; a payload that fails to
 * parse is `None` (see `Processors`). Only the conversions the processors use
 * are modelled: numbers convert to integers by truncation toward zero when
 * they fit the target type and to 0 otherwise. ArduinoJson also converts
 * strings holding a number and booleans; this model does not capture those
 * coercions and fixes every value that is not a number at 0.
 */
module Json {
  import opened Unsigned

  datatype Value =
    | Null
    | Bool(b: bool)
    | Number(x: real)
    | Str(s: string)
    | Array(items: seq<Value>)
    | Object(members: map<string, Value>)

  /** The root object of a successfully parsed payload. */
  type Document = map<string, Value>

  const INT32_MIN: real := -2147483648.0
  const INT32_MAX: real := 2147483647.0
  const UINT32_MAX: real := 4294967295.0

  /** `v.containsKey(key)`: only an object contains keys. */
  predicate ContainsKey(v: Value, key: string) {
    v.Object? && key in v.members
  }

  /** `v[key]`: the member, or null when `v` is no object or lacks the key. */
  function Member(v: Value, key: string): (r: Value)
    ensures ContainsKey(v, key) ==> r == v.members[key]
    ensures !ContainsKey(v, key) ==> r == Null
  {
    if ContainsKey(v, key) then v.members[key] else Null
  }

  /** The C conversion of a real number to an integer: truncation toward zero. */
  function Truncate(x: real): (r: int)
    ensures 0.0 <= x ==> 0 <= r && r as real <= x < r as real + 1.0
    ensures x < 0.0 ==> r <= 0 && r as real - 1.0 < x <= r as real
  {
    if x >= 0.0 then x.Floor else -((-x).Floor)
  }

  /** `v.as<double>()`. */
  function AsDouble(v: Value): real {
    if v.Number? then v.x else 0.0
  }

  /** `v.as<int>()`: a number within the 32-bit signed range, truncated; 0 otherwise. */
  function AsInt(v: Value): (r: int)
    ensures -0x8000_0000 <= r < 0x8000_0000
    ensures v.Number? && 0.0 <= v.x <= INT32_MAX ==> r as real <= v.x < r as real + 1.0
    ensures v.Number? && INT32_MIN <= v.x < 0.0 ==> r as real - 1.0 < v.x <= r as real
    ensures v.Number? && !(INT32_MIN <= v.x <= INT32_MAX) ==> r == 0
    ensures !v.Number? ==> r == 0
  {
    if v.Number? && INT32_MIN <= v.x <= INT32_MAX then Truncate(v.x) else 0
  }

  /** `v.as<unsigned int>()`: a number within 0 .. 2^32 - 1, truncated; 0 otherwise. */
  function AsUInt(v: Value): (r: ULong)
    ensures v.Number? && 0.0 <= v.x <= UINT32_MAX ==> r as real <= v.x < r as real + 1.0
    ensures v.Number? && !(0.0 <= v.x <= UINT32_MAX) ==> r == 0
    ensures !v.Number? ==> r == 0
  {
    if v.Number? && 0.0 <= v.x <= UINT32_MAX then Truncate(v.x) else 0
  }

  /** `v.as<JsonArray>()` iterated: the elements, or none when `v` is no array. */
  function Elements(v: Value): seq<Value> {
    if v.Array? then v.items else []
  }
}
