/**
 * Decoded JSON values as the Python SDK sees them after `response.json()`:
 * `None`, `bool`, `int`, `float`, `str`, `list` and `dict`, together with the
 * few pieces of Python semantics the SDK applies to them (truthiness,
 * `dict.get` with a default, `str()` of a value).
 */
module JsonValue {

  datatype Json =
    | JNull
    | JBool(b: bool)
    | JInt(i: int)
    | JFloat(f: real)
    | JString(s: string)
    | JArray(items: seq<Json>)
    | JObject(fields: map<string, Json>)

  const EmptyObject: Json := JObject(map[])

  /** Python truthiness: `None`, `False`, `0`, `0.0`, `""`, `[]` and `{}` are false. */
  predicate Truthy(j: Json)
  {
    match j
    case JNull => false
    case JBool(b) => b
    case JInt(i) => i != 0
    case JFloat(f) => f != 0.0
    case JString(s) => s != ""
    case JArray(items) => |items| > 0
    case JObject(fields) => |fields| > 0
  }

  /** `isinstance(j, dict) and key in j` */
  predicate HasKey(j: Json, key: string)
  {
    j.JObject? && key in j.fields
  }

  /** `d.get(key, default)` on a dict. */
  function Get(d: map<string, Json>, key: string, default: Json): Json
  {
    if key in d then d[key] else default
  }

  /** The decimal digit of `n`. */
  function DigitChar(n: nat): (c: char)
    requires n < 10
    ensures '0' <= c <= '9'
  {
    ['0', '1', '2', '3', '4', '5', '6', '7', '8', '9'][n]
  }

  /** Decimal digits of a natural number, most significant first. */
  function NatDigits(n: nat): (s: string)
    ensures |s| >= 1
    ensures forall k :: 0 <= k < |s| ==> '0' <= s[k] <= '9'
    decreases n
  {
    if n < 10 then [DigitChar(n)] else NatDigits(n / 10) + [DigitChar(n % 10)]
  }

  /** Python's `str(i)` for an `int`. */
  function IntToString(i: int): (s: string)
    ensures |s| >= 1
    ensures i < 0 <==> s[0] == '-'
  {
    if i < 0 then "-" + NatDigits(-i) else NatDigits(i)
  }

  /**
   * Python's `str()` of a decoded JSON value, as used by f-strings and by
   * `str(code)`.  Scalars are rendered as Python renders them; a float only
   * when it is integral and below 10^16 in magnitude, and lists and dicts
   * as a fixed placeholder (Python's repr of containers is not modelled).
   */
  function PyStr(j: Json): (s: string)
    ensures Truthy(j) ==> s != ""
    ensures j.JString? ==> s == j.s
  {
    match j
    case JNull => "None"
    case JBool(b) => if b then "True" else "False"
    case JInt(i) => IntToString(i)
    case JFloat(f) =>
      if f.Floor as real == f && -10000000000000000 < f.Floor < 10000000000000000
      then IntToString(f.Floor) + ".0"
      else "<float>"
    case JString(s) => s
    case JArray(_) => "[...]"
    case JObject(_) => "{...}"
  }
}
