/** Decoded JSON values as the Python code sees them, with the two pieces of
    Python semantics the integration relies on: truthiness (`if token:`) and
    `str()` formatting (`f"Bearer {token}"`). */
module JsonValues {

  /** A decoded JSON value. Floats, arrays and objects are not inspected by the
      modelled code: `JOther` keeps only their `str()` rendering and truthiness. */
  datatype Json =
    | JNull
    | JBool(b: bool)
    | JInt(i: int)
    | JStr(s: string)
    | JOther(text: string, truthy: bool)

  /** A decoded JSON object, as returned by `response.json()`. */
  type Body = map<string, Json>

  /** Python truthiness: `None`, `False`, `0` and `""` are false. */
  predicate Truthy(v: Json) {
    match v
    case JNull => false
    case JBool(b) => b
    case JInt(i) => i != 0
    case JStr(s) => |s| > 0
    case JOther(_, t) => t
  }

  /** `dict.get(key, default)`. */
  function Get(body: Body, key: string, default: Json): (r: Json)
    ensures key in body ==> r == body[key]
    ensures key !in body ==> r == default
  {
    if key in body then body[key] else default
  }

  function DigitChar(d: nat): (c: char)
    requires d < 10
    ensures '0' <= c <= '9' && c as int - '0' as int == d
  {
    "0123456789"[d]
  }

  /** The number a string of decimal digits denotes, most significant first. */
  function DecimalValue(s: string): nat
    requires forall i :: 0 <= i < |s| ==> '0' <= s[i] <= '9'
  {
    if |s| == 0 then 0 else DecimalValue(s[..|s| - 1]) * 10 + (s[|s| - 1] as int - '0' as int)
  }

  /** Decimal digits of a natural number, most significant first, with no
      leading zero: they denote `n`. */
  function NatToDecimal(n: nat): (r: string)
    ensures |r| > 0
    ensures forall i :: 0 <= i < |r| ==> '0' <= r[i] <= '9'
    ensures DecimalValue(r) == n
    ensures |r| > 1 ==> r[0] != '0'
  {
    if n < 10 then [DigitChar(n)] else NatToDecimal(n / 10) + [DigitChar(n % 10)]
  }

  /** Python's `str()` of a decoded JSON value. */
  function PyStr(v: Json): string {
    match v
    case JNull => "None"
    case JBool(b) => if b then "True" else "False"
    case JInt(i) => if i < 0 then "-" + NatToDecimal(-i) else NatToDecimal(i)
    case JStr(s) => s
    case JOther(text, _) => text
  }

}
