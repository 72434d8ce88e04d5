/** The values `json.loads` produces, and the Python built-ins the client and
    the analyzer apply to them: truthiness, `dict.get`, `str()` and `int()`. */
module PyJson {

  import opened Wrappers
  import opened Text

  /** A Python float: a finite value (exact), an infinity, or NaN */
  datatype Float = Finite(r: real) | Infinity(negative: bool) | NaN

  /** A value decoded from JSON text; numbers without fraction or exponent
      decode to `int`, the others to `float`. */
  datatype Json =
    | JNull
    | JBool(b: bool)
    | JInt(i: int)
    | JFloat(f: Float)
    | JStr(s: string)
    | JArr(items: seq<Json>)
    | JObj(fields: map<string, Json>)

  /** Library routines the model treats as opaque: `json.loads` (`None`
      where it raises), `str()` of a float, list or dict, and `json.dumps`. */
  datatype JsonLib = JsonLib(
    loads: string -> Option<Json>,
    show: Json -> string,
    dumps: Json -> string)

  /** Python truthiness (`NaN` and the infinities are truthy) */
  predicate Truthy(v: Json) {
    match v
    case JNull => false
    case JBool(b) => b
    case JInt(i) => i != 0
    case JFloat(f) => !(f.Finite? && f.r == 0.0)
    case JStr(s) => s != []
    case JArr(items) => items != []
    case JObj(fields) => fields != map[]
  }

  /** `d.get(key)` */
  function Get(d: map<string, Json>, key: string): Option<Json> {
    if key in d then Some(d[key]) else None
  }

  /** `d.get(key) or default` (a missing key reads as the falsy `None`) */
  function GetOr(d: map<string, Json>, key: string, default: Json): (v: Json)
    ensures Truthy(v) || v == default
    ensures key in d && Truthy(d[key]) ==> v == d[key]
    ensures !(key in d && Truthy(d[key])) ==> v == default
  {
    if key in d && Truthy(d[key]) then d[key] else default
  }

  /** `str(v)` */
  function PyStr(v: Json, lib: JsonLib): string {
    match v
    case JNull => "None"
    case JBool(b) => if b then "True" else "False"
    case JInt(i) => IntToString(i)
    case JStr(s) => s
    case _ => lib.show(v)
  }

  /** What `int(v)` does: a value, `TypeError`/`ValueError` (`Rejected`),
      or `OverflowError` (an infinite float). */
  datatype IntCoercion = Converted(n: int) | Rejected | Overflow

  /** `int(x)` of a finite float: truncation toward zero */
  function Truncate(x: real): (n: int)
    ensures 0.0 <= x ==> 0 <= n && n as real <= x < n as real + 1.0
    ensures x < 0.0 ==> n <= 0 && n as real - 1.0 < x <= n as real
  {
    if 0.0 <= x then x.Floor else -((-x).Floor)
  }

  /** `int(v)` for a decoded JSON value; `bool` is an `int` in Python. */
  function PyInt(v: Json): IntCoercion {
    match v
    case JBool(b) => Converted(if b then 1 else 0)
    case JInt(i) => Converted(i)
    case JFloat(Finite(x)) => Converted(Truncate(x))
    case JFloat(Infinity(_)) => Overflow
    case JFloat(NaN) => Rejected
    case JStr(s) =>
      (match ParseInt(s)
       case Some(n) => Converted(n)
       case None => Rejected)
    case _ => Rejected
  }

  /** `int(str(n)) == n` lifted to JSON strings. */
  lemma PyIntOfRenderedInt(n: int)
    ensures PyInt(JStr(IntToString(n))) == Converted(n)
  {
    ParseIntOfIntToString(n);
  }
}
