/**
 * The JavaScript values the client handles: JSON data as it arrives from the
 * service or from the session file, and `Date` objects, which the client
 * itself creates for the `expires` field. `undefined` is never a value here:
 * a missing key or a missing argument stands for it.
 */
module Values {
  import opened Wrappers
  import Text

  datatype Json =
    | Null
    | Bool(b: bool)
    | Num(n: int)
    | Str(s: string)
    | Arr(items: seq<Json>)
    | Obj(fields: map<string, Json>)

  /** A value held in the session record: plain JSON, or a `Date` with its time value in milliseconds. */
  datatype Value = Plain(json: Json) | Date(ms: int) | InvalidDate

  /** The largest time value a `Date` can hold (ECMA-262, TimeClip). */
  const MaxTime: int := 8_640_000_000_000_000

  /** `new Date(t)` for an integral time value: out of range gives an invalid date. */
  function TimeClip(t: int): (r: Value)
    ensures r.Date? <==> -MaxTime <= t <= MaxTime
    ensures r.Date? ==> r.ms == t
  {
    if -MaxTime <= t <= MaxTime then Date(t) else InvalidDate
  }

  /**
   * ToNumber for JSON data; None stands for NaN. Strings and arrays are
   * taken to convert to NaN.
   */
  function ToNumber(j: Json): Option<int> {
    match j
    case Null => Some(0)
    case Bool(b) => Some(if b then 1 else 0)
    case Num(n) => Some(n)
    case _ => None
  }

  /** The numeric value of a held value in a relational comparison or a subtraction. */
  function TimeValue(v: Value): Option<int> {
    match v
    case Date(ms) => Some(ms)
    case InvalidDate => None
    case Plain(j) => ToNumber(j)
  }

  /** The `typeof` operator: a `Date` is an "object", like null, arrays and plain objects. */
  function TypeOf(v: Value): (r: string)
    ensures r in {"boolean", "number", "string", "object"}
    ensures v.Date? || v.InvalidDate? ==> r == "object"
  {
    match v
    case Plain(Bool(_)) => "boolean"
    case Plain(Num(_)) => "number"
    case Plain(Str(_)) => "string"
    case _ => "object"
  }

  function Digit(d: int): char
    requires 0 <= d < 10
  {
    ('0' as int + d) as char
  }

  function NatDecimal(n: nat): string {
    if n < 10 then [Digit(n)] else NatDecimal(n / 10) + [Digit(n % 10)]
  }

  /** Number::toString for an integer below 10^21 in magnitude. */
  function Decimal(n: int): string {
    if n < 0 then "-" + NatDecimal(-n) else NatDecimal(n)
  }

  /**
   * String(j), the conversion applied when a value is concatenated to a
   * string. In an array, null elements become the empty string.
   */
  function ToText(j: Json): string
    decreases j
  {
    match j
    case Null => "null"
    case Bool(b) => if b then "true" else "false"
    case Num(n) => Decimal(n)
    case Str(s) => s
    case Arr(items) =>
      Text.Join(seq(|items|, i requires 0 <= i < |items| => if items[i] == Null then "" else ToText(items[i])), ',')
    case Obj(_) => "[object Object]"
  }
}
