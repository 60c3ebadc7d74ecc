/**
 * Python values as the property pipeline sees them: JSON-shaped records, metadata
 * dicts and filter dicts, together with the few built-ins (`str`, `float`, truthiness,
 * `or`, `dict.get`) whose behaviour the pipeline depends on.
 */
module Values {
  import opened Wrappers

  /** A JSON value. Objects keep their keys in insertion order, as Python dicts do. */
  datatype Value =
    | Null
    | Bool(b: bool)
    | Int(i: int)
    | Float(x: real)
    | Str(s: string)
    | Obj(fields: seq<(string, Value)>)
    | Arr(items: seq<Value>)

  /**
   * The Python built-ins whose exact behaviour lies outside the model: the shortest
   * round-trip rendering of a float, the float grammar accepted by `float(s)` (None
   * where it raises ValueError), `json.dumps` and `str` of a dict or list.
   */
  datatype Builtins = Builtins(
    floatStr: real -> string,
    floatParse: string -> Option<real>,
    jsonDumps: Value -> string,
    containerStr: Value -> string)

  /** Python truthiness. */
  predicate Truthy(v: Value)
  {
    match v
    case Null => false
    case Bool(b) => b
    case Int(i) => i != 0
    case Float(x) => x != 0.0
    case Str(s) => s != ""
    case Obj(fields) => fields != []
    case Arr(items) => items != []
  }

  /** Python's `a or b`. */
  function Or(a: Value, b: Value): (r: Value)
    ensures Truthy(a) ==> r == a
    ensures !Truthy(a) ==> r == b
  {
    if Truthy(a) then a else b
  }

  /** `d.get(k)` on a dict given as its ordered items: the first binding of `k`. */
  function Get(fields: seq<(string, Value)>, k: string): (r: Option<Value>)
    ensures r.None? <==> forall i :: 0 <= i < |fields| ==> fields[i].0 != k
    ensures r.Some? ==> exists i :: 0 <= i < |fields| && fields[i] == (k, r.value)
  {
    if fields == [] then None
    else if fields[0].0 == k then Some(fields[0].1)
    else Get(fields[1..], k)
  }

  /** `d.get(k, default)` on a dict given as its ordered items. */
  function GetOr(fields: seq<(string, Value)>, k: string, default: Value): Value
  {
    Get(fields, k).GetOr(default)
  }

  /** `m.get(k, default)` on a dict whose order does not matter. */
  function MapGetOr(m: map<string, Value>, k: string, default: Value): Value
  {
    if k in m then m[k] else default
  }

  /** The dict built from ordered items, first binding winning (keys of a Python dict are distinct). */
  function ToMap(fields: seq<(string, Value)>): (m: map<string, Value>)
    ensures forall k :: k in m <==> Get(fields, k).Some?
    ensures forall k :: k in m ==> m[k] == Get(fields, k).value
  {
    if fields == [] then map[]
    else ToMap(fields[1..])[fields[0].0 := fields[0].1]
  }

  predicate IsDigit(c: char)
  {
    '0' <= c <= '9'
  }

  predicate AllDigits(s: string)
  {
    forall i :: 0 <= i < |s| ==> IsDigit(s[i])
  }

  function DigitChar(d: nat): (c: char)
    requires d < 10
    ensures IsDigit(c) && c as int - '0' as int == d
  {
    (d + '0' as int) as char
  }

  /** Decimal rendering of a natural number, without leading zeros. */
  function NatToString(n: nat): (s: string)
    ensures |s| >= 1 && AllDigits(s)
    ensures n >= 10 ==> s[0] != '0'
  {
    if n < 10 then [DigitChar(n)] else NatToString(n / 10) + [DigitChar(n % 10)]
  }

  /** `str(i)` for a Python int. */
  function IntToString(i: int): string
  {
    if i < 0 then "-" + NatToString(-i) else NatToString(i)
  }

  /** The number a string of decimal digits denotes (what `int(s)` or `float(s)` gives for it). */
  function DigitsValue(s: string): nat
    requires AllDigits(s)
  {
    if s == [] then 0
    else DigitsValue(s[..|s| - 1]) * 10 + (s[|s| - 1] as int - '0' as int)
  }

  /** Reading back the decimal rendering of `n` gives `n`. */
  lemma {:induction false} DigitsValueOfNatToString(n: nat)
    ensures DigitsValue(NatToString(n)) == n
  {
    if n >= 10 {
      var s := NatToString(n);
      assert s[..|s| - 1] == NatToString(n / 10);
      DigitsValueOfNatToString(n / 10);
    }
  }

  /** `str(v)`, as also used by f-string interpolation. */
  function ToStr(py: Builtins, v: Value): string
  {
    match v
    case Null => "None"
    case Bool(b) => if b then "True" else "False"
    case Int(i) => IntToString(i)
    case Float(x) => py.floatStr(x)
    case Str(s) => s
    case Obj(_) => py.containerStr(v)
    case Arr(_) => py.containerStr(v)
  }

  /** `float(v)`; None where Python raises (TypeError or ValueError). A bool is an int in Python. */
  function PyFloat(py: Builtins, v: Value): Option<real>
  {
    match v
    case Null => None
    case Bool(b) => Some(if b then 1.0 else 0.0)
    case Int(i) => Some(i as real)
    case Float(x) => Some(x)
    case Str(s) => py.floatParse(s)
    case Obj(_) => None
    case Arr(_) => None
  }
}
