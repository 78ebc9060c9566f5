/** The dynamically typed values that flow through the tool: configuration
    entries, parsed JSON and argument-namespace attributes. The operations are
    the Python builtins the source applies to them. */
module Values {
  import opened Text

  datatype Option<+T> = None | Some(value: T)

  /** A Python value as it can come out of `json.load` or a configuration dict. */
  datatype Value =
    | VNull
    | VBool(b: bool)
    | VInt(i: int)
    | VFloat(x: real)
    | VStr(s: string)
    | VList(items: seq<Value>)
    | VObject(fields: map<string, Value>)

  /** How the host renders numbers and containers as text. Python's float repr
      and container repr are not modelled: they are left as parameters. */
  datatype Formats = Formats(float: real -> string, composite: Value -> string)

  /** Python truthiness (`if v:`, `not v`, `v or w`). */
  predicate Truthy(v: Value)
  {
    match v
    case VNull => false
    case VBool(b) => b
    case VInt(i) => i != 0
    case VFloat(x) => x != 0.0
    case VStr(s) => s != ""
    case VList(items) => items != []
    case VObject(fields) => |fields| > 0
  }

  /** `str(v)`, as an f-string placeholder renders it. */
  function Show(v: Value, fmt: Formats): string
  {
    match v
    case VNull => "None"
    case VBool(b) => if b then "True" else "False"
    case VInt(i) => IntText(i)
    case VFloat(x) => fmt.float(x)
    case VStr(s) => s
    case _ => fmt.composite(v)
  }

  /** The numeric value Python arithmetic (`v / 1000`, `d - v`, `max(v, 0.0)`)
      uses; `None` where that arithmetic raises `TypeError`. */
  function AsNumber(v: Value): (r: Option<real>)
    ensures r.Some? <==> v.VBool? || v.VInt? || v.VFloat?
  {
    match v
    case VBool(b) => Some(if b then 1.0 else 0.0)
    case VInt(i) => Some(i as real)
    case VFloat(x) => Some(x)
    case _ => None
  }

  /** What `float(v)` does: a number, a `ValueError`, or a `TypeError`. */
  datatype Conversion = Converted(x: real) | ValueFailure | TypeFailure

  /** `float(v)`; the parsing of numeric text is left to `parseFloat`. */
  function AsFloat(v: Value, parseFloat: string -> Option<real>): (r: Conversion)
    ensures r.TypeFailure? <==> v.VNull? || v.VList? || v.VObject?
    ensures AsNumber(v).Some? ==> r == Converted(AsNumber(v).value)
  {
    match v
    case VStr(s) => if parseFloat(s).Some? then Converted(parseFloat(s).value) else ValueFailure
    case VNull => TypeFailure
    case VList(_) => TypeFailure
    case VObject(_) => TypeFailure
    case _ => Converted(AsNumber(v).value)
  }

  /** `d.get(key, default)` on a dict. */
  function Get(m: map<string, Value>, key: string, default: Value): Value
  {
    if key in m then m[key] else default
  }
}
