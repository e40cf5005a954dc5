/**
 * The Python values that appliance entities carry, and the two conversions
 * the platforms apply to them: truthiness (`bool(v)`) and `str(v)`.
 */
module Values {
  import opened Strings

  /** An entity value: None, a bool, an int or a str. */
  datatype Value = VNone | VBool(b: bool) | VInt(i: int) | VStr(s: string)

  /** `bool(v)` */
  predicate Truthy(v: Value) {
    match v
    case VNone => false
    case VBool(b) => b
    case VInt(i) => i != 0
    case VStr(s) => s != ""
  }

  /** `str(v)` */
  function Str(v: Value): (r: string)
    ensures v.VStr? ==> r == v.s
    ensures v.VInt? ==> r == IntToString(v.i)
  {
    match v
    case VNone => "None"
    case VBool(b) => if b then "True" else "False"
    case VInt(i) => IntToString(i)
    case VStr(s) => s
  }

  /** What an `is_on` property returns: True, False or None (unknown). */
  datatype TriState = On | Off | Unknown
}
