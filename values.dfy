/** The option values docutils configurations carry, with the Python behaviour the code relies on. */
module Values {
  import opened Texts

  /** An option value: `None`, a boolean, an integer or a string. */
  datatype Value = NoneV | BoolV(b: bool) | IntV(i: int) | StrV(s: string)

  /** A parameter set: option name to value (a Python dict with `str` keys). */
  type Params = map<string, Value>

  /** Python truthiness: `None`, `False`, `0` and `""` are false, everything else true. */
  predicate Truthy(v: Value)
    ensures Truthy(v) <==> v != NoneV && v != BoolV(false) && v != IntV(0) && v != StrV("")
  {
    match v
    case NoneV => false
    case BoolV(b) => b
    case IntV(i) => i != 0
    case StrV(s) => s != ""
  }

  /** Python's `str()` of a value, as `str.format` inserts it. */
  function Str(v: Value): (s: string)
    ensures v.IntV? && v.i >= 0 ==> |s| > 0 && AllDigits(s) && DecimalValue(s) == v.i && (s[0] == '0' ==> v.i == 0 && |s| == 1)
    ensures v.IntV? && v.i < 0 ==>
              |s| > 1 && s[0] == '-' && s[1] != '0' && AllDigits(s[1..]) && DecimalValue(s[1..]) == -v.i
    ensures v.StrV? ==> s == v.s
  {
    match v
    case NoneV => "None"
    case BoolV(b) => if b then "True" else "False"
    case IntV(i) => IntToString(i)
    case StrV(s) => s
  }

  /** Looking a key up with a default, as `dict.get(key, default)` does. */
  function Get(m: map<string, Value>, key: string, default: Value): (v: Value)
    ensures key in m ==> v == m[key]
    ensures key !in m ==> v == default
  {
    if key in m then m[key] else default
  }
}
