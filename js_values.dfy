/** The few JavaScript value semantics the layer relies on: truthiness,
    `typeof`, and loose equality between a boolean and a string. */
module JsValues {
  import opened Outcomes

  /** A JavaScript value as far as the layer inspects it. Numbers are
      integers here; objects and functions are known only by identity. */
  datatype JsValue =
    | Undefined
    | Null
    | Bool(b: bool)
    | Number(n: int)
    | Str(s: string)
    | Object(id: nat)
    | Function(id: nat)

  /** `if (v)`: false for undefined, null, false, 0 and the empty string. */
  predicate Truthy(v: JsValue)
  {
    match v
    case Undefined => false
    case Null => false
    case Bool(b) => b
    case Number(n) => n != 0
    case Str(s) => s != ""
    case Object(_) => true
    case Function(_) => true
  }

  /** The tag `typeof v` yields; `typeof null` is "object". */
  function TypeOf(v: JsValue): string
  {
    match v
    case Undefined => "undefined"
    case Null => "object"
    case Bool(_) => "boolean"
    case Number(_) => "number"
    case Str(_) => "string"
    case Object(_) => "object"
    case Function(_) => "function"
  }

  predicate IsDigit(c: char)
  {
    '0' <= c <= '9'
  }

  predicate AllDigits(s: string)
  {
    forall i :: 0 <= i < |s| ==> IsDigit(s[i])
  }

  function DigitsValue(s: string): nat
    requires AllDigits(s)
  {
    if s == [] then 0
    else DigitsValue(s[..|s| - 1]) * 10 + (s[|s| - 1] as int - '0' as int)
  }

  /** `Number(s)` for the empty string and plain decimal digit strings;
      every other string converts to NaN, written `None`. */
  function ToNumber(s: string): Option<int>
  {
    if AllDigits(s) then Some(DigitsValue(s)) else None
  }

  /** `b == s` with JavaScript's loose equality: both sides are converted to
      numbers, and NaN equals nothing. */
  predicate LooseEqualsBoolString(b: bool, s: string)
  {
    ToNumber(s) == Some(if b then 1 else 0)
  }
}
