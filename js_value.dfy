/**
 * The slice of JavaScript values that slide records, update patches and
 * manifests are made of, with the truthiness and `||` rules the editor
 * relies on.  A JS object with arbitrary keys is a `Record`: a map from
 * field name to value, so object spread `{...a, ...b}` is map union `a + b`.
 */
module JsValue {

  datatype Option<+T> = None | Some(value: T)

  /** A point `{x, y}` with numeric coordinates. */
  datatype XY = XY(x: real, y: real)

  /** A field value.  `Undefined` also stands for a key that is absent. */
  datatype Value =
    | Undefined
    | Null
    | Bool(b: bool)
    | Num(n: real)
    | NaN
    | Str(s: string)
    | Point(p: XY)

  type Record = map<string, Value>

  /** `r[k]`: a missing key reads as `undefined`. */
  function Get(r: Record, k: string): Value
  {
    if k in r then r[k] else Undefined
  }

  /** JavaScript truthiness. */
  predicate Truthy(v: Value)
  {
    match v
    case Undefined => false
    case Null => false
    case Bool(b) => b
    case Num(n) => n != 0.0
    case NaN => false
    case Str(s) => s != ""
    case Point(_) => true
  }

  /** `a || b`: the left operand when it is truthy, otherwise the right one. */
  function Or(a: Value, b: Value): (r: Value)
    ensures Truthy(a) ==> r == a
    ensures !Truthy(a) ==> r == b
  {
    if Truthy(a) then a else b
  }

  /**
   * The number a value becomes in a relational comparison such as `v <= 100`
   * (`None` is NaN, which makes every comparison false).  Strings are not
   * parsed: they compare as NaN here.
   */
  function LooseNumber(v: Value): Option<real>
  {
    match v
    case Num(n) => Some(n)
    case Bool(b) => Some(if b then 1.0 else 0.0)
    case Null => Some(0.0)
    case _ => None
  }

  /** `v <= bound` under JavaScript's numeric coercion. */
  predicate LooseAtMost(v: Value, bound: real)
  {
    LooseNumber(v).Some? && LooseNumber(v).value <= bound
  }

  /** `Math.round(x)`: the nearest integer, halves rounded up. */
  function Round(x: real): (r: int)
    ensures x - 0.5 < r as real <= x + 0.5
  {
    (x + 0.5).Floor
  }

  lemma RoundOfInteger(k: int)
    ensures Round(k as real) == k
  {
  }

  lemma RoundMonotone(a: real, b: real)
    requires a <= b
    ensures Round(a) <= Round(b)
  {
  }

  function Min(a: real, b: real): real { if a <= b then a else b }

  function Max(a: real, b: real): real { if a >= b then a else b }
}
