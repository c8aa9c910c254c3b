/** JavaScript values as the request handlers see them: parsed JSON bodies,
    error objects and query rows. Only the parts of the language the handlers
    rely on are modelled: truthiness, `||`, `===` on primitives, property
    reads and the results of numeric coercion. */
module JsValues {

  /** A JavaScript value. Numbers are finite reals or NaN; infinities and
      negative zero are not modelled. Objects and arrays are plain values here:
      the handlers never compare them by reference. */
  datatype Value =
    | Undefined
    | Null
    | Bool(b: bool)
    | Num(r: real)
    | NaN
    | Str(s: string)
    | Arr(items: seq<Value>)
    | Obj(fields: map<string, Value>)

  /** What `Number(x)` can produce: a number, possibly NaN. */
  type NumberValue = v: Value | v.Num? || v.NaN? witness NaN

  /** An integer literal such as the status codes the handlers send. */
  function Int(n: int): Value {
    Num(n as real)
  }

  /** JavaScript truthiness (the ToBoolean conversion used by `if`, `!` and `||`). */
  predicate Truthy(v: Value) {
    match v
    case Undefined => false
    case Null => false
    case Bool(b) => b
    case Num(r) => r != 0.0
    case NaN => false
    case Str(s) => s != ""
    case Arr(_) => true
    case Obj(_) => true
  }

  /** `a || b`: evaluates to `a` when `a` is truthy and to `b` otherwise. */
  function Or(a: Value, b: Value): (r: Value)
    ensures Truthy(r) <==> Truthy(a) || Truthy(b)
    ensures r == a || r == b
    ensures Truthy(a) ==> r == a
    ensures !Truthy(a) ==> r == b
  {
    if Truthy(a) then a else b
  }

  /** `a === b` on primitives. NaN equals nothing, not even itself; values of
      different types are never equal. */
  predicate StrictEquals(a: Value, b: Value)
    ensures StrictEquals(a, b) ==> a == b && !a.NaN? && !a.Arr? && !a.Obj?
    ensures a == b && !a.NaN? && !a.Arr? && !a.Obj? ==> StrictEquals(a, b)
  {
    match (a, b)
    case (Undefined, Undefined) => true
    case (Null, Null) => true
    case (Bool(x), Bool(y)) => x == y
    case (Num(x), Num(y)) => x == y
    case (Str(x), Str(y)) => x == y
    case _ => false
  }

  /** Property read `v.key`. Reading a property of `undefined` or `null`
      throws, so callers must have ruled those out; on any other value a
      missing property reads as `undefined`. */
  function Get(v: Value, key: string): (r: Value)
    requires v != Undefined && v != Null
  {
    if v.Obj? && key in v.fields then v.fields[key] else Undefined
  }

  /** `Math.floor(n)`: the greatest integer not above `n`; NaN stays NaN. */
  function Floor(n: NumberValue): (r: NumberValue)
    ensures r.NaN? <==> n.NaN?
    ensures n.Num? ==> r.r <= n.r < r.r + 1.0
    ensures n.Num? ==> r.r == r.r.Floor as real
  {
    if n.NaN? then NaN else Num(n.r.Floor as real)
  }

  /** `isNaN` applied to a value already coerced to a number. */
  predicate IsNaN(n: NumberValue) {
    n.NaN?
  }

  /** A number with no fractional part. */
  predicate IsInteger(n: NumberValue) {
    n.Num? && n.r.Floor as real == n.r
  }
}
