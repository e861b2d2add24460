/**
 * The dynamic values that flow through the modelled Python code: keyword
 * arguments of model instances, constraint values, database row cells.
 * `bool` is a subclass of `int` in Python, so `isinstance(True, int)` holds.
 */
module Values {

  /**
   * VObject stands for a Python object the model does not look inside (a
   * bound method, a class's `_meta` dict), named after the attribute it was
   * read from.
   */
  datatype Value = VInt(i: int) | VBool(b: bool) | VFloat(x: real) | VStr(s: string) | VNone | VObject(name: string)

  /** isinstance(v, int) */
  predicate IsInt(v: Value) {
    v.VInt? || v.VBool?
  }

  /** isinstance(v, str) */
  predicate IsStr(v: Value) {
    v.VStr?
  }

  predicate IsNumber(v: Value) {
    IsInt(v) || v.VFloat?
  }

  /** The numeric value of an int, bool or float (True is 1, False is 0). */
  function AsReal(v: Value): real
    requires IsNumber(v)
  {
    match v
    case VInt(i) => i as real
    case VBool(b) => if b then 1.0 else 0.0
    case VFloat(x) => x
  }

  /** The integer value of an int or bool. */
  function AsInt(v: Value): int
    requires IsInt(v)
  {
    match v
    case VInt(i) => i
    case VBool(b) => if b then 1 else 0
  }

  /** Python's `n == v` for an int n: numbers compare by value, everything else is unequal. */
  predicate EqualsInt(v: Value, n: int) {
    IsNumber(v) && AsReal(v) == n as real
  }
}
