/** Values the integration stores, and the pieces of Python's numeric
    behaviour that the decoders rely on. */
module Values {

  datatype Option<+T> = None | Some(value: T)

  /** A value held in one of the integration's dictionaries or lists: a
      Python int, a Python float (modelled as a real) or a str. */
  datatype Value = Int(i: int) | Float(x: real) | Str(s: string)

  /** Python's `int(s)` and `float(s)` applied to a str. Their grammar is not
      modelled: they are parameters of every operation that parses, and None
      stands for the ValueError they raise. */
  datatype Conversions = Conversions(parseInt: string -> Option<int>, parseFloat: string -> Option<real>)

  /** Python's `float(v)` for a stored value: ints and floats convert, a str is parsed. */
  function AsFloat(v: Value, c: Conversions): (r: Option<real>)
    ensures v.Int? ==> r == Some(v.i as real)
    ensures v.Float? ==> r == Some(v.x)
  {
    match v
    case Int(i) => Some(i as real)
    case Float(x) => Some(x)
    case Str(s) => c.parseFloat(s)
  }

  /** The number a value stands for in Python arithmetic (`0 + v`); a str
      there raises TypeError, which is None here. */
  function Numeric(v: Value): (r: Option<real>)
    ensures r.None? <==> v.Str?
  {
    match v
    case Int(i) => Some(i as real)
    case Float(x) => Some(x)
    case Str(_) => None
  }

  /** Python's `int(x)` for a float: truncation toward zero. */
  function Trunc(x: real): (n: int)
    ensures 0.0 <= x ==> n as real <= x < n as real + 1.0
    ensures x < 0.0 ==> n as real - 1.0 < x <= n as real
  {
    if x >= 0.0 then x.Floor else -((-x).Floor)
  }

  /** Python's `round(x)` with no digits: the nearest integer, ties to the even one. */
  function Round(x: real): (n: int)
    ensures -0.5 <= x - n as real <= 0.5
    ensures (x - n as real == 0.5 || n as real - x == 0.5) ==> n % 2 == 0
  {
    var f := x.Floor;
    var d := x - f as real;
    if d < 0.5 then f
    else if d > 0.5 then f + 1
    else if f % 2 == 0 then f
    else f + 1
  }

  function Pow2(k: nat): (p: nat)
    ensures p >= 1
  {
    if k == 0 then 1 else 2 * Pow2(k - 1)
  }

  /** Python's `bool(n & (1 << k))`. Dafny's `/` by a positive divisor rounds
      down, as Python's `>>` does, so negative `n` is covered too. */
  predicate Bit(n: int, k: nat) {
    (n / Pow2(k)) % 2 == 1
  }
}
