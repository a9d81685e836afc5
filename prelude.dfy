/**
 * Stand-ins for what the grass scenes take from JavaScript and three.js:
 * the ranges of Math.random and Math.sin, the library functions the height
 * code calls (as uninterpreted functions), Math.ceil, and one entry of a
 * geometry's position attribute.
 */
module Prelude {

  /** A value Math.random can return: a number in [0, 1). */
  type Unit = r: real | 0.0 <= r < 1.0

  /** A value Math.sin can return. */
  type Sine = r: real | -1.0 <= r <= 1.0

  /** A value Math.sqrt can return for a non-negative argument. */
  type NonNeg = r: real | 0.0 <= r

  /** A value Math.atan2 can return: an angle in [-PI, PI]. */
  type Angle = r: real | -PI <= r <= PI

  /** Math.PI, to the digits JavaScript prints. */
  const PI: real := 3.141592653589793

  datatype Option<+T> = None | Some(value: T)

  /**
   * The Math functions whose values the model does not compute: each is an
   * arbitrary function with the range the library guarantees: Math.exp is
   * never negative (it underflows to 0 rather than below), Math.atan2 is an
   * angle in [-PI, PI]. `pow15` is Math.pow(_, 1.5) on a non-negative base.
   */
  datatype Maths = Maths(
    sqrt: real -> NonNeg,
    sin: real -> Sine,
    exp: real -> NonNeg,
    atan2: (real, real) -> Angle,
    pow15: NonNeg -> NonNeg)

  /** One entry of a three.js position attribute, as getX/getY/getZ read it. */
  datatype Vertex = Vertex(x: real, y: real, z: real)

  function Abs(r: real): real {
    if r < 0.0 then -r else r
  }

  function Max(a: real, b: real): real {
    if a < b then b else a
  }

  function Min(a: real, b: real): real {
    if a < b then a else b
  }

  /** Multiplying by a non-negative factor keeps an order. */
  lemma MulMonotone(a: real, b: real, c: real)
    requires a <= b && c >= 0.0
    ensures a * c <= b * c
  {
    assert b * c - a * c == (b - a) * c;
  }

  /** Math.ceil: the least integer not below r. */
  function Ceil(r: real): (c: int)
    ensures r <= c as real < r + 1.0
    ensures c == r.Floor || c == r.Floor + 1
  {
    if r.Floor as real == r then r.Floor else r.Floor + 1
  }
}
