/** The `Vector3d` value type of the engine and its operator impls, with f64 read as `real`. */
module Vectors {

  datatype Vector3d = Vector3d(x: real, y: real, z: real)

  const Zero := Vector3d(0.0, 0.0, 0.0)

  /** The two floating-point routines the renderer calls but that this model leaves
      uninterpreted: `f64::sqrt` and `f64::powf`. */
  datatype Maths = Maths(sqrt: real -> real, powf: (real, real) -> real)

  /** Division of two f64 values. Over the reals it is exact whenever the divisor is
      nonzero; the IEEE infinities and NaN of a zero divisor are not modelled and read as 0.0. */
  function Quotient(a: real, b: real): real {
    a * Reciprocal(b)
  }

  /** `1.0 / b`, read as 0.0 for a zero divisor. */
  function Reciprocal(b: real): real {
    if b == 0.0 then 0.0 else 1.0 / b
  }

  /** Over the reals the division is exact: the quotient times a nonzero divisor is the
      dividend. */
  lemma QuotientTimesDivisor(a: real, b: real)
    ensures b != 0.0 ==> Quotient(a, b) * b == a
    ensures b == 0.0 ==> Quotient(a, b) == 0.0
  {
  }

  function Add(a: Vector3d, b: Vector3d): Vector3d {
    Vector3d(a.x + b.x, a.y + b.y, a.z + b.z)
  }

  function Sub(a: Vector3d, b: Vector3d): Vector3d {
    Vector3d(a.x - b.x, a.y - b.y, a.z - b.z)
  }

  /** `impl Mul<f64> for Vector3d` */
  function Scale(a: Vector3d, k: real): Vector3d {
    Vector3d(a.x * k, a.y * k, a.z * k)
  }

  function Neg(a: Vector3d): Vector3d {
    Vector3d(-a.x, -a.y, -a.z)
  }

  /** `impl Div<f64> for Vector3d` */
  function Div(a: Vector3d, k: real): Vector3d {
    Vector3d(Quotient(a.x, k), Quotient(a.y, k), Quotient(a.z, k))
  }

  function Dot(a: Vector3d, b: Vector3d): real {
    a.x * b.x + a.y * b.y + a.z * b.z
  }

  function Cross(a: Vector3d, b: Vector3d): Vector3d {
    Vector3d(a.y * b.z - a.z * b.y, -(a.x * b.z - a.z * b.x), a.x * b.y - a.y * b.x)
  }

  /** `Vector3d::length`: the square root of the sum of the squared components. */
  function Length(v: Vector3d, m: Maths): real {
    m.sqrt(v.x * v.x + v.y * v.y + v.z * v.z)
  }

  lemma AddSubCancel(a: Vector3d, b: Vector3d)
    ensures Sub(Add(a, b), b) == a
  {
  }

  lemma NegIsScaleByMinusOne(a: Vector3d)
    ensures Neg(a) == Scale(a, -1.0)
  {
  }

  /** Dividing by a nonzero factor is scaling by its inverse. */
  lemma DivIsScaleByInverse(a: Vector3d, k: real)
    requires k != 0.0
    ensures Div(a, k) == Scale(a, 1.0 / k)
  {
  }

  lemma DotSymmetric(a: Vector3d, b: Vector3d)
    ensures Dot(a, b) == Dot(b, a)
  {
  }

  lemma CrossAntiCommutative(a: Vector3d, b: Vector3d)
    ensures Cross(a, b) == Neg(Cross(b, a))
  {
  }

  /** The cross product is orthogonal to both of its operands. */
  lemma CrossOrthogonal(a: Vector3d, b: Vector3d)
    ensures Dot(a, Cross(a, b)) == 0.0
    ensures Dot(b, Cross(a, b)) == 0.0
  {
  }

  /** `Dot` is linear in its second argument. */
  lemma DotLinear(a: Vector3d, b: Vector3d, c: Vector3d, k: real)
    ensures Dot(a, Add(b, c)) == Dot(a, b) + Dot(a, c)
    ensures Dot(a, Scale(b, k)) == k * Dot(a, b)
  {
  }
}
