/**
 * Two- and three-dimensional vector algebra over exact reals: the arithmetic
 * the engine writes with single-precision floats (XNA's Vector2, FarseerPhysics'
 * Vector3 and Mat33, CommonMath's Cross, Clamp, Abs, Max and Min).
 */
module Math2D {

  datatype Vec2 = Vec2(x: real, y: real)
  datatype Vec3 = Vec3(x: real, y: real, z: real)

  /** A 3x3 matrix stored by columns, as Mat33 stores Col1, Col2 and Col3. */
  datatype Mat33 = Mat33(col1: Vec3, col2: Vec3, col3: Vec3)

  const Zero2: Vec2 := Vec2(0.0, 0.0)
  const Zero3: Vec3 := Vec3(0.0, 0.0, 0.0)

  function Add(a: Vec2, b: Vec2): Vec2 { Vec2(a.x + b.x, a.y + b.y) }
  function Sub(a: Vec2, b: Vec2): Vec2 { Vec2(a.x - b.x, a.y - b.y) }
  function Neg(a: Vec2): Vec2 { Vec2(-a.x, -a.y) }
  function Scale(s: real, a: Vec2): Vec2 { Vec2(s * a.x, s * a.y) }
  function Dot(a: Vec2, b: Vec2): real { a.x * b.x + a.y * b.y }

  /** The scalar 2D cross product a.x*b.y - a.y*b.x. */
  function Cross(a: Vec2, b: Vec2): real { a.x * b.y - a.y * b.x }

  /** Cross(s, a): the vector a turned a quarter turn counter-clockwise and scaled by s. */
  function CrossSV(s: real, a: Vec2): Vec2 { Vec2(-s * a.y, s * a.x) }

  /** Cross(a, s): the vector a turned a quarter turn clockwise and scaled by s. */
  function CrossVS(a: Vec2, s: real): Vec2 { Vec2(s * a.y, -s * a.x) }

  function Add3(a: Vec3, b: Vec3): Vec3 { Vec3(a.x + b.x, a.y + b.y, a.z + b.z) }
  function Sub3(a: Vec3, b: Vec3): Vec3 { Vec3(a.x - b.x, a.y - b.y, a.z - b.z) }
  function Neg3(a: Vec3): Vec3 { Vec3(-a.x, -a.y, -a.z) }
  function Scale3(s: real, a: Vec3): Vec3 { Vec3(s * a.x, s * a.y, s * a.z) }
  function Dot3(a: Vec3, b: Vec3): real { a.x * b.x + a.y * b.y + a.z * b.z }
  function Cross3(a: Vec3, b: Vec3): Vec3 {
    Vec3(a.y * b.z - a.z * b.y, a.z * b.x - a.x * b.z, a.x * b.y - a.y * b.x)
  }

  function Abs(x: real): real { if x < 0.0 then -x else x }
  function Max(a: real, b: real): real { if a > b then a else b }
  function Min(a: real, b: real): real { if a < b then a else b }

  /** Math.Sign of a float, as a real: -1, 0 or 1. */
  function Sign(x: real): real { if x > 0.0 then 1.0 else if x < 0.0 then -1.0 else 0.0 }

  /** CommonMath.Clamp(a, low, high) = Max(low, Min(a, high)). */
  function Clamp(a: real, low: real, high: real): real {
    Max(low, Min(a, high))
  }

  /**
   * For a nonempty range, Clamp lands inside it, leaves values inside it
   * alone and sends values outside it to the nearer end.
   */
  lemma ClampBounds(a: real, low: real, high: real)
    requires low <= high
    ensures low <= Clamp(a, low, high) <= high
    ensures low <= a <= high ==> Clamp(a, low, high) == a
    ensures a < low ==> Clamp(a, low, high) == low
    ensures high < a ==> Clamp(a, low, high) == high
  {
  }

  /** The matrix-vector product A*v. */
  function Mul33(A: Mat33, v: Vec3): Vec3 {
    Add3(Add3(Scale3(v.x, A.col1), Scale3(v.y, A.col2)), Scale3(v.z, A.col3))
  }

  /** The product of the upper-left 2x2 block of A with v. */
  function Mul22(A: Mat33, v: Vec2): Vec2 {
    Vec2(A.col1.x * v.x + A.col2.x * v.y, A.col1.y * v.x + A.col2.y * v.y)
  }

  function Det22(A: Mat33): real { A.col1.x * A.col2.y - A.col2.x * A.col1.y }
  function Det33(A: Mat33): real { Dot3(A.col1, Cross3(A.col2, A.col3)) }

  /**
   * Mat33.Solve22: solves the upper-left 2x2 block of A against b by Cramer's
   * rule. A singular block yields the zero vector.
   */
  function Solve22(A: Mat33, b: Vec2): Vec2
  {
    var det := Det22(A);
    if det == 0.0 then Zero2
    else Vec2((A.col2.y * b.x - A.col2.x * b.y) / det, (A.col1.x * b.y - A.col1.y * b.x) / det)
  }

  /** With a regular block, Solve22 returns the solution; with a singular one, zero. */
  lemma Solve22Solves(A: Mat33, b: Vec2)
    ensures Det22(A) != 0.0 ==> Mul22(A, Solve22(A, b)) == b
    ensures Det22(A) == 0.0 ==> Solve22(A, b) == Zero2
  {
    var det := Det22(A);
    if det != 0.0 {
      var x := Solve22(A, b);
      assert det * x.x == A.col2.y * b.x - A.col2.x * b.y;
      assert det * x.y == A.col1.x * b.y - A.col1.y * b.x;
      assert det * (A.col1.x * x.x + A.col2.x * x.y) == det * b.x;
      assert det * (A.col1.y * x.x + A.col2.y * x.y) == det * b.y;
    }
  }

  /**
   * Mat33.Solve33: solves A*x = b by Cramer's rule. A singular matrix yields
   * the zero vector.
   */
  function Solve33(A: Mat33, b: Vec3): Vec3
  {
    var det := Det33(A);
    if det == 0.0 then Zero3
    else
      Vec3(Dot3(b, Cross3(A.col2, A.col3)) / det,
           Dot3(A.col1, Cross3(b, A.col3)) / det,
           Dot3(A.col1, Cross3(A.col2, b)) / det)
  }
}
