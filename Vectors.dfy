/**
 * Three-vectors over exact reals and the six-component relative state
 * (position and velocity in the Hill frame centred on Blue: radial x,
 * along-track y, cross-track z).
 */
module Vectors {

  datatype Vec3 = Vec3(x: real, y: real, z: real)

  /** Position [m] and velocity [m/s]; the source keeps them as one 6-array. */
  datatype State = State(r: Vec3, v: Vec3)

  const Zero: Vec3 := Vec3(0.0, 0.0, 0.0)
  const UnitY: Vec3 := Vec3(0.0, 1.0, 0.0)
  const UnitZ: Vec3 := Vec3(0.0, 0.0, 1.0)
  const ZeroState: State := State(Zero, Zero)

  function Add(a: Vec3, b: Vec3): Vec3 { Vec3(a.x + b.x, a.y + b.y, a.z + b.z) }

  function Sub(a: Vec3, b: Vec3): Vec3 { Vec3(a.x - b.x, a.y - b.y, a.z - b.z) }

  /** `c * a` for a scalar `c`. */
  function Scale(c: real, a: Vec3): Vec3 { Vec3(c * a.x, c * a.y, c * a.z) }

  /** Element-wise division `a / d`, as numpy divides an array by a scalar: scaling by `1 / d`. */
  function Div(a: Vec3, d: real): Vec3
    requires d != 0.0
  {
    Scale(1.0 / d, a)
  }

  function Dot(a: Vec3, b: Vec3): real { a.x * b.x + a.y * b.y + a.z * b.z }

  function Cross(a: Vec3, b: Vec3): Vec3
  {
    Vec3(a.y * b.z - a.z * b.y, a.z * b.x - a.x * b.z, a.x * b.y - a.y * b.x)
  }

  /** Sum of squares of the components. */
  function NormSq(a: Vec3): real { Dot(a, a) }

  function SubState(s: State, u: State): State { State(Sub(s.r, u.r), Sub(s.v, u.v)) }

  /**
   * What the model assumes of `np.linalg.norm`: that it is never negative,
   * which is all the core relies on (it keeps `|r| + 1e-9` away from zero).
   * The model is parametric in such a function because the reals have no
   * computable square root here.
   */
  ghost predicate NormNonnegative(norm: Vec3 -> real)
  {
    forall a :: 0.0 <= norm(a)
  }

  /** The cross product is orthogonal to both of its factors. */
  lemma CrossIsPerpendicular(a: Vec3, b: Vec3)
    ensures Dot(Cross(a, b), a) == 0.0
    ensures Dot(Cross(a, b), b) == 0.0
  {
    calc {
      Dot(Cross(a, b), a);
      (a.y * b.z - a.z * b.y) * a.x + (a.z * b.x - a.x * b.z) * a.y + (a.x * b.y - a.y * b.x) * a.z;
      a.x * a.y * b.z - a.x * a.z * b.y + a.y * a.z * b.x - a.x * a.y * b.z + a.x * a.z * b.y - a.y * a.z * b.x;
      0.0;
    }
    calc {
      Dot(Cross(a, b), b);
      (a.y * b.z - a.z * b.y) * b.x + (a.z * b.x - a.x * b.z) * b.y + (a.x * b.y - a.y * b.x) * b.z;
      a.y * b.x * b.z - a.z * b.x * b.y + a.z * b.x * b.y - a.x * b.y * b.z + a.x * b.y * b.z - a.y * b.x * b.z;
      0.0;
    }
  }

  /** Scaling distributes over a difference. */
  lemma ScaleSub(c: real, a: Vec3, b: Vec3)
    ensures Scale(c, Sub(a, b)) == Sub(Scale(c, a), Scale(c, b))
  {
  }

  /** A difference of sums is the sum of the differences. */
  lemma SubOfAdds(a: Vec3, b: Vec3, c: Vec3, d: Vec3)
    ensures Sub(Add(a, b), Add(c, d)) == Add(Sub(a, c), Sub(b, d))
  {
  }

  /** Scaling twice is scaling by the product. */
  lemma ScaleScale(c: real, e: real, a: Vec3)
    ensures Scale(c, Scale(e, a)) == Scale(c * e, a)
  {
  }

  /** Scalar factors commute. */
  lemma ScaleCommutes(c: real, d: real, u: Vec3)
    ensures Scale(c, Scale(d, u)) == Scale(d, Scale(c, u))
  {
    assert c * (d * u.x) == d * (c * u.x);
    assert c * (d * u.y) == d * (c * u.y);
    assert c * (d * u.z) == d * (c * u.z);
  }

  /** Scaling a quotient is scaling by the quotient of the scalars. */
  lemma ScaleDiv(c: real, a: Vec3, d: real)
    requires d != 0.0
    ensures Scale(c, Div(a, d)) == Scale(c / d, a)
  {
    ScaleScale(c, 1.0 / d, a);
    assert c * (1.0 / d) == c / d;
  }

  /** Dividing a multiple is taking the multiple of the quotient. */
  lemma DivOfScale(c: real, a: Vec3, d: real)
    requires d != 0.0
    ensures Div(Scale(c, a), d) == Scale(c, Div(a, d))
  {
    ScaleScale(1.0 / d, c, a);
    ScaleScale(c, 1.0 / d, a);
    assert (1.0 / d) * c == c * (1.0 / d);
  }

  /** A multiple of a vector is parallel to it. */
  lemma CrossScaleSelf(c: real, a: Vec3)
    ensures Cross(Scale(c, a), a) == Zero
  {
    assert (c * a.y) * a.z == (c * a.z) * a.y;
    assert (c * a.z) * a.x == (c * a.x) * a.z;
    assert (c * a.x) * a.y == (c * a.y) * a.x;
  }

  /** Scaling either factor scales the dot product. */
  lemma DotScale(c: real, a: Vec3, b: Vec3)
    ensures Dot(Scale(c, a), b) == c * Dot(a, b)
    ensures Dot(a, Scale(c, b)) == c * Dot(a, b)
  {
  }

  /** The sum of squares is never negative. */
  lemma NormSqNonnegative(a: Vec3)
    ensures NormSq(a) >= 0.0
  {
    Square(a.x);
    Square(a.y);
    Square(a.z);
  }

  lemma Square(c: real)
    ensures c * c >= 0.0
  {
  }

  /** A quotient by a positive number keeps the sign of the dividend. */
  lemma QuotientSign(p: real, q: real)
    requires q > 0.0
    ensures p >= 0.0 ==> p / q >= 0.0
    ensures p <= 0.0 ==> p / q <= 0.0
  {
    assert (p / q) * q == p;
  }

  /** The product of two numbers of opposite signs is never positive. */
  lemma MulNonpositive(a: real, b: real)
    requires a <= 0.0 <= b
    ensures a * b <= 0.0
  {
  }
}
