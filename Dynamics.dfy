/**
 * Linearised relative motion (Clohessy–Wiltshire / Hill equations) and the
 * semi-implicit Euler step the simulation loop integrates them with.
 */
module Dynamics {
  import opened Vectors

  /**
   * Time derivative of the relative state for mean motion `n` [rad/s] and
   * commanded acceleration `a` [m/s^2]: the position rates are the
   * velocities, and the velocity rates are the Hill equations
   *   dvx = 3 n^2 x + 2 n vy + ax,  dvy = -2 n vx + ay,  dvz = -n^2 z + az.
   */
  function CwDerivatives(n: real, s: State, a: Vec3 := Zero): (d: State)
    ensures d.r == s.v
  {
    State(s.v, Vec3(3.0 * n * n * s.r.x + 2.0 * n * s.v.y + a.x,
                    -2.0 * n * s.v.x + a.y,
                    -n * n * s.r.z + a.z))
  }

  /**
   * One semi-implicit (symplectic) Euler step of length `dt`: the velocity
   * is advanced with the derivative taken at the pre-step state, and the
   * position is then advanced with the NEW velocity.
   */
  function EulerStep(n: real, s: State, a: Vec3, dt: real): (next: State)
  {
    var d := CwDerivatives(n, s, a);
    var v := Add(s.v, Scale(dt, d.v));
    State(Add(s.r, Scale(dt, v)), v)
  }

  /** The origin at rest, with no thrust, is an equilibrium of both the equations and the step. */
  lemma ZeroStateIsEquilibrium(n: real, dt: real)
    ensures CwDerivatives(n, ZeroState, Zero) == ZeroState
    ensures EulerStep(n, ZeroState, Zero, dt) == ZeroState
  {
  }

  /** The derivative is linear in the state and the acceleration together. */
  lemma CwLinear(n: real, s: State, u: State, a: Vec3, b: Vec3)
    ensures CwDerivatives(n, SubState(s, u), Sub(a, b))
         == SubState(CwDerivatives(n, s, a), CwDerivatives(n, u, b))
  {
    var w := SubState(s, u);
    assert 3.0 * n * n * w.r.x == 3.0 * n * n * s.r.x - 3.0 * n * n * u.r.x;
    assert 2.0 * n * w.v.y == 2.0 * n * s.v.y - 2.0 * n * u.v.y;
    assert -2.0 * n * w.v.x == -2.0 * n * s.v.x - -2.0 * n * u.v.x;
    assert -n * n * w.r.z == -n * n * s.r.z - -n * n * u.r.z;
    var lhs := CwDerivatives(n, w, Sub(a, b));
    var rhs := SubState(CwDerivatives(n, s, a), CwDerivatives(n, u, b));
    assert lhs.v.x == rhs.v.x && lhs.v.y == rhs.v.y && lhs.v.z == rhs.v.z;
  }

  /** The integration step is linear in the state and the acceleration together. */
  lemma {:induction false} EulerStepLinear(n: real, s: State, u: State, a: Vec3, b: Vec3, dt: real)
    ensures EulerStep(n, SubState(s, u), Sub(a, b), dt)
         == SubState(EulerStep(n, s, a, dt), EulerStep(n, u, b, dt))
  {
    CwLinear(n, s, u, a, b);
    var d1, d2 := CwDerivatives(n, s, a).v, CwDerivatives(n, u, b).v;
    var v1, v2 := Add(s.v, Scale(dt, d1)), Add(u.v, Scale(dt, d2));
    ScaleSub(dt, d1, d2);
    SubOfAdds(s.v, Scale(dt, d1), u.v, Scale(dt, d2));
    ScaleSub(dt, v1, v2);
    SubOfAdds(s.r, Scale(dt, v1), u.r, Scale(dt, v2));
  }

  /**
   * Why the loop may subtract Blue's command from Threat's: stepping with
   * the net acceleration `aThreat - aBlue` is stepping with Threat's burn
   * alone, minus the response of the resting origin to Blue's burn.
   */
  lemma {:induction false} OpposedBurnsSuperpose(n: real, s: State, aThreat: Vec3, aBlue: Vec3, dt: real)
    ensures EulerStep(n, s, Sub(aThreat, aBlue), dt)
         == SubState(EulerStep(n, s, aThreat, dt), EulerStep(n, ZeroState, aBlue, dt))
  {
    EulerStepLinear(n, s, ZeroState, aThreat, aBlue, dt);
    assert SubState(s, ZeroState) == s;
  }

  /**
   * The Jacobi-type integral of the unforced Hill equations,
   * |v|^2 - 3 n^2 x^2 + n^2 z^2.
   */
  function JacobiIntegral(n: real, s: State): real
  {
    NormSq(s.v) - 3.0 * n * n * s.r.x * s.r.x + n * n * s.r.z * s.r.z
  }

  /** Rate of change of `JacobiIntegral` when the state moves with derivative `d`; `JacobiExpansion` shows it is the linear term. */
  function JacobiRate(n: real, s: State, d: State): real
  {
    2.0 * Dot(s.v, d.v) - 6.0 * n * n * s.r.x * d.r.x + 2.0 * n * n * s.r.z * d.r.z
  }

  /**
   * Along the Hill equations the integral changes only by the power of the
   * thrust: it is conserved when no acceleration is commanded.
   */
  lemma JacobiIntegralRate(n: real, s: State, a: Vec3)
    ensures JacobiRate(n, s, CwDerivatives(n, s, a)) == 2.0 * Dot(s.v, a)
  {
  }

  /** The state `s` moved by `h` times `d`. */
  function Displace(s: State, h: real, d: State): State
  {
    State(Add(s.r, Scale(h, d.r)), Add(s.v, Scale(h, d.v)))
  }

  /**
   * The integral is a quadratic form: moving the state by `h d` changes it
   * by `h` times `JacobiRate` plus `h^2` times the integral of `d`, so
   * `JacobiRate` is its derivative along `d`.
   */
  lemma JacobiExpansion(n: real, s: State, d: State, h: real)
    ensures JacobiIntegral(n, Displace(s, h, d))
         == JacobiIntegral(n, s) + h * JacobiRate(n, s, d) + h * h * JacobiIntegral(n, d)
  {
    SquareOfSum(s.v.x, h, d.v.x);
    SquareOfSum(s.v.y, h, d.v.y);
    SquareOfSum(s.v.z, h, d.v.z);
    SquareOfSum(s.r.x, h, d.r.x);
    SquareOfSum(s.r.z, h, d.r.z);
    var m := n * n;
    assert m * (s.r.x + h * d.r.x) * (s.r.x + h * d.r.x)
        == m * (s.r.x * s.r.x) + h * (2.0 * m * s.r.x * d.r.x) + h * h * (m * d.r.x * d.r.x);
    assert m * (s.r.z + h * d.r.z) * (s.r.z + h * d.r.z)
        == m * (s.r.z * s.r.z) + h * (2.0 * m * s.r.z * d.r.z) + h * h * (m * d.r.z * d.r.z);
  }

  lemma SquareOfSum(a: real, h: real, b: real)
    ensures (a + h * b) * (a + h * b) == a * a + h * (2.0 * a * b) + h * h * (b * b)
  {
  }
}
