// Right-hand sides of the equations of motion (astro/ODE.cpp).
module Odes {
  import opened Vectors
  import opened States

  function Cube(x: real): real { x * x * x }

  /**
   * Two-body gravity: the position derivative is the velocity and the
   * velocity derivative is r / |r|^3 scaled by -mu. The source divides by
   * |r|^3, so a state at the centre of attraction has no derivative.
   */
  function Gravity(m: Math, mu: real, s: PosState): (sdot: PosState)
    requires Length(m, s.r) != 0.0
    ensures sdot.r == s.v
  {
    PosState(s.v, s.r.DivScalar(Cube(Length(m, s.r))).Scale(-mu))
  }

  lemma CubeNonZero(l: real)
    requires l != 0.0
    ensures Cube(l) != 0.0
  {
    if l > 0.0 {
      assert l * l > 0.0;
    } else {
      assert l * l > 0.0;
    }
  }

  lemma CubePositive(l: real)
    requires l > 0.0
    ensures Cube(l) > 0.0
  {
    assert l * l > 0.0;
  }

  /** (r / c) * a dotted with r is (a / c) times |r|^2. */
  lemma DotOfScaledQuotient(r: Vec3, c: real, a: real)
    requires c != 0.0
    ensures r.DivScalar(c).Scale(a).Dot(r) == (a / c) * r.Dot(r)
  {
  }

  /** (r / c) * a crossed with r vanishes: the vectors are parallel. */
  lemma CrossOfScaledQuotient(r: Vec3, c: real, a: real)
    requires c != 0.0
    ensures r.DivScalar(c).Scale(a).Cross(r) == Zero3
  {
  }

  lemma NegativeTimesPositive(a: real, b: real)
    requires a < 0.0 && b > 0.0
    ensures a * b < 0.0
  {
  }

  lemma NegativeOverPositive(a: real, c: real)
    requires a < 0.0 && c > 0.0
    ensures a / c < 0.0
  {
  }

  lemma SquarePositive(l: real)
    requires l != 0.0
    ensures l * l > 0.0
  {
  }

  /** a / l^3 times l^2 is a / l. */
  lemma CubeQuotientTimesSquare(a: real, l: real)
    requires l != 0.0
    ensures (a / Cube(l)) * (l * l) == a / l
  {
    CubeNonZero(l);
    var q := a / Cube(l);
    assert q * Cube(l) == a;
    assert (q * (l * l)) * l == a;
  }

  /**
   * The acceleration has the inverse-square magnitude: its component along r
   * is -mu / |r|. With GravityIsCentral this fixes it as -mu r / |r|^3.
   */
  lemma GravityInverseSquare(m: Math, mu: real, s: PosState)
    requires Lawful(m)
    requires Length(m, s.r) != 0.0
    ensures Gravity(m, mu, s).v.Dot(s.r) == -mu / Length(m, s.r)
  {
    var l := Length(m, s.r);
    CubeNonZero(l);
    DotOfScaledQuotient(s.r, Cube(l), -mu);
    LengthFacts(m, s.r);
    CubeQuotientTimesSquare(-mu, l);
  }

  /** For a positive mu the acceleration points from the body towards the centre. */
  lemma GravityAttracts(m: Math, mu: real, s: PosState)
    requires Lawful(m)
    requires Length(m, s.r) != 0.0
    requires mu > 0.0
    ensures Gravity(m, mu, s).v.Dot(s.r) < 0.0
  {
    var l := Length(m, s.r);
    LengthFacts(m, s.r);
    assert l > 0.0;
    CubePositive(l);
    DotOfScaledQuotient(s.r, Cube(l), -mu);
    SquarePositive(l);
    assert s.r.Dot(s.r) > 0.0;
    NegativeOverPositive(-mu, Cube(l));
    NegativeTimesPositive(-mu / Cube(l), s.r.Dot(s.r));
  }

  /** The acceleration is parallel to the position vector. */
  lemma GravityIsCentral(m: Math, mu: real, s: PosState)
    requires Length(m, s.r) != 0.0
    ensures Gravity(m, mu, s).v.Cross(s.r) == Zero3
  {
    CubeNonZero(Length(m, s.r));
    CrossOfScaledQuotient(s.r, Cube(Length(m, s.r)), -mu);
  }

  lemma ScaleTwice(v: Vec3, a: real, k: real)
    ensures v.Scale(-(k * a)) == v.Scale(-a).Scale(k)
  {
  }

  /** The acceleration is proportional to mu: scaling mu by k scales it by k. */
  lemma GravityLinearInMu(m: Math, mu: real, k: real, s: PosState)
    requires Length(m, s.r) != 0.0
    ensures Gravity(m, k * mu, s).v == Gravity(m, mu, s).v.Scale(k)
  {
    CubeNonZero(Length(m, s.r));
    ScaleTwice(s.r.DivScalar(Cube(Length(m, s.r))), mu, k);
  }

  /** A state at the centre of attraction has zero length, where the derivative is undefined. */
  lemma CentreIsSingular(m: Math, s: PosState)
    requires Lawful(m)
    requires s.r == Zero3
    ensures Length(m, s.r) == 0.0
  {
    LengthFacts(m, s.r);
  }

  /** The gravity ODE: a gravitational parameter that setMu replaces. */
  class Ode {
    var mu: real

    constructor (mu0: real)
      ensures mu == mu0
    {
      mu := mu0;
    }

    /** setMu */
    method SetMu(newMu: real)
      modifies this
      ensures mu == newMu
    {
      mu := newMu;
    }

    /** operator(): writes the derivative of x into dxdt; the epoch is not used. */
    method Evaluate(m: Math, x: PosState, et: real) returns (dxdt: PosState)
      requires Length(m, x.r) != 0.0
      ensures dxdt.r == x.v
      ensures dxdt == Gravity(m, mu, x)
    {
      dxdt := PosState(Zero3, Zero3);
      dxdt := dxdt.(r := x.v);
      var r := Length(m, x.r);
      CubeNonZero(r);
      var acc := x.r.DivScalar(Cube(r));
      acc := acc.Scale(-mu);
      dxdt := dxdt.(v := acc);
    }

    /** rates: returns what operator() writes. */
    method Rates(m: Math, et: real, s: PosState) returns (sdot: PosState)
      requires Length(m, s.r) != 0.0
      ensures sdot == Gravity(m, mu, s)
    {
      sdot := Evaluate(m, s, et);
    }
  }

  /** Attitude kinematics (RotODE::rates): the quaternion derivative and zero angular acceleration. */
  function RotRates(et: real, rs: RotState): (rsdot: RotState)
    ensures rsdot.w == Zero3
  {
    var q0 := rs.q.w;
    var q := rs.q.VecPart();
    var w := rs.w;
    var q0dot := -0.5 * w.Dot(q);
    var qdot := w.Scale(q0).Sub(w.Cross(q)).Scale(0.5);
    RotState(FromParts(qdot, q0dot), Zero3)
  }

  /** The four-dimensional dot product of two quaternions. */
  function QuatDot(p: Quat, q: Quat): real
  {
    p.x * q.x + p.y * q.y + p.z * q.z + p.w * q.w
  }

  /** The quaternion derivative is orthogonal to the quaternion, so |q| stays constant along the flow. */
  lemma RotRatesTangent(et: real, rs: RotState)
    ensures QuatDot(rs.q, RotRates(et, rs).q) == 0.0
  {
  }
}
