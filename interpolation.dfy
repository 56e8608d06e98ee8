// Cubic Hermite interpolation of a state between two epochs (astro/Interpolate.cpp).
module Interpolation {
  import opened Vectors
  import opened States

  // Hermite basis polynomials on the unit interval (pow(t, 3.0) is t * t * t).
  function H00(t: real): real { 2.0 * (t * t * t) - 3.0 * (t * t) + 1.0 }
  function H01(t: real): real { -2.0 * (t * t * t) + 3.0 * (t * t) }
  function H10(t: real): real { (t * t * t) - 2.0 * (t * t) + t }
  function H11(t: real): real { (t * t * t) - (t * t) }

  // Their derivatives with respect to t.
  function D00(t: real): real { 6.0 * (t * t) - 6.0 * t }
  function D01(t: real): real { -6.0 * (t * t) + 6.0 * t }
  function D10(t: real): real { 3.0 * (t * t) - 4.0 * t + 1.0 }
  function D11(t: real): real { 3.0 * (t * t) - 2.0 * t }

  /** One component of h00 r1 + h10 span v1 + h01 r2 + h11 span v2 for the given weights. */
  function Mix(p1: real, v1: real, p2: real, v2: real, span: real, a00: real, a10: real, a01: real, a11: real): real
  {
    a00 * p1 + a10 * span * v1 + a01 * p2 + a11 * span * v2
  }

  /** h00 r1 + h10 span v1 + h01 r2 + h11 span v2, component by component. */
  function Blend(s1: PosState, s2: PosState, span: real, a00: real, a10: real, a01: real, a11: real): Vec3
  {
    Vec3(Mix(s1.r.x, s1.v.x, s2.r.x, s2.v.x, span, a00, a10, a01, a11),
         Mix(s1.r.y, s1.v.y, s2.r.y, s2.v.y, span, a00, a10, a01, a11),
         Mix(s1.r.z, s1.v.z, s2.r.z, s2.v.z, span, a00, a10, a01, a11))
  }

  /** Fraction of the interval from et1 to et2 that lies before etx. */
  function Fraction(et1: real, et2: real, etx: real): real
    requires et2 != et1
  {
    (etx - et1) / (et2 - et1)
  }

  /**
   * The state at fraction t of an interval of length span on the cubic
   * through s1 and s2 whose end slopes are the velocities: the h-weighted
   * blend for the position, the derivative-weighted blend over the span for
   * the velocity.
   */
  function HermiteAt(s1: PosState, s2: PosState, span: real, t: real): PosState
    requires span != 0.0
  {
    var r := Blend(s1, s2, span, H00(t), H10(t), H01(t), H11(t));
    var v := Blend(s1, s2, span, D00(t), D10(t), D01(t), D11(t)).DivScalar(span);
    PosState(r, v)
  }

  /**
   * hermite: the state at etx on the cubic through (et1, s1) and (et2, s2).
   * The span is a divisor, so the two epochs must differ. The cubic passes
   * through both given states, in position and in velocity.
   */
  function Hermite(s1: PosState, et1: real, s2: PosState, et2: real, etx: real): (s: PosState)
    requires et2 != et1
    ensures etx == et1 ==> s == s1
    ensures etx == et2 ==> s == s2
  {
    BlendAtStart(s1, s2, et2 - et1);
    BlendAtEnd(s1, s2, et2 - et1);
    FractionAtEnds(et1, et2);
    HermiteAt(s1, s2, et2 - et1, Fraction(et1, et2, etx))
  }

  /** The position weights of the two end points add up to one. */
  lemma PositionWeightsPartitionUnity(t: real)
    ensures H00(t) + H01(t) == 1.0
  {
  }

  /** The derivative weights of the two end points cancel. */
  lemma DerivativeWeightsCancel(t: real)
    ensures D00(t) + D01(t) == 0.0
  {
  }

  // The second-order remainders of the basis polynomials over a step d from t.
  function R00(t: real, d: real): real { 6.0 * t - 3.0 + 2.0 * d }
  function R01(t: real, d: real): real { 3.0 - 6.0 * t - 2.0 * d }
  function R10(t: real, d: real): real { 3.0 * t - 2.0 + d }
  function R11(t: real, d: real): real { 3.0 * t - 1.0 + d }

  /**
   * Each velocity weight is the derivative of the matching position weight:
   * the change over a step d is d times the derivative plus a term of order d squared.
   */
  lemma VelocityWeightsAreDerivatives(t: real, d: real)
    ensures H00(t + d) - H00(t) == d * D00(t) + d * d * R00(t, d)
    ensures H01(t + d) - H01(t) == d * D01(t) + d * d * R01(t, d)
    ensures H10(t + d) - H10(t) == d * D10(t) + d * d * R10(t, d)
    ensures H11(t + d) - H11(t) == d * D11(t) + d * d * R11(t, d)
  {
  }

  /** Mix is linear in its weights. */
  lemma MixLinear(p1: real, v1: real, p2: real, v2: real, span: real,
                  a00: real, a10: real, a01: real, a11: real,
                  b00: real, b10: real, b01: real, b11: real,
                  c00: real, c10: real, c01: real, c11: real, k: real, l: real)
    ensures Mix(p1, v1, p2, v2, span, a00 + k * b00 + l * c00, a10 + k * b10 + l * c10,
                a01 + k * b01 + l * c01, a11 + k * b11 + l * c11)
         == Mix(p1, v1, p2, v2, span, a00, a10, a01, a11)
            + k * Mix(p1, v1, p2, v2, span, b00, b10, b01, b11)
            + l * Mix(p1, v1, p2, v2, span, c00, c10, c01, c11)
  {
  }

  /** Weights that move by d times b and d squared times c move the blend likewise. */
  lemma BlendOfShiftedWeights(s1: PosState, s2: PosState, span: real,
                              a00: real, a10: real, a01: real, a11: real,
                              b00: real, b10: real, b01: real, b11: real,
                              c00: real, c10: real, c01: real, c11: real,
                              e00: real, e10: real, e01: real, e11: real, d: real)
    requires e00 - a00 == d * b00 + d * d * c00 && e10 - a10 == d * b10 + d * d * c10
    requires e01 - a01 == d * b01 + d * d * c01 && e11 - a11 == d * b11 + d * d * c11
    ensures Blend(s1, s2, span, e00, e10, e01, e11)
         == Blend(s1, s2, span, a00, a10, a01, a11)
              .Add(Blend(s1, s2, span, b00, b10, b01, b11).Scale(d))
              .Add(Blend(s1, s2, span, c00, c10, c01, c11).Scale(d * d))
  {
    var e := Blend(s1, s2, span, e00, e10, e01, e11);
    var a := Blend(s1, s2, span, a00, a10, a01, a11);
    var b := Blend(s1, s2, span, b00, b10, b01, b11);
    var c := Blend(s1, s2, span, c00, c10, c01, c11);
    MixLinear(s1.r.x, s1.v.x, s2.r.x, s2.v.x, span, a00, a10, a01, a11, b00, b10, b01, b11, c00, c10, c01, c11, d, d * d);
    MixLinear(s1.r.y, s1.v.y, s2.r.y, s2.v.y, span, a00, a10, a01, a11, b00, b10, b01, b11, c00, c10, c01, c11, d, d * d);
    MixLinear(s1.r.z, s1.v.z, s2.r.z, s2.v.z, span, a00, a10, a01, a11, b00, b10, b01, b11, c00, c10, c01, c11, d, d * d);
    assert e00 == a00 + d * b00 + d * d * c00 && e10 == a10 + d * b10 + d * d * c10;
    assert e01 == a01 + d * b01 + d * d * c01 && e11 == a11 + d * b11 + d * d * c11;
    assert e.x == Mix(s1.r.x, s1.v.x, s2.r.x, s2.v.x, span, a00 + d * b00 + d * d * c00, a10 + d * b10 + d * d * c10,
                      a01 + d * b01 + d * d * c01, a11 + d * b11 + d * d * c11);
    assert e.x == a.x + d * b.x + d * d * c.x;
    VectorStep(e, a, b, c, d);
  }

  /** Three componentwise steps make one vector step. */
  lemma VectorStep(b: Vec3, a: Vec3, m: Vec3, r: Vec3, d: real)
    requires b.x == a.x + d * m.x + d * d * r.x
    requires b.y == a.y + d * m.y + d * d * r.y
    requires b.z == a.z + d * m.z + d * d * r.z
    ensures b == a.Add(m.Scale(d)).Add(r.Scale(d * d))
  {
  }

  /** The position blend over a step d of the fraction: d times the velocity blend plus d squared times a remainder. */
  lemma BlendStep(s1: PosState, s2: PosState, span: real, t: real, d: real)
    ensures Blend(s1, s2, span, H00(t + d), H10(t + d), H01(t + d), H11(t + d))
         == Blend(s1, s2, span, H00(t), H10(t), H01(t), H11(t))
              .Add(Blend(s1, s2, span, D00(t), D10(t), D01(t), D11(t)).Scale(d))
              .Add(Blend(s1, s2, span, R00(t, d), R10(t, d), R01(t, d), R11(t, d)).Scale(d * d))
  {
    VelocityWeightsAreDerivatives(t, d);
    BlendOfShiftedWeights(s1, s2, span, H00(t), H10(t), H01(t), H11(t),
                          D00(t), D10(t), D01(t), D11(t), R00(t, d), R10(t, d), R01(t, d), R11(t, d),
                          H00(t + d), H10(t + d), H01(t + d), H11(t + d), d);
  }

  lemma DivThenMul(c: real, span: real, d: real)
    requires span != 0.0
    ensures c / span * (d * span) == c * d
  {
    calc {
      c / span * (d * span);
      == (c / span * span) * d;
      == c * d;
    }
  }

  /** A vector divided by the span and scaled by d times the span is the vector scaled by d. */
  lemma DivThenScale(m: Vec3, span: real, d: real)
    requires span != 0.0
    ensures m.DivScalar(span).Scale(d * span) == m.Scale(d)
  {
    DivThenMul(m.x, span, d);
    DivThenMul(m.y, span, d);
    DivThenMul(m.z, span, d);
  }

  /** A velocity that is a blend over the span, scaled by d times the span, is the blend scaled by d. */
  lemma Rescale(b: Vec3, a: Vec3, v: Vec3, m: Vec3, r: Vec3, span: real, d: real)
    requires span != 0.0
    requires b == a.Add(m.Scale(d)).Add(r.Scale(d * d))
    requires v == m.DivScalar(span)
    ensures b == a.Add(v.Scale(d * span)).Add(r.Scale(d * d))
  {
    DivThenScale(m, span, d);
  }

  /**
   * The interpolated velocity is the derivative of the interpolated
   * position: over a step d of the fraction (a step d * span of the epoch,
   * by FractionShift), the position moves by d * span times the velocity,
   * plus d squared times a remainder.
   */
  lemma HermiteAtStep(s1: PosState, s2: PosState, span: real, t: real, d: real)
    requires span != 0.0
    ensures var a := HermiteAt(s1, s2, span, t);
            HermiteAt(s1, s2, span, t + d).r
            == a.r.Add(a.v.Scale(d * span)).Add(Blend(s1, s2, span, R00(t, d), R10(t, d), R01(t, d), R11(t, d)).Scale(d * d))
  {
    BlendStep(s1, s2, span, t, d);
    var a := HermiteAt(s1, s2, span, t);
    Rescale(HermiteAt(s1, s2, span, t + d).r, a.r, a.v,
            Blend(s1, s2, span, D00(t), D10(t), D01(t), D11(t)),
            Blend(s1, s2, span, R00(t, d), R10(t, d), R01(t, d), R11(t, d)), span, d);
  }

  /** Moving etx by d times the span moves the fraction by d. */
  lemma FractionShift(et1: real, et2: real, etx: real, d: real)
    requires et2 != et1
    ensures Fraction(et1, et2, etx + d * (et2 - et1)) == Fraction(et1, et2, etx) + d
  {
    var span := et2 - et1;
    assert (etx + d * span - et1) / span == (etx - et1) / span + (d * span) / span;
  }

  /** et1 is at fraction 0 of the interval and et2 at fraction 1. */
  lemma FractionAtEnds(et1: real, et2: real)
    requires et2 != et1
    ensures Fraction(et1, et2, et1) == 0.0
    ensures Fraction(et1, et2, et2) == 1.0
  {
    SelfQuotient(et2 - et1);
  }

  lemma SelfQuotient(x: real)
    requires x != 0.0
    ensures x / x == 1.0
  {
  }

  /** Weights (1, 0, 0, 0) pick the first position, (0, 1, 0, 0) the first velocity times the span. */
  lemma MixAtStart(p1: real, v1: real, p2: real, v2: real, span: real)
    requires span != 0.0
    ensures Mix(p1, v1, p2, v2, span, 1.0, 0.0, 0.0, 0.0) == p1
    ensures Mix(p1, v1, p2, v2, span, 0.0, 1.0, 0.0, 0.0) / span == v1
  {
    assert Mix(p1, v1, p2, v2, span, 0.0, 1.0, 0.0, 0.0) == span * v1;
  }

  /** Weights (0, 0, 1, 0) pick the second position, (0, 0, 0, 1) the second velocity times the span. */
  lemma MixAtEnd(p1: real, v1: real, p2: real, v2: real, span: real)
    requires span != 0.0
    ensures Mix(p1, v1, p2, v2, span, 0.0, 0.0, 1.0, 0.0) == p2
    ensures Mix(p1, v1, p2, v2, span, 0.0, 0.0, 0.0, 1.0) / span == v2
  {
    assert Mix(p1, v1, p2, v2, span, 0.0, 0.0, 0.0, 1.0) == span * v2;
  }

  lemma BasisAtZero()
    ensures H00(0.0) == 1.0 && H10(0.0) == 0.0 && H01(0.0) == 0.0 && H11(0.0) == 0.0
    ensures D00(0.0) == 0.0 && D10(0.0) == 1.0 && D01(0.0) == 0.0 && D11(0.0) == 0.0
  {
  }

  lemma BasisAtOne()
    ensures H00(1.0) == 0.0 && H10(1.0) == 0.0 && H01(1.0) == 1.0 && H11(1.0) == 0.0
    ensures D00(1.0) == 0.0 && D10(1.0) == 0.0 && D01(1.0) == 0.0 && D11(1.0) == 1.0
  {
  }

  /** The weights at t = 0 reproduce the first state. */
  lemma BlendAtStart(s1: PosState, s2: PosState, span: real)
    requires span != 0.0
    ensures Blend(s1, s2, span, H00(0.0), H10(0.0), H01(0.0), H11(0.0)) == s1.r
    ensures Blend(s1, s2, span, D00(0.0), D10(0.0), D01(0.0), D11(0.0)).DivScalar(span) == s1.v
  {
    BasisAtZero();
    MixAtStart(s1.r.x, s1.v.x, s2.r.x, s2.v.x, span);
    MixAtStart(s1.r.y, s1.v.y, s2.r.y, s2.v.y, span);
    MixAtStart(s1.r.z, s1.v.z, s2.r.z, s2.v.z, span);
  }

  /** The weights at t = 1 reproduce the second state. */
  lemma BlendAtEnd(s1: PosState, s2: PosState, span: real)
    requires span != 0.0
    ensures Blend(s1, s2, span, H00(1.0), H10(1.0), H01(1.0), H11(1.0)) == s2.r
    ensures Blend(s1, s2, span, D00(1.0), D10(1.0), D01(1.0), D11(1.0)).DivScalar(span) == s2.v
  {
    BasisAtOne();
    MixAtEnd(s1.r.x, s1.v.x, s2.r.x, s2.v.x, span);
    MixAtEnd(s1.r.y, s1.v.y, s2.r.y, s2.v.y, span);
    MixAtEnd(s1.r.z, s1.v.z, s2.r.z, s2.v.z, span);
  }

  /** Midway from the origin (moving at (2, 4, 6)) to rest at (1000, 2000, 3000) over 1000 s: three quarters of the way, at half the initial velocity. */
  lemma HermiteMidpointExample()
    ensures var s1 := PosState(Zero3, Vec3(2.0, 4.0, 6.0));
            var s2 := PosState(Vec3(1000.0, 2000.0, 3000.0), Zero3);
            Hermite(s1, 0.0, s2, 1000.0, 500.0) == PosState(Vec3(750.0, 1500.0, 2250.0), Vec3(1.0, 2.0, 3.0))
  {
    assert Fraction(0.0, 1000.0, 500.0) == 0.5;
  }
}
