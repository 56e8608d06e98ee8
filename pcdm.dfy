// The Predictor-Corrector Direct Multiplication integrator for attitude
// (astro/PCDM.cpp): the orientation quaternion is advanced by multiplying it
// with unit increment quaternions, first to a predicted quarter-step
// orientation, then over the whole step with the half-step angular velocity.
module Pcdm {
  import opened Errors
  import opened Vectors
  import opened States
  import opened StepDriver
  import opened Odes

  /** The quaternion (v, 0) of a vector. */
  function Quaternize(v: Vec3): (q: Quat)
    ensures q.VecPart() == v && q.w == 0.0
  {
    Quat(v.x, v.y, v.z, 0.0)
  }

  /** A global angular velocity in the body frame of orientation q: the vector part of q^-1 (w, 0) q. */
  function ToBody(qa: QuatAlgebra, q: Quat, w: Vec3): Vec3
  {
    qa.mul(qa.mul(qa.inverse(q), Quaternize(w)), q).VecPart()
  }

  /** A body angular velocity in the global frame: the vector part of q (w, 0) q^-1. */
  function ToGlobal(qa: QuatAlgebra, q: Quat, wb: Vec3): Vec3
  {
    qa.mul(qa.mul(q, Quaternize(wb)), qa.inverse(q)).VecPart()
  }

  /**
   * The body rate a time h into the step: wbn + wdot h, with wdot from the
   * rotation ODE (the source's 0.25 wdot DT is wdot (DT 0.25) in real arithmetic).
   */
  function BodyRateAt(qa: QuatAlgebra, rs: RotState, et: real, h: real): Vec3
  {
    ToBody(qa, rs.q, rs.w).Add(RotRates(et, rs).w.Scale(h))
  }

  /**
   * The increment (sin F axis, cos F) for turning at rate w for a time h:
   * the axis is w / |w| and the angle F is |w| h. |w| is a divisor.
   */
  function Increment(m: Math, w: Vec3, h: real): Quat
    requires Length(m, w) != 0.0
  {
    Rotation(m, Axis(m, w), Angle(m, w, h))
  }

  /** The angle turned at rate w in a time h: |w| h. */
  function Angle(m: Math, w: Vec3, h: real): real
  {
    Length(m, w) * h
  }

  /** The rotation axis w / |w|. */
  function Axis(m: Math, w: Vec3): Vec3
    requires Length(m, w) != 0.0
  {
    w.Scale(1.0 / Length(m, w))
  }

  /** The quaternion (sin f axis, cos f). */
  function Rotation(m: Math, axis: Vec3, f: real): Quat
  {
    FromParts(axis.Scale(m.sin(f)), m.cos(f))
  }

  /** The global angular velocity at the quarter step, from the orientation at the start. */
  function QuarterRate(qa: QuatAlgebra, rs: RotState, et: real, dt: real): Vec3
  {
    ToGlobal(qa, rs.q, BodyRateAt(qa, rs, et, dt * 0.25))
  }

  // ---------------------------------------------------------------------
  // doStep as written: the axis is normalised without a zero guard.

  /** The predicted orientation: the increment of angle |w| dt / 4 about the quarter-step rate, times qn. */
  function PredictedAsWritten(m: Math, qa: QuatAlgebra, rs: RotState, et: real, dt: real): Quat
    requires Length(m, QuarterRate(qa, rs, et, dt)) != 0.0
  {
    qa.mul(Increment(m, QuarterRate(qa, rs, et, dt), dt * 0.25), rs.q)
  }

  /** The global angular velocity at the half step, from the predicted orientation. */
  function HalfRateAsWritten(m: Math, qa: QuatAlgebra, rs: RotState, et: real, dt: real): Vec3
    requires Length(m, QuarterRate(qa, rs, et, dt)) != 0.0
  {
    ToGlobal(qa, PredictedAsWritten(m, qa, rs, et, dt), BodyRateAt(qa, rs, et, dt * 0.5))
  }

  /**
   * PCDM::doStep as written: both rates are divisors. Where it is defined it
   * keeps the angular velocity, ends at et + dt, and turns a unit orientation
   * quaternion into a unit quaternion.
   */
  function StepAsWritten(m: Math, qa: QuatAlgebra, rs: RotState, et: real, dt: real): (next: Sample<RotState>)
    requires Length(m, QuarterRate(qa, rs, et, dt)) != 0.0
    requires Length(m, HalfRateAsWritten(m, qa, rs, et, dt)) != 0.0
    ensures next.s.w == rs.w && next.et == et + dt
    ensures Lawful(m) && LawfulQuat(qa) && rs.q.Norm2() == 1.0 ==> next.s.q.Norm2() == 1.0
  {
    IncrementUnitWhenLawful(m, HalfRateAsWritten(m, qa, rs, et, dt), dt * 0.5);
    Sample(RotState(qa.mul(Increment(m, HalfRateAsWritten(m, qa, rs, et, dt), dt * 0.5), rs.q), rs.w), et + dt)
  }

  lemma ZeroRateInBody(qa: QuatAlgebra, q: Quat)
    requires LawfulQuat(qa)
    ensures ToBody(qa, q, Zero3) == Zero3
  {
    assert Quaternize(Zero3) == QuatZero;
  }

  lemma ZeroRateInGlobal(qa: QuatAlgebra, q: Quat)
    requires LawfulQuat(qa)
    ensures ToGlobal(qa, q, Zero3) == Zero3
  {
    assert Quaternize(Zero3) == QuatZero;
  }

  /** The rotation ODE has no angular acceleration, so the body rate is the same throughout the step. */
  lemma BodyRateConstant(qa: QuatAlgebra, rs: RotState, et: real, h: real)
    ensures BodyRateAt(qa, rs, et, h) == ToBody(qa, rs.q, rs.w)
  {
  }

  /**
   * A body at rest has a zero quarter-step rate, whose length is zero, so
   * doStep as written divides by zero.
   */
  lemma StaticBodyStepUndefined(m: Math, qa: QuatAlgebra, rs: RotState, et: real, dt: real)
    requires Lawful(m) && LawfulQuat(qa)
    requires rs.w == Zero3
    ensures Length(m, QuarterRate(qa, rs, et, dt)) == 0.0
  {
    ZeroRateInBody(qa, rs.q);
    BodyRateConstant(qa, rs, et, dt * 0.25);
    ZeroRateInGlobal(qa, rs.q);
    LengthFacts(m, Zero3);
  }

  // ---------------------------------------------------------------------
  // doStep with the zero guard: a rate of length zero turns the body by nothing.

  /** The increment for turning at rate w for a time h, or (0, cos 0) for a rate of length zero. */
  function GuardedIncrement(m: Math, w: Vec3, h: real): Quat
  {
    if Length(m, w) == 0.0 then Quat(0.0, 0.0, 0.0, m.cos(0.0))
    else Increment(m, w, h)
  }

  /** At a rate of nonzero length the guarded increment is the unguarded one. */
  lemma GuardedIncrementMoving(m: Math, w: Vec3, h: real)
    requires Length(m, w) != 0.0
    ensures GuardedIncrement(m, w, h) == Increment(m, w, h)
  {
  }

  /** The predicted orientation q'(n+1/2): the quarter-step increment times qn. */
  function Predicted(m: Math, qa: QuatAlgebra, rs: RotState, et: real, dt: real): Quat
  {
    qa.mul(GuardedIncrement(m, QuarterRate(qa, rs, et, dt), dt * 0.25), rs.q)
  }

  /** The global angular velocity at the half step, from the predicted orientation. */
  function HalfRate(m: Math, qa: QuatAlgebra, rs: RotState, et: real, dt: real): Vec3
  {
    ToGlobal(qa, Predicted(m, qa, rs, et, dt), BodyRateAt(qa, rs, et, dt * 0.5))
  }

  /** PCDM::doStep with the zero guard: the new orientation, the angular velocity unchanged, at et + dt. */
  function Step(m: Math, qa: QuatAlgebra, rs: RotState, et: real, dt: real): Sample<RotState>
  {
    Sample(RotState(qa.mul(GuardedIncrement(m, HalfRate(m, qa, rs, et, dt), dt * 0.5), rs.q), rs.w), et + dt)
  }

  /** Where doStep as written is defined, the guarded step agrees with it. */
  lemma GuardAgreesAwayFromRest(m: Math, qa: QuatAlgebra, rs: RotState, et: real, dt: real)
    requires Length(m, QuarterRate(qa, rs, et, dt)) != 0.0
    requires Length(m, HalfRateAsWritten(m, qa, rs, et, dt)) != 0.0
    ensures Step(m, qa, rs, et, dt) == StepAsWritten(m, qa, rs, et, dt)
  {
    GuardedIncrementMoving(m, QuarterRate(qa, rs, et, dt), dt * 0.25);
    assert Predicted(m, qa, rs, et, dt) == PredictedAsWritten(m, qa, rs, et, dt);
    GuardedIncrementMoving(m, HalfRate(m, qa, rs, et, dt), dt * 0.5);
  }

  lemma UnitAxis(m: Math, w: Vec3)
    requires Lawful(m) && Length(m, w) != 0.0
    ensures Axis(m, w).Dot(Axis(m, w)) == 1.0
  {
    var l := Length(m, w);
    LengthFacts(m, w);
    DotScale(w, 1.0 / l);
    assert (1.0 / l) * (1.0 / l) * (l * l) == 1.0;
  }

  /** (sin f axis, cos f) has unit norm when the axis does: sin^2 f |axis|^2 + cos^2 f = 1. */
  lemma RotationIsUnit(m: Math, axis: Vec3, f: real)
    requires Lawful(m) && axis.Dot(axis) == 1.0
    ensures Rotation(m, axis, f).Norm2() == 1.0
  {
    var tmp := axis.Scale(m.sin(f));
    var c := m.cos(f);
    assert Rotation(m, axis, f).Norm2() == tmp.Dot(tmp) + c * c;
    DotScale(axis, m.sin(f));
    assert m.sin(f) * m.sin(f) + c * c == 1.0;
  }

  lemma IncrementIsUnit(m: Math, w: Vec3, h: real)
    requires Lawful(m) && Length(m, w) != 0.0
    ensures Increment(m, w, h).Norm2() == 1.0
  {
    UnitAxis(m, w);
    RotationIsUnit(m, Axis(m, w), Angle(m, w, h));
  }

  lemma IncrementUnitWhenLawful(m: Math, w: Vec3, h: real)
    requires Length(m, w) != 0.0
    ensures Lawful(m) ==> Increment(m, w, h).Norm2() == 1.0
  {
    if Lawful(m) {
      IncrementIsUnit(m, w, h);
    }
  }

  lemma GuardedIncrementIsUnit(m: Math, w: Vec3, h: real)
    requires Lawful(m)
    ensures GuardedIncrement(m, w, h).Norm2() == 1.0
  {
    if Length(m, w) != 0.0 {
      GuardedIncrementMoving(m, w, h);
      IncrementIsUnit(m, w, h);
    }
  }

  /** A step keeps a unit orientation quaternion a unit quaternion. */
  lemma StepPreservesUnitNorm(m: Math, qa: QuatAlgebra, rs: RotState, et: real, dt: real)
    requires Lawful(m) && LawfulQuat(qa)
    requires rs.q.Norm2() == 1.0
    ensures Step(m, qa, rs, et, dt).s.q.Norm2() == 1.0
  {
    GuardedIncrementIsUnit(m, HalfRate(m, qa, rs, et, dt), dt * 0.5);
  }

  /** A step keeps the angular velocity and advances the epoch by dt. */
  lemma StepKeepsRate(m: Math, qa: QuatAlgebra, rs: RotState, et: real, dt: real)
    ensures Step(m, qa, rs, et, dt).s.w == rs.w
    ensures Step(m, qa, rs, et, dt).et == et + dt
  {
  }

  /** A body at rest keeps its orientation. */
  lemma StaticBodyStaysPut(m: Math, qa: QuatAlgebra, rs: RotState, et: real, dt: real)
    requires Lawful(m) && LawfulQuat(qa)
    requires rs.w == Zero3
    ensures Step(m, qa, rs, et, dt).s == rs
  {
    StaticBodyStepUndefined(m, qa, rs, et, dt);
    assert GuardedIncrement(m, QuarterRate(qa, rs, et, dt), dt * 0.25) == QuatOne;
    assert Predicted(m, qa, rs, et, dt) == rs.q;
    BodyRateConstant(qa, rs, et, dt * 0.5);
    ZeroRateInBody(qa, rs.q);
    ZeroRateInGlobal(qa, rs.q);
    LengthFacts(m, Zero3);
    assert GuardedIncrement(m, HalfRate(m, qa, rs, et, dt), dt * 0.5) == QuatOne;
  }

  /** The step function the driver repeats. */
  function StepFunction(m: Math, qa: QuatAlgebra): (RotState, real, real) -> RotState
  {
    (x: RotState, e: real, h: real) => Step(m, qa, x, e, h).s
  }

  /** PCDM::doStep: one guarded step, which keeps the angular velocity and advances the epoch by dt. */
  method DoStep(m: Math, qa: QuatAlgebra, rs: RotState, et: real, dt: real) returns (next: Sample<RotState>)
    ensures next.s == StepFunction(m, qa)(rs, et, dt)
    ensures next.s.w == rs.w
    ensures next.et == et + dt
  {
    next := Step(m, qa, rs, et, dt);
    StepKeepsRate(m, qa, rs, et, dt);
  }

  /** PCDM::doSteps: the initial sample, then fixed steps of dt up to et1, clipped after each step. */
  function StepsSpec(m: Math, qa: QuatAlgebra, rs: RotState, et0: real, et1: real, dt: real)
    : Result<seq<Sample<RotState>>>
    requires et0 < et1 ==> dt > 0.0
  {
    if et1 <= et0 then Ok([Sample(rs, et0)])
    else Drive(StepFunction(m, qa), rs, et0, et1, dt, StepBound(et0, et1, dt))
  }

  /** Every orientation of a trajectory from a unit quaternion is a unit quaternion. */
  lemma StepsPreserveUnitNorm(m: Math, qa: QuatAlgebra, rs: RotState, et0: real, et1: real, dt: real,
                              t: seq<Sample<RotState>>)
    requires Lawful(m) && LawfulQuat(qa)
    requires et0 < et1 ==> dt > 0.0
    requires rs.q.Norm2() == 1.0
    requires StepsSpec(m, qa, rs, et0, et1, dt) == Ok(t)
    ensures forall i :: 0 <= i < |t| ==> t[i].s.q.Norm2() == 1.0
  {
    if et0 < et1 {
      var step := StepFunction(m, qa);
      var inv := (x: RotState) => x.q.Norm2() == 1.0;
      forall x: RotState, e: real, h: real | inv(x)
        ensures inv(step(x, e, h))
      {
        StepPreservesUnitNorm(m, qa, x, e, h);
      }
      DrivePreserves(step, inv, rs, et0, et1, dt, StepBound(et0, et1, dt), t);
    }
  }

  /** One pass of the doSteps loop: a step from the last sample, then the step size clipped to et1. */
  method Advance(m: Math, qa: QuatAlgebra, rs: RotState, et0: real, et1: real, dt: real,
                 res: seq<Sample<RotState>>, dti: real, ghost clipped: bool)
    returns (res': seq<Sample<RotState>>, dti': real, ghost clipped': bool)
    requires dt > 0.0 && |res| >= 1
    requires Loop(StepFunction(m, qa), rs, et0, et1, dt, res, dti, |res| - 1, clipped)
    requires res[|res| - 1].et < et1
    ensures |res'| == |res| + 1
    ensures Loop(StepFunction(m, qa), rs, et0, et1, dt, res', dti', |res'| - 1, clipped')
  {
    var last := res[|res| - 1];
    var next := DoStep(m, qa, last.s, last.et, dti);
    LoopStep(StepFunction(m, qa), rs, et0, et1, dt, res, dti, |res| - 1, clipped);
    clipped' := clipped || next.et + dti > et1;
    res' := res + [next];
    dti' := dti;
    if res'[|res'| - 1].et + dti > et1 {
      dti' := et1 - res'[|res'| - 1].et;
    }
    assert dti' == Clip(next.et, et1, dti);
  }

  /**
   * PCDM::doSteps. The source loops forever for et0 < et1 and dt <= 0
   * (the epoch never reaches et1), hence the precondition.
   */
  method DoSteps(m: Math, qa: QuatAlgebra, rs: RotState, et0: real, et1: real, dt: real)
    returns (res: seq<Sample<RotState>>)
    requires et0 < et1 ==> dt > 0.0
    ensures StepsSpec(m, qa, rs, et0, et1, dt) == Ok(res)
  {
    res := [Sample(rs, et0)];
    if et1 <= et0 {
      return;
    }
    var dti := dt;
    ghost var clipped := false;
    LoopInit(StepFunction(m, qa), rs, et0, et1, dt);
    while res[|res| - 1].et < et1
      invariant |res| >= 1
      invariant Loop(StepFunction(m, qa), rs, et0, et1, dt, res, dti, |res| - 1, clipped)
      decreases StepBound(et0, et1, dt) - |res|
    {
      res, dti, clipped := Advance(m, qa, rs, et0, et1, dt, res, dti, clipped);
    }
    LoopExit(StepFunction(m, qa), rs, et0, et1, dt, res, dti, |res| - 1, clipped);
  }
}
