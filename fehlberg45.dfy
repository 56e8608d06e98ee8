// The Runge-Kutta-Fehlberg 4(5) method with step-size control (astro/RKF45.cpp).
module Fehlberg45 {
  import opened Errors
  import opened Vectors
  import opened States
  import opened StepDriver
  import opened RungeKutta
  import opened AdaptiveDriver

  /** Nodes of the six stages. */
  const A45: seq<real> := [0.0, 1.0 / 4.0, 3.0 / 8.0, 12.0 / 13.0, 1.0, 1.0 / 2.0]

  /** Coefficient rows: row i weights the derivatives of the stages before stage i. */
  const B45: seq<seq<real>> :=
    [[0.0, 0.0, 0.0, 0.0, 0.0],
     [1.0 / 4.0, 0.0, 0.0, 0.0, 0.0],
     [3.0 / 32.0, 9.0 / 32.0, 0.0, 0.0, 0.0],
     [1932.0 / 2197.0, -7200.0 / 2197.0, 7296.0 / 2197.0, 0.0, 0.0],
     [439.0 / 216.0, -8.0, 3680.0 / 513.0, -845.0 / 4104.0, 0.0],
     [-8.0 / 27.0, 2.0, -3544.0 / 2565.0, 1859.0 / 4104.0, -11.0 / 40.0]]

  /** Weights of the fourth-order solution. */
  const C4: seq<real> := [25.0 / 216.0, 0.0, 1408.0 / 2565.0, 2197.0 / 4104.0, -1.0 / 5.0, 0.0]

  /** Weights of the fifth-order solution, the one the step returns. */
  const C5: seq<real> := [16.0 / 135.0, 0.0, 6656.0 / 12825.0, 28561.0 / 56430.0, -9.0 / 50.0, 2.0 / 55.0]

  /** Weights of the truncation-error estimate: c4[i] - c5[i]. */
  const ErrorWeights: seq<real> :=
    [C4[0] - C5[0], C4[1] - C5[1], C4[2] - C5[2], C4[3] - C5[3], C4[4] - C5[4], C4[5] - C5[5]]

  /** Machine epsilon of a double, 2^-52. */
  const Eps: real := 1.0 / 4503599627370496.0

  /** The smallest next step size the method accepts. */
  const HMin: real := 16.0 * Eps

  /** The tolerance before any setTolerance. */
  const DefaultTolerance: real := 0.00000001

  /** std::min */
  function MinReal(a: real, b: real): real { if b < a then b else a }

  /** One result of doStep: the state, its epoch and the proposed next step size. */
  datatype StepResult = StepResult(s: PosState, et: real, dtNext: real)

  /** The six stage derivatives of a step of size h from s at et. */
  function Derivatives(rates: (real, PosState) -> PosState, s: PosState, et: real, h: real): (f: seq<PosState>)
    ensures |f| == 6
  {
    Stages(rates, A45, B45, s, et, h, 6)
  }

  /** The truncation error estimate h (c4 - c5) . f, accumulated from zero. */
  function TruncationError(f: seq<PosState>, h: real): PosState
    requires |f| == 6
  {
    Combine(ZeroState(), f, Weights(h, ErrorWeights), 6)
  }

  /** The allowed truncation error: tol times the largest absolute component of s, or tol if that is below one. */
  function AllowedError(s: PosState, tol: real): real
  {
    MaxReal(NormInf(s), 1.0) * tol
  }

  /** The next step size: the step scaled by 0.93 times the fifth root of allowed over estimated error, at most 4 h. */
  function NextStepSize(m: Math, teMax: real, teAllowed: real, h: real): real
    requires teMax >= 0.0
  {
    MinReal(0.93 * m.root5(teAllowed / (teMax + Eps)) * h, 4.0 * h)
  }

  /**
   * RKF45::doStep with tolerance tol. A next step size below HMin is an
   * error; an error estimate above the allowed error returns the input state
   * and epoch with the shorter next step size; otherwise the fifth-order
   * solution at et + h.
   */
  function Step45(m: Math, rates: (real, PosState) -> PosState, tol: real, s: PosState, et: real, h: real)
    : Result<StepResult>
  {
    var f := Derivatives(rates, s, et, h);
    var teMax := NormInf(TruncationError(f, h));
    var teAllowed := AllowedError(s, tol);
    var hNext := NextStepSize(m, teMax, teAllowed, h);
    if hNext < HMin then Err(StepSizeBelowMinimum)
    else if teMax > teAllowed then Ok(StepResult(s, et, hNext))
    else Ok(StepResult(Combine(s, f, Weights(h, C5), 6), et + h, hNext))
  }

  /** Both weight vectors sum to one and every row of b sums to its node. */
  lemma TableauConsistent45()
    ensures SumTo(C4, 6) == 1.0 && SumTo(C5, 6) == 1.0
    ensures forall i :: 0 <= i < 6 ==> SumTo(B45[i], i) == A45[i]
  {
    assert SumTo(B45[3], 3) == A45[3];
    assert SumTo(B45[4], 4) == A45[4];
    assert SumTo(B45[5], 5) == A45[5];
  }

  lemma {:induction false} SumOfDifferences(a: seq<real>, b: seq<real>, d: seq<real>, n: nat)
    requires n <= |a| && n <= |b| && n <= |d|
    requires forall i :: 0 <= i < n ==> d[i] == a[i] - b[i]
    ensures SumTo(d, n) == SumTo(a, n) - SumTo(b, n)
  {
    if n > 0 {
      SumOfDifferences(a, b, d, n - 1);
    }
  }

  /** Hence the error weights sum to zero. */
  lemma ErrorWeightsSumToZero()
    ensures SumTo(ErrorWeights, 6) == 0.0
  {
    TableauConsistent45();
    SumOfDifferences(C4, C5, ErrorWeights, 6);
  }

  lemma NonNegativeProduct(a: real, b: real)
    requires a >= 0.0 && b >= 0.0
    ensures a * b >= 0.0
  {
  }

  /** The allowed error is never below a non-negative tolerance. */
  lemma AllowedErrorAtLeastTolerance(s: PosState, tol: real)
    requires tol >= 0.0
    ensures AllowedError(s, tol) >= tol
  {
    var y := MaxReal(NormInf(s), 1.0);
    assert y * tol - tol == (y - 1.0) * tol;
    NonNegativeProduct(y - 1.0, tol);
  }

  /** The proposed next step is at most four times the step. */
  lemma NextStepAtMostFourSteps(m: Math, teMax: real, teAllowed: real, h: real)
    requires teMax >= 0.0
    ensures NextStepSize(m, teMax, teAllowed, h) <= 4.0 * h
  {
  }

  /**
   * Every outcome of a step: an error exactly when the next step size is
   * below HMin; otherwise a next step size of at least HMin and at most 4 h,
   * with either the input state and epoch (an error estimate above the
   * allowed error) or the fifth-order solution at et + h.
   */
  lemma StepOutcomes(m: Math, rates: (real, PosState) -> PosState, tol: real, s: PosState, et: real, h: real)
    ensures var f := Derivatives(rates, s, et, h);
            var teMax := NormInf(TruncationError(f, h));
            var hNext := NextStepSize(m, teMax, AllowedError(s, tol), h);
            var r := Step45(m, rates, tol, s, et, h);
            && (r.Err? <==> hNext < HMin)
            && (r.Err? ==> r.error == StepSizeBelowMinimum)
            && (r.Ok? ==> HMin <= r.value.dtNext == hNext <= 4.0 * h)
            && (r.Ok? && teMax > AllowedError(s, tol) ==> r.value == StepResult(s, et, hNext))
            && (r.Ok? && teMax <= AllowedError(s, tol) ==>
                  r.value == StepResult(Combine(s, f, Weights(h, C5), 6), et + h, hNext))
  {
    var f := Derivatives(rates, s, et, h);
    NextStepAtMostFourSteps(m, NormInf(TruncationError(f, h)), AllowedError(s, tol), h);
  }

  /** Every stage of a step with a constant derivative g sees g. */
  lemma ConstantDerivatives(rates: (real, PosState) -> PosState, g: PosState, s: PosState, et: real, h: real)
    requires forall e: real, x: PosState :: rates(e, x) == g
    ensures forall j :: 0 <= j < 6 ==> Derivatives(rates, s, et, h)[j] == g
  {
    forall j | 0 <= j < 6
      ensures Derivatives(rates, s, et, h)[j] == g
    {
      StageEvaluation(rates, A45, B45, s, et, h, 6, j);
    }
  }

  /** n equal derivatives g combined with the weights h w add g times h times the weight sum. */
  lemma ConstantCombination(s: PosState, f: seq<PosState>, h: real, w: seq<real>, g: PosState, n: nat)
    requires n <= |f| && n <= |w|
    requires forall j :: 0 <= j < n ==> f[j] == g
    ensures Combine(s, f, Weights(h, w), n) == s.Plus(g.Times(h * SumTo(w, n)))
  {
    CombineConstant(s, f, Weights(h, w), n, g);
    assert Combine(s, f, Weights(h, w), n) == s.Plus(g.Times(SumTo(Weights(h, w), n)));
    SumOfWeights(h, w, n);
    assert SumTo(Weights(h, w), n) == h * SumTo(w, n);
  }

  lemma NormInfOfZero(p: PosState)
    requires p == ZeroState()
    ensures NormInf(p) == 0.0
  {
  }

  /** Weights that sum to zero cancel equal derivatives. */
  lemma ZeroSumCancels(f: seq<PosState>, h: real, w: seq<real>, g: PosState, n: nat)
    requires n <= |f| && n <= |w|
    requires forall j :: 0 <= j < n ==> f[j] == g
    requires SumTo(w, n) == 0.0
    ensures Combine(ZeroState(), f, Weights(h, w), n) == ZeroState()
  {
    var hw := Weights(h, w);
    CombineConstant(ZeroState(), f, hw, n, g);
    SumOfWeights(h, w, n);
    assert SumTo(hw, n) == 0.0;
    PlusZeroTimes(ZeroState(), g);
  }

  /** Weights that sum to one advance by h times equal derivatives. */
  lemma UnitSumAdvances(s: PosState, f: seq<PosState>, h: real, w: seq<real>, g: PosState, n: nat)
    requires n <= |f| && n <= |w|
    requires forall j :: 0 <= j < n ==> f[j] == g
    requires SumTo(w, n) == 1.0
    ensures Combine(s, f, Weights(h, w), n) == s.Plus(g.Times(h))
  {
    ConstantCombination(s, f, h, w, g, n);
    assert h * SumTo(w, n) == h;
  }

  /**
   * A constant derivative g has no truncation error, so with a non-negative
   * tolerance the step is never skipped: it fails or it adds g h at et + h.
   */
  lemma ConstantRatesNeverSkipped(m: Math, rates: (real, PosState) -> PosState, g: PosState, tol: real,
                                   s: PosState, et: real, h: real)
    requires forall e: real, x: PosState :: rates(e, x) == g
    requires tol >= 0.0
    ensures var r := Step45(m, rates, tol, s, et, h);
            r.Ok? ==> r.value.s == s.Plus(g.Times(h)) && r.value.et == et + h
  {
    var f := Derivatives(rates, s, et, h);
    ConstantDerivatives(rates, g, s, et, h);
    ErrorWeightsSumToZero();
    TableauConsistent45();
    ZeroSumCancels(f, h, ErrorWeights, g, 6);
    NormInfOfZero(TruncationError(f, h));
    UnitSumAdvances(s, f, h, C5, g, 6);
    AllowedErrorAtLeastTolerance(s, tol);
  }

  /** A tolerance setTolerance accepts as written: anything but a negative value. */
  predicate ToleranceAcceptedAsWritten(tol: real)
  {
    !(tol < 0.0)
  }

  /** The tolerance setTolerance's own message asks for: positive. */
  predicate ToleranceAccepted(tol: real)
  {
    tol > 0.0
  }

  /**
   * setTolerance accepts zero, and with a zero tolerance the allowed error is
   * zero, the proposed step size is at most zero and every step fails.
   */
  lemma ZeroToleranceAlwaysFails(m: Math, rates: (real, PosState) -> PosState, s: PosState, et: real, h: real)
    requires Lawful(m)
    ensures ToleranceAcceptedAsWritten(0.0)
    ensures Step45(m, rates, 0.0, s, et, h) == Err(StepSizeBelowMinimum)
  {
    var teMax := NormInf(TruncationError(Derivatives(rates, s, et, h), h));
    assert AllowedError(s, 0.0) == 0.0;
    assert 0.0 / (teMax + Eps) == 0.0;
    assert 0.93 * m.root5(0.0) * h == 0.0;
  }

  lemma RootOfPositive(m: Math, x: real)
    requires Lawful(m) && x > 0.0
    ensures m.root5(x) > 0.0
  {
  }

  lemma PositiveProduct(a: real, b: real)
    requires a > 0.0 && b > 0.0
    ensures a * b > 0.0
  {
  }

  /** With an accepted (positive) tolerance a positive step proposes a positive next step. */
  lemma AcceptedToleranceProposesPositiveStep(m: Math, s: PosState, tol: real, teMax: real, h: real)
    requires Lawful(m)
    requires ToleranceAccepted(tol) && teMax >= 0.0 && h > 0.0
    ensures NextStepSize(m, teMax, AllowedError(s, tol), h) > 0.0
  {
    AllowedErrorAtLeastTolerance(s, tol);
    var q := AllowedError(s, tol) / (teMax + Eps);
    PositiveQuotient(AllowedError(s, tol), teMax + Eps);
    RootOfPositive(m, q);
    PositiveProduct(0.93 * m.root5(q), h);
  }

  /** The step function of the driver: doStep on a result's state, epoch and next step size. */
  function StepOf(m: Math, rates: (real, PosState) -> PosState, tol: real): StepResult -> Result<StepResult>
  {
    (x: StepResult) => Step45(m, rates, tol, x.s, x.et, x.dtNext)
  }

  function EpochOf(): StepResult -> real
  {
    (x: StepResult) => x.et
  }

  /** The clip of doSteps: the stored next step size is shortened so that it ends at et1. */
  function ClipTo(et1: real): StepResult -> StepResult
  {
    (x: StepResult) => x.(dtNext := Clip(x.et, et1, x.dtNext))
  }

  /** RKF45::doSteps with tolerance tol, with at most fuel steps. */
  function Steps45(m: Math, rates: (real, PosState) -> PosState, tol: real, s: PosState,
                     et0: real, et1: real, dt: real, fuel: nat): Result<seq<StepResult>>
  {
    Walk(StepOf(m, rates, tol), EpochOf(), ClipTo(et1), StepResult(s, et0, dt), et1, fuel)
  }

  /**
   * The result starts with (s, et0, dt); each later result is doStep of the
   * one before with its stored next step size clipped to end at et1; every
   * result but the last is before et1, the last is not.
   */
  lemma StepsShape(m: Math, rates: (real, PosState) -> PosState, tol: real, s: PosState,
                   et0: real, et1: real, dt: real, fuel: nat, t: seq<StepResult>)
    requires Steps45(m, rates, tol, s, et0, et1, dt, fuel) == Ok(t)
    ensures |t| >= 1 && t[0] == StepResult(s, et0, dt)
    ensures t[|t| - 1].et >= et1
    ensures forall i :: 0 <= i < |t| - 1 ==>
              && t[i].et < et1
              && Step45(m, rates, tol, t[i].s, t[i].et, t[i].dtNext).Ok?
              && var n := Step45(m, rates, tol, t[i].s, t[i].et, t[i].dtNext).value;
                 t[i + 1] == n.(dtNext := Clip(n.et, et1, n.dtNext))
    ensures forall i :: 1 <= i < |t| ==> t[i].et + t[i].dtNext <= et1
  {
    var step := StepOf(m, rates, tol);
    WalkSteps(step, EpochOf(), ClipTo(et1), StepResult(s, et0, dt), et1, fuel, t);
    forall i | 1 <= i < |t|
      ensures t[i].et + t[i].dtNext <= et1
    {
      assert t[i] == ClipTo(et1)(step(t[i - 1]).value);
    }
  }

  /** The loop invariant of doSteps: the results so far begin the specified sequence. */
  ghost predicate Stepping(m: Math, rates: (real, PosState) -> PosState, tol: real, s: PosState,
                           et0: real, et1: real, dt: real, fuel: nat, res: seq<StepResult>)
  {
    Walking(StepOf(m, rates, tol), EpochOf(), ClipTo(et1), StepResult(s, et0, dt), et1, fuel, res)
  }

  /** One iteration of doSteps keeps the invariant, or ends the specified sequence with the step's error. */
  lemma SteppingAdvance(m: Math, rates: (real, PosState) -> PosState, tol: real, s: PosState,
                        et0: real, et1: real, dt: real, fuel: nat, res: seq<StepResult>,
                        next: Result<StepResult>)
    requires Stepping(m, rates, tol, s, et0, et1, dt, fuel, res)
    requires res[|res| - 1].et < et1 && |res| - 1 < fuel
    requires next == Step45(m, rates, tol, res[|res| - 1].s, res[|res| - 1].et, res[|res| - 1].dtNext)
    ensures next.Err? ==> Steps45(m, rates, tol, s, et0, et1, dt, fuel) == Err(next.error)
    ensures next.Ok? ==>
              Stepping(m, rates, tol, s, et0, et1, dt, fuel,
                       res + [next.value.(dtNext := Clip(next.value.et, et1, next.value.dtNext))])
  {
    var step := StepOf(m, rates, tol);
    var init := StepResult(s, et0, dt);
    assert step(res[|res| - 1]) == next;
    if next.Err? {
      WalkingStepFails(step, EpochOf(), ClipTo(et1), init, et1, fuel, res, next.error);
    } else {
      WalkingStep(step, EpochOf(), ClipTo(et1), init, et1, fuel, res, next.value);
    }
  }

  /** The loop of doSteps starts with the invariant, and when it stops, the budget or the results decide. */
  lemma SteppingBounds(m: Math, rates: (real, PosState) -> PosState, tol: real, s: PosState,
                       et0: real, et1: real, dt: real, fuel: nat, res: seq<StepResult>)
    ensures Stepping(m, rates, tol, s, et0, et1, dt, fuel, [StepResult(s, et0, dt)])
    ensures Stepping(m, rates, tol, s, et0, et1, dt, fuel, res) && res[|res| - 1].et < et1 && |res| - 1 == fuel ==>
              Steps45(m, rates, tol, s, et0, et1, dt, fuel) == Err(StepBudgetExhausted)
    ensures Stepping(m, rates, tol, s, et0, et1, dt, fuel, res) && res[|res| - 1].et >= et1 ==>
              Steps45(m, rates, tol, s, et0, et1, dt, fuel) == Ok(res)
  {
    var step := StepOf(m, rates, tol);
    var init := StepResult(s, et0, dt);
    WalkingInit(step, EpochOf(), ClipTo(et1), init, et1, fuel);
    if Stepping(m, rates, tol, s, et0, et1, dt, fuel, res) {
      if res[|res| - 1].et < et1 && |res| - 1 == fuel {
        WalkingOutOfFuel(step, EpochOf(), ClipTo(et1), init, et1, fuel, res);
      } else if res[|res| - 1].et >= et1 {
        WalkingExit(step, EpochOf(), ClipTo(et1), init, et1, fuel, res);
      }
    }
  }

  /** The loop's clipping of the stored next step size, so that the next step ends at et1 at the latest. */
  method ClipNext(x: StepResult, et1: real) returns (y: StepResult)
    ensures y == x.(dtNext := Clip(x.et, et1, x.dtNext))
    ensures y.et + y.dtNext <= et1
  {
    y := x;
    if y.et + y.dtNext > et1 {
      y := y.(dtNext := et1 - y.et);
    }
  }

  /**
   * The tolerance of RKF45. In the source it is a static member, one for the
   * whole program; here it is a field of one solver object, which every user
   * of that tolerance holds.
   */
  class RKF45 {
    var tol: real

    constructor ()
      ensures tol == DefaultTolerance
    {
      tol := DefaultTolerance;
    }

    /** setTolerance: a negative tolerance is an error and changes nothing; zero is accepted. */
    method SetTolerance(newTol: real) returns (o: Outcome)
      modifies this
      ensures ToleranceAcceptedAsWritten(newTol) <==> o == Pass
      ensures o.Fail? ==> o.error == NegativeTolerance && tol == old(tol)
      ensures o.Pass? ==> tol == newTol
    {
      if newTol < 0.0 {
        return Fail(NegativeTolerance);
      }
      tol := newTol;
      o := Pass;
    }

    /** doStep: the stages, the error estimate, the step-size rule and the fifth-order accumulation. */
    method DoStep(m: Math, rates: (real, PosState) -> PosState, s: PosState, et: real, dt: real)
      returns (r: Result<StepResult>)
      ensures r == Step45(m, rates, tol, s, et, dt)
    {
      var h := dt;
      var f := EvaluateStages(rates, A45, B45, s, et, h, 6);
      var te := Accumulate(ZeroState(), f, h, ErrorWeights, 6);
      var teMax := NormInf(te);
      var teAllowed := AllowedError(s, tol);
      var hNext := NextStepSize(m, teMax, teAllowed, h);
      assert f == Derivatives(rates, s, et, h);
      assert te == TruncationError(f, h);
      if hNext < HMin {
        return Err(StepSizeBelowMinimum);
      } else if teMax > teAllowed {
        return Ok(StepResult(s, et, hNext));
      }
      var res := Accumulate(s, f, h, C5, 6);
      r := Ok(StepResult(res, et + dt, hNext));
    }

    /** One iteration of doSteps: doStep on the last result, which is before et1, then the result with its next step clipped to et1 pushed. */
    method Advance(m: Math, rates: (real, PosState) -> PosState, s: PosState, et0: real, et1: real, dt: real,
                   fuel: nat, res: seq<StepResult>)
      returns (r: Result<seq<StepResult>>)
      requires Stepping(m, rates, tol, s, et0, et1, dt, fuel, res)
      requires res[|res| - 1].et < et1 && |res| - 1 < fuel
      ensures r.Err? ==> Steps45(m, rates, tol, s, et0, et1, dt, fuel) == Err(r.error)
      ensures r.Ok? ==> Stepping(m, rates, tol, s, et0, et1, dt, fuel, r.value) && |r.value| == |res| + 1
    {
      var last := res[|res| - 1];
      var next := DoStep(m, rates, last.s, last.et, last.dtNext);
      SteppingAdvance(m, rates, tol, s, et0, et1, dt, fuel, res, next);
      if next.Err? {
        return Err(next.error);
      }
      var stepped := ClipNext(next.value, et1);
      r := Ok(res + [stepped]);
    }

    /**
     * doSteps: from (s, et0, dt), doStep on the last result while its epoch
     * is before et1, clipping the stored next step size after each step.
     * At most fuel steps are taken.
     */
    method DoSteps(m: Math, rates: (real, PosState) -> PosState, s: PosState, et0: real, et1: real, dt: real,
                   fuel: nat)
      returns (r: Result<seq<StepResult>>)
      ensures r == Steps45(m, rates, tol, s, et0, et1, dt, fuel)
    {
      var res := [StepResult(s, et0, dt)];
      SteppingBounds(m, rates, tol, s, et0, et1, dt, fuel, res);
      while res[|res| - 1].et < et1
        invariant Stepping(m, rates, tol, s, et0, et1, dt, fuel, res)
        decreases fuel - (|res| - 1)
      {
        SteppingBounds(m, rates, tol, s, et0, et1, dt, fuel, res);
        if |res| - 1 == fuel {
          return Err(StepBudgetExhausted);
        }
        var next := Advance(m, rates, s, et0, et1, dt, fuel, res);
        if next.Err? {
          return Err(next.error);
        }
        res := next.value;
      }
      SteppingBounds(m, rates, tol, s, et0, et1, dt, fuel, res);
      r := Ok(res);
    }
  }
}
