// The Runge-Kutta-Fehlberg 7(8) driver around a controlled stepper (astro/RKF78.cpp).
// The stepper itself (boost odeint's controlled_runge_kutta) is not part of
// this model: its try_step is a function from the ODE and its in/out
// arguments to their new values and a success flag, and it is rebuilt from
// the tolerance by a factory function.
module Fehlberg78 {
  import opened Errors
  import opened States
  import opened StepDriver
  import opened AdaptiveDriver

  /** How many failed attempts doStep tolerates before it gives up. */
  const AllowableTries: nat := 10

  /** The tolerance before any setTolerance. */
  const DefaultTolerance: real := 0.00000001

  /** What try_step reports, and the state, epoch and step size it leaves in its in/out arguments. */
  datatype Attempt = Attempt(success: bool, s: PosState, et: real, dt: real)

  /** try_step of a controlled stepper: from the ODE's rates, the state, epoch and step size to the attempt. */
  type Stepper = ((real, PosState) -> PosState, PosState, real, real) -> Attempt

  /** One result of doStep: the state, its epoch, the next step size and the failed attempts before success. */
  datatype StepResult = StepResult(s: PosState, et: real, dtNext: real, numTries: int)

  /**
   * The retry loop of doStep after tries failures: attempt a step from
   * (s, et, dt); on success report it, otherwise count the failure and
   * retry from what the attempt left behind, unless the failures now exceed
   * AllowableTries.
   */
  function Retry(stepper: Stepper, rates: (real, PosState) -> PosState,
                 s: PosState, et: real, dt: real, tries: nat): Result<StepResult>
    requires tries <= AllowableTries
    decreases AllowableTries - tries
  {
    var a := stepper(rates, s, et, dt);
    if a.success then Ok(StepResult(a.s, a.et, a.dt, tries))
    else if tries + 1 > AllowableTries then Err(StepNotConverged)
    else Retry(stepper, rates, a.s, a.et, a.dt, tries + 1)
  }

  /** RKF78::doStep with the given stepper and ODE. */
  function Step78(stepper: Stepper, rates: (real, PosState) -> PosState,
                  s: PosState, et: real, dt: real): Result<StepResult>
  {
    Retry(stepper, rates, s, et, dt, 0)
  }

  /** The in/out arguments after k attempts from (s, et, dt), each attempt starting where the previous one left off. */
  function After(stepper: Stepper, rates: (real, PosState) -> PosState,
                 s: PosState, et: real, dt: real, k: nat): Attempt
  {
    if k == 0 then Attempt(false, s, et, dt)
    else
      var p := After(stepper, rates, s, et, dt, k - 1);
      stepper(rates, p.s, p.et, p.dt)
  }

  /**
   * What the retry loop after t failures returns: an error exactly when
   * attempts t + 1 to AllowableTries + 1 all fail; otherwise the first
   * attempt that does not, with the failures before it counted.
   */
  ghost predicate RetryOutcome(stepper: Stepper, rates: (real, PosState) -> PosState,
                               s: PosState, et: real, dt: real, t: nat, r: Result<StepResult>)
  {
    && (r.Err? <==> forall k :: t + 1 <= k <= AllowableTries + 1 ==> !After(stepper, rates, s, et, dt, k).success)
    && (r.Err? ==> r.error == StepNotConverged)
    && (r.Ok? ==>
          && t <= r.value.numTries <= AllowableTries
          && (forall j :: t + 1 <= j <= r.value.numTries ==> !After(stepper, rates, s, et, dt, j).success)
          && var a := After(stepper, rates, s, et, dt, r.value.numTries + 1);
             a.success && r.value == StepResult(a.s, a.et, a.dt, r.value.numTries))
  }

  /** A retry whose attempt fails with failures to spare has the outcome of the retry after one more failure. */
  lemma RetryAfterFailure(stepper: Stepper, rates: (real, PosState) -> PosState,
                          s: PosState, et: real, dt: real, t: nat, r: Result<StepResult>)
    requires t < AllowableTries && !After(stepper, rates, s, et, dt, t + 1).success
    requires RetryOutcome(stepper, rates, s, et, dt, t + 1, r)
    ensures RetryOutcome(stepper, rates, s, et, dt, t, r)
  {
    assert (forall k :: t + 1 <= k <= AllowableTries + 1 ==> !After(stepper, rates, s, et, dt, k).success)
       <==> (forall k :: t + 2 <= k <= AllowableTries + 1 ==> !After(stepper, rates, s, et, dt, k).success);
  }

  /** Retry after t failures has the outcome RetryOutcome states. */
  lemma {:induction false} RetryFrom(stepper: Stepper, rates: (real, PosState) -> PosState,
                                     s: PosState, et: real, dt: real, t: nat)
    requires t <= AllowableTries
    ensures var p := After(stepper, rates, s, et, dt, t);
            RetryOutcome(stepper, rates, s, et, dt, t, Retry(stepper, rates, p.s, p.et, p.dt, t))
    decreases AllowableTries - t
  {
    var p := After(stepper, rates, s, et, dt, t);
    var a := After(stepper, rates, s, et, dt, t + 1);
    assert a == stepper(rates, p.s, p.et, p.dt);
    var r := Retry(stepper, rates, p.s, p.et, p.dt, t);
    if !a.success && t + 1 <= AllowableTries {
      RetryFrom(stepper, rates, s, et, dt, t + 1);
      assert r == Retry(stepper, rates, a.s, a.et, a.dt, t + 1);
      RetryAfterFailure(stepper, rates, s, et, dt, t, r);
    } else if !a.success {
      assert r == Err(StepNotConverged);
      forall k | t + 1 <= k <= AllowableTries + 1
        ensures !After(stepper, rates, s, et, dt, k).success
      {
        assert k == t + 1;
      }
    } else {
      assert r == Ok(StepResult(a.s, a.et, a.dt, t));
    }
  }

  /**
   * doStep fails exactly when the first AllowableTries + 1 attempts all
   * fail. Otherwise numTries is the number of failed attempts, at most
   * AllowableTries, and the result is what the first successful attempt
   * left in the in/out arguments.
   */
  lemma StepOutcome(stepper: Stepper, rates: (real, PosState) -> PosState, s: PosState, et: real, dt: real)
    ensures var r := Step78(stepper, rates, s, et, dt);
            && (r.Err? <==> forall k :: 1 <= k <= AllowableTries + 1 ==> !After(stepper, rates, s, et, dt, k).success)
            && (r.Err? ==> r.error == StepNotConverged)
            && (r.Ok? ==>
                  && 0 <= r.value.numTries <= AllowableTries
                  && (forall j :: 1 <= j <= r.value.numTries ==> !After(stepper, rates, s, et, dt, j).success)
                  && var a := After(stepper, rates, s, et, dt, r.value.numTries + 1);
                     a.success && r.value == StepResult(a.s, a.et, a.dt, r.value.numTries))
  {
    RetryFrom(stepper, rates, s, et, dt, 0);
    assert After(stepper, rates, s, et, dt, 0) == Attempt(false, s, et, dt);
    var r := Step78(stepper, rates, s, et, dt);
    assert RetryOutcome(stepper, rates, s, et, dt, 0, r);
    if r.Ok? {
      var j := r.value.numTries + 1;
      assert 1 <= j <= AllowableTries + 1 && After(stepper, rates, s, et, dt, j).success;
    }
  }

  /** The step function of the driver: doStep on a result's state, epoch and next step size. */
  function StepOf(stepper: Stepper, rates: (real, PosState) -> PosState): StepResult -> Result<StepResult>
  {
    (x: StepResult) => Step78(stepper, rates, x.s, x.et, x.dtNext)
  }

  function EpochOf(): StepResult -> real
  {
    (x: StepResult) => x.et
  }

  /** The clip of doSteps: the stored next step size is shortened so that it ends at et1. */
  function ClipTo(et1: real): StepResult -> StepResult
  {
    (x: StepResult) => x.(dtNext := Clip(x.et, et1, x.dtNext))
  }

  /** RKF78::doSteps with the given stepper and ODE, with at most fuel steps. */
  function Steps78(stepper: Stepper, rates: (real, PosState) -> PosState,
                   s: PosState, et0: real, et1: real, dt: real, fuel: nat)
    : Result<seq<StepResult>>
  {
    Walk(StepOf(stepper, rates), EpochOf(), ClipTo(et1), StepResult(s, et0, dt, 0), et1, fuel)
  }

  /**
   * The result starts with (s, et0, dt) and no tries; each later result is
   * doStep of the one before with its next step size clipped to end at et1;
   * every result but the last is before et1, the last is not.
   */
  lemma StepsShape(stepper: Stepper, rates: (real, PosState) -> PosState,
                   s: PosState, et0: real, et1: real, dt: real, fuel: nat, t: seq<StepResult>)
    requires Steps78(stepper, rates, s, et0, et1, dt, fuel) == Ok(t)
    ensures |t| >= 1 && t[0] == StepResult(s, et0, dt, 0)
    ensures t[|t| - 1].et >= et1
    ensures forall i :: 0 <= i < |t| - 1 ==>
              && t[i].et < et1
              && Step78(stepper, rates, t[i].s, t[i].et, t[i].dtNext).Ok?
              && var n := Step78(stepper, rates, t[i].s, t[i].et, t[i].dtNext).value;
                 t[i + 1] == n.(dtNext := Clip(n.et, et1, n.dtNext))
    ensures forall i :: 1 <= i < |t| ==> t[i].et + t[i].dtNext <= et1
  {
    var step := StepOf(stepper, rates);
    WalkSteps(step, EpochOf(), ClipTo(et1), StepResult(s, et0, dt, 0), et1, fuel, t);
    forall i | 1 <= i < |t|
      ensures t[i].et + t[i].dtNext <= et1
    {
      assert t[i] == ClipTo(et1)(step(t[i - 1]).value);
    }
  }

  /** The loop invariant of doSteps: the results so far begin the specified sequence. */
  ghost predicate Stepping(stepper: Stepper, rates: (real, PosState) -> PosState, s: PosState,
                           et0: real, et1: real, dt: real, fuel: nat, res: seq<StepResult>)
  {
    Walking(StepOf(stepper, rates), EpochOf(), ClipTo(et1), StepResult(s, et0, dt, 0), et1, fuel, res)
  }

  /** One iteration of doSteps keeps the invariant, or ends the specified sequence with the step's error. */
  lemma SteppingAdvance(stepper: Stepper, rates: (real, PosState) -> PosState, s: PosState,
                        et0: real, et1: real, dt: real, fuel: nat, res: seq<StepResult>,
                        next: Result<StepResult>)
    requires Stepping(stepper, rates, s, et0, et1, dt, fuel, res)
    requires res[|res| - 1].et < et1 && |res| - 1 < fuel
    requires next == Step78(stepper, rates, res[|res| - 1].s, res[|res| - 1].et, res[|res| - 1].dtNext)
    ensures next.Err? ==> Steps78(stepper, rates, s, et0, et1, dt, fuel) == Err(next.error)
    ensures next.Ok? ==>
              Stepping(stepper, rates, s, et0, et1, dt, fuel,
                       res + [next.value.(dtNext := Clip(next.value.et, et1, next.value.dtNext))])
  {
    var step := StepOf(stepper, rates);
    var init := StepResult(s, et0, dt, 0);
    assert step(res[|res| - 1]) == next;
    if next.Err? {
      WalkingStepFails(step, EpochOf(), ClipTo(et1), init, et1, fuel, res, next.error);
    } else {
      WalkingStep(step, EpochOf(), ClipTo(et1), init, et1, fuel, res, next.value);
    }
  }

  /** The loop of doSteps starts with the invariant, and when it stops, the budget or the results decide. */
  lemma SteppingBounds(stepper: Stepper, rates: (real, PosState) -> PosState, s: PosState,
                       et0: real, et1: real, dt: real, fuel: nat, res: seq<StepResult>)
    ensures Stepping(stepper, rates, s, et0, et1, dt, fuel, [StepResult(s, et0, dt, 0)])
    ensures Stepping(stepper, rates, s, et0, et1, dt, fuel, res) && res[|res| - 1].et < et1 && |res| - 1 == fuel ==>
              Steps78(stepper, rates, s, et0, et1, dt, fuel) == Err(StepBudgetExhausted)
    ensures Stepping(stepper, rates, s, et0, et1, dt, fuel, res) && res[|res| - 1].et >= et1 ==>
              Steps78(stepper, rates, s, et0, et1, dt, fuel) == Ok(res)
  {
    var step := StepOf(stepper, rates);
    var init := StepResult(s, et0, dt, 0);
    WalkingInit(step, EpochOf(), ClipTo(et1), init, et1, fuel);
    if Stepping(stepper, rates, s, et0, et1, dt, fuel, res) {
      if res[|res| - 1].et < et1 && |res| - 1 == fuel {
        WalkingOutOfFuel(step, EpochOf(), ClipTo(et1), init, et1, fuel, res);
      } else if res[|res| - 1].et >= et1 {
        WalkingExit(step, EpochOf(), ClipTo(et1), init, et1, fuel, res);
      }
    }
  }

  /**
   * The tolerance of RKF78 and the controlled stepper built from it. In the
   * source both are static members; here they are fields of one solver
   * object, which every user of them holds.
   */
  class RKF78 {
    /** make_controlled: the controlled stepper for a tolerance. */
    const makeControlled: real -> Stepper
    var tol: real
    var stepper: Stepper

    /** The stepper is always the one built from the current tolerance. */
    ghost predicate Valid()
      reads this
    {
      stepper == makeControlled(tol)
    }

    constructor (factory: real -> Stepper)
      ensures makeControlled == factory
      ensures tol == DefaultTolerance
      ensures Valid()
    {
      makeControlled := factory;
      tol := DefaultTolerance;
      stepper := factory(DefaultTolerance);
    }

    /** setTolerance: a negative tolerance is an error and changes nothing; otherwise the tolerance is stored and the stepper rebuilt. */
    method SetTolerance(newTol: real) returns (o: Outcome)
      requires Valid()
      modifies this
      ensures Valid()
      ensures newTol < 0.0 <==> o.Fail?
      ensures o.Fail? ==> o.error == NegativeTolerance && tol == old(tol) && stepper == old(stepper)
      ensures o.Pass? ==> tol == newTol
    {
      if newTol < 0.0 {
        return Fail(NegativeTolerance);
      }
      tol := newTol;
      stepper := makeControlled(tol);
      o := Pass;
    }

    /**
     * doStep: try_step from a copy of the caller's state until it succeeds,
     * giving up once the failures exceed AllowableTries.
     */
    method DoStep(rates: (real, PosState) -> PosState, s: PosState, et: real, dt: real)
      returns (r: Result<StepResult>)
      ensures r == Step78(stepper, rates, s, et, dt)
    {
      var etD := et;
      var dtD := dt;
      var tries := 0;
      var si := s;
      var a := stepper(rates, si, etD, dtD);
      while !a.success
        invariant 0 <= tries <= AllowableTries
        invariant a == stepper(rates, si, etD, dtD)
        invariant Step78(stepper, rates, s, et, dt) == Retry(stepper, rates, si, etD, dtD, tries)
        decreases AllowableTries - tries
      {
        tries := tries + 1;
        if tries > AllowableTries {
          return Err(StepNotConverged);
        }
        si, etD, dtD := a.s, a.et, a.dt;
        a := stepper(rates, si, etD, dtD);
      }
      si, etD, dtD := a.s, a.et, a.dt;
      r := Ok(StepResult(si, etD, dtD, tries));
    }

    /**
     * doSteps: from (s, et0, dt), doStep on the last result while its epoch
     * is before et1, clipping the stored next step size after each step.
     * At most fuel steps are taken.
     */
    method DoSteps(rates: (real, PosState) -> PosState, s: PosState, et0: real, et1: real, dt: real, fuel: nat)
      returns (r: Result<seq<StepResult>>)
      ensures r == Steps78(stepper, rates, s, et0, et1, dt, fuel)
    {
      var st := stepper;
      var res := [StepResult(s, et0, dt, 0)];
      SteppingBounds(st, rates, s, et0, et1, dt, fuel, res);
      while res[|res| - 1].et < et1
        invariant Stepping(st, rates, s, et0, et1, dt, fuel, res)
        decreases fuel - (|res| - 1)
      {
        SteppingBounds(st, rates, s, et0, et1, dt, fuel, res);
        if |res| - 1 == fuel {
          return Err(StepBudgetExhausted);
        }
        var last := res[|res| - 1];
        var next := DoStep(rates, last.s, last.et, last.dtNext);
        SteppingAdvance(st, rates, s, et0, et1, dt, fuel, res, next);
        if next.Err? {
          return Err(next.error);
        }
        var stepped := next.value;
        if stepped.et + stepped.dtNext > et1 {
          stepped := stepped.(dtNext := et1 - stepped.et);
        }
        assert stepped == next.value.(dtNext := Clip(next.value.et, et1, next.value.dtNext));
        res := res + [stepped];
      }
      SteppingBounds(st, rates, s, et0, et1, dt, fuel, res);
      r := Ok(res);
    }
  }
}
