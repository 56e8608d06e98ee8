// The fixed-step driver loop shared by RK<N>::doSteps and PCDM::doSteps
// (astro/RK1_4.h, astro/PCDM.cpp): start with the initial sample, step while
// the last epoch is before et1, and after each step shorten the step size so
// that the next step does not pass et1.
module StepDriver {
  import opened Errors

  /** One entry of the result vector: a state and its epoch (seconds past J2000). */
  datatype Sample<S> = Sample(s: S, et: real)

  /** The step size kept after a step that ended at et: shortened to et1 - et if et + dti would pass et1. */
  function Clip(et: real, et1: real, dti: real): (d: real)
    ensures et + d <= et1
    ensures et + dti <= et1 ==> d == dti
    ensures et + dti > et1 ==> et + d == et1
  {
    if et + dti > et1 then et1 - et else dti
  }

  /** Put p in front of a successful result; an error passes through. */
  function Prepend<T>(p: seq<T>, r: Result<seq<T>>): Result<seq<T>>
  {
    match r
    case Ok(t) => Ok(p + t)
    case Err(e) => Err(e)
  }

  /**
   * The samples from last onward: step with dti while the epoch is before
   * et1, clipping the step size after each step. fuel bounds the number of
   * steps; running out of it is an error.
   */
  function Trace<S>(step: (S, real, real) -> S, last: Sample<S>, et1: real, dti: real, fuel: nat)
    : (r: Result<seq<Sample<S>>>)
    ensures r.Ok? ==> |r.value| >= 1 && r.value[0] == last
    decreases fuel
  {
    if last.et >= et1 then Ok([last])
    else if fuel == 0 then Err(StepBudgetExhausted)
    else
      var next := Sample(step(last.s, last.et, dti), last.et + dti);
      Prepend([last], Trace(step, next, et1, Clip(next.et, et1, dti), fuel - 1))
  }

  /** doSteps: the initial sample (s0, et0) followed by the steps up to et1. */
  function Drive<S>(step: (S, real, real) -> S, s0: S, et0: real, et1: real, dt: real, fuel: nat)
    : Result<seq<Sample<S>>>
  {
    Trace(step, Sample(s0, et0), et1, dt, fuel)
  }

  lemma PositiveQuotient(x: real, w: real)
    requires x > 0.0 && w > 0.0
    ensures x / w > 0.0
  {
  }

  /** The number of steps a fixed step size dt needs from et0 to et1: floor((et1 - et0) / dt) + 1. */
  function StepBound(et0: real, et1: real, dt: real): nat
    requires dt > 0.0
  {
    if et1 <= et0 then 0
    else
      PositiveQuotient(et1 - et0, dt);
      ((et1 - et0) / dt).Floor + 1
  }

  lemma DivideThenMultiply(x: real, w: real)
    requires w != 0.0
    ensures (x / w) * w == x
  {
  }

  /** k * dt < x with a positive dt means k < x / dt. */
  lemma BelowQuotient(k: real, x: real, dt: real)
    requires dt > 0.0
    requires k * dt < x
    ensures k < x / dt
  {
    DivideThenMultiply(x, dt);
  }

  /** While et0 + k dt is still before et1, fewer than StepBound steps have been taken. */
  lemma StepCountBelowBound(et0: real, et1: real, dt: real, k: nat)
    requires dt > 0.0
    requires et0 + k as real * dt < et1
    ensures k < StepBound(et0, et1, dt)
  {
    BelowQuotient(k as real, et1 - et0, dt);
  }

  lemma AddOneStep(et0: real, k: nat, dt: real)
    ensures et0 + k as real * dt + dt == et0 + (k + 1) as real * dt
  {
    assert (k + 1) as real * dt == k as real * dt + 1.0 * dt;
  }

  lemma PrependTwice<T>(p: seq<T>, x: T, r: Result<seq<T>>)
    ensures Prepend(p, Prepend([x], r)) == Prepend(p + [x], r)
  {
    if r.Ok? {
      assert p + ([x] + r.value) == (p + [x]) + r.value;
    }
  }

  /**
   * The loop invariant of a fixed-step doSteps after k steps with samples res
   * and step size dti: the samples so far are a prefix of Drive with
   * StepBound fuel, and until the step size has been clipped the epoch is
   * et0 + k dt.
   */
  ghost predicate Loop<S>(step: (S, real, real) -> S, s0: S, et0: real, et1: real, dt: real,
                          res: seq<Sample<S>>, dti: real, k: nat, clipped: bool)
    requires dt > 0.0
  {
    var n := StepBound(et0, et1, dt);
    && |res| == k + 1 && res[0] == Sample(s0, et0)
    && k <= n
    && (!clipped ==> dti == dt)
    && (clipped ==> res[k].et + dti == et1)
    && (res[k].et < et1 ==> res[k].et == et0 + k as real * dt && k < n)
    && Drive(step, s0, et0, et1, dt, n) == Prepend(res[..k], Trace(step, res[k], et1, dti, n - k))
  }

  lemma LoopInit<S>(step: (S, real, real) -> S, s0: S, et0: real, et1: real, dt: real)
    requires dt > 0.0
    ensures Loop(step, s0, et0, et1, dt, [Sample(s0, et0)], dt, 0, false)
  {
    var res := [Sample(s0, et0)];
    assert res[..0] == [];
    var n := StepBound(et0, et1, dt);
    var t := Trace(step, Sample(s0, et0), et1, dt, n);
    if t.Ok? {
      assert [] + t.value == t.value;
    }
  }

  /** The epoch and step-size part of the loop invariant survives one more step and clip. */
  lemma LoopStepEpoch(et0: real, et1: real, dt: real, k: nat, et: real, dti: real, clipped: bool)
    requires dt > 0.0
    requires !clipped ==> dti == dt
    requires clipped ==> et + dti == et1
    requires et < et1 && et == et0 + k as real * dt
    ensures var next := et + dti;
            var clipped' := clipped || next + dti > et1;
            && (!clipped' ==> Clip(next, et1, dti) == dt)
            && (clipped' ==> next + Clip(next, et1, dti) == et1)
            && (next < et1 ==> next == et0 + (k + 1) as real * dt && k + 1 < StepBound(et0, et1, dt))
  {
    var next := et + dti;
    if next < et1 {
      assert !clipped;
      AddOneStep(et0, k, dt);
      StepCountBelowBound(et0, et1, dt, k + 1);
    }
  }

  /** The trace part of the loop invariant survives one more step and clip. */
  lemma LoopStepTrace<S>(step: (S, real, real) -> S, whole: Result<seq<Sample<S>>>, res: seq<Sample<S>>,
                         et1: real, dti: real, k: nat, fuel: nat)
    requires |res| == k + 1 && fuel > 0 && res[k].et < et1
    requires whole == Prepend(res[..k], Trace(step, res[k], et1, dti, fuel))
    ensures var next := Sample(step(res[k].s, res[k].et, dti), res[k].et + dti);
            whole == Prepend((res + [next])[..k + 1], Trace(step, next, et1, Clip(next.et, et1, dti), fuel - 1))
  {
    var next := Sample(step(res[k].s, res[k].et, dti), res[k].et + dti);
    var rest := Trace(step, next, et1, Clip(next.et, et1, dti), fuel - 1);
    assert Trace(step, res[k], et1, dti, fuel) == Prepend([res[k]], rest);
    PrependTwice(res[..k], res[k], rest);
    assert res[..k] + [res[k]] == (res + [next])[..k + 1];
  }

  /** One more step and clip keeps the loop invariant. */
  lemma LoopStep<S>(step: (S, real, real) -> S, s0: S, et0: real, et1: real, dt: real,
                    res: seq<Sample<S>>, dti: real, k: nat, clipped: bool)
    requires dt > 0.0
    requires Loop(step, s0, et0, et1, dt, res, dti, k, clipped)
    requires res[k].et < et1
    ensures var next := Sample(step(res[k].s, res[k].et, dti), res[k].et + dti);
            Loop(step, s0, et0, et1, dt, res + [next], Clip(next.et, et1, dti), k + 1,
                 clipped || next.et + dti > et1)
  {
    var n := StepBound(et0, et1, dt);
    LoopStepEpoch(et0, et1, dt, k, res[k].et, dti, clipped);
    LoopStepTrace(step, Drive(step, s0, et0, et1, dt, n), res, et1, dti, k, n - k);
  }

  /** When the loop stops, the collected samples are the whole of Drive. */
  lemma LoopExit<S>(step: (S, real, real) -> S, s0: S, et0: real, et1: real, dt: real,
                    res: seq<Sample<S>>, dti: real, k: nat, clipped: bool)
    requires dt > 0.0
    requires Loop(step, s0, et0, et1, dt, res, dti, k, clipped)
    requires res[k].et >= et1
    ensures Drive(step, s0, et0, et1, dt, StepBound(et0, et1, dt)) == Ok(res)
  {
    assert res[..k] + [res[k]] == res;
  }

  /** Consecutive samples of a trace are one step apart; every sample but the last is before et1, the last is not. */
  lemma {:induction false} TraceSteps<S>(step: (S, real, real) -> S, last: Sample<S>, et1: real, dti: real, fuel: nat,
                                          t: seq<Sample<S>>)
    requires Trace(step, last, et1, dti, fuel) == Ok(t)
    ensures t[|t| - 1].et >= et1
    ensures forall i :: 0 <= i < |t| - 1 ==>
              t[i].et < et1 && t[i + 1] == Sample(step(t[i].s, t[i].et, t[i + 1].et - t[i].et), t[i + 1].et)
    decreases fuel
  {
    if last.et < et1 {
      var next := Sample(step(last.s, last.et, dti), last.et + dti);
      var rest := Trace(step, next, et1, Clip(next.et, et1, dti), fuel - 1);
      assert rest.Ok? && t == [last] + rest.value;
      TraceSteps(step, next, et1, Clip(next.et, et1, dti), fuel - 1, rest.value);
      assert t[1] == next;
    }
  }

  /** Once the step size keeps the next epoch at or before et1, no later sample passes et1. */
  lemma {:induction false} TraceWithinEnd<S>(step: (S, real, real) -> S, last: Sample<S>, et1: real, dti: real,
                                              fuel: nat, t: seq<Sample<S>>)
    requires Trace(step, last, et1, dti, fuel) == Ok(t)
    requires last.et + dti <= et1
    ensures forall i :: 1 <= i < |t| ==> t[i].et <= et1
    decreases fuel
  {
    if last.et < et1 {
      var next := Sample(step(last.s, last.et, dti), last.et + dti);
      var rest := Trace(step, next, et1, Clip(next.et, et1, dti), fuel - 1);
      assert rest.Ok? && t == [last] + rest.value;
      TraceWithinEnd(step, next, et1, Clip(next.et, et1, dti), fuel - 1, rest.value);
    }
  }

  /** The result starts with the initial state at et0. */
  lemma DriveStartsAtInitial<S>(step: (S, real, real) -> S, s0: S, et0: real, et1: real, dt: real, fuel: nat,
                                t: seq<Sample<S>>)
    requires Drive(step, s0, et0, et1, dt, fuel) == Ok(t)
    ensures |t| >= 1 && t[0] == Sample(s0, et0)
  {
  }

  /**
   * The first step uses dt unclipped, so it ends at et0 + dt even when that
   * passes et1; every later sample is at or before et1.
   */
  lemma DriveClipsAfterFirstStep<S>(step: (S, real, real) -> S, s0: S, et0: real, et1: real, dt: real,
                                    fuel: nat, t: seq<Sample<S>>)
    requires Drive(step, s0, et0, et1, dt, fuel) == Ok(t)
    requires et0 < et1
    ensures |t| >= 2 && t[1] == Sample(step(s0, et0, dt), et0 + dt)
    ensures forall i :: 2 <= i < |t| ==> t[i].et <= et1
  {
    var next := Sample(step(s0, et0, dt), et0 + dt);
    var rest := Trace(step, next, et1, Clip(next.et, et1, dt), fuel - 1);
    assert rest.Ok? && t == [Sample(s0, et0)] + rest.value;
    TraceWithinEnd(step, next, et1, Clip(next.et, et1, dt), fuel - 1, rest.value);
    forall i | 2 <= i < |t|
      ensures t[i].et <= et1
    {
      assert t[i] == rest.value[i - 1];
    }
  }

  /** With 0 < dt <= et1 - et0 the last sample is exactly at et1. */
  lemma DriveEndsAtEt1<S>(step: (S, real, real) -> S, s0: S, et0: real, et1: real, dt: real, fuel: nat,
                          t: seq<Sample<S>>)
    requires Drive(step, s0, et0, et1, dt, fuel) == Ok(t)
    requires 0.0 < dt <= et1 - et0
    ensures |t| >= 2 && t[|t| - 1].et == et1
  {
    TraceSteps(step, Sample(s0, et0), et1, dt, fuel, t);
    TraceWithinEnd(step, Sample(s0, et0), et1, dt, fuel, t);
  }

  /** inv holds of every state a step produces from a state where it holds. */
  ghost predicate Preserves<S(!new)>(step: (S, real, real) -> S, inv: S -> bool)
  {
    forall s: S, et: real, h: real :: inv(s) ==> inv(step(s, et, h))
  }

  lemma {:induction false} TracePreserves<S(!new)>(step: (S, real, real) -> S, inv: S -> bool, last: Sample<S>, et1: real,
                                              dti: real, fuel: nat, t: seq<Sample<S>>)
    requires Preserves(step, inv) && inv(last.s)
    requires Trace(step, last, et1, dti, fuel) == Ok(t)
    ensures forall i :: 0 <= i < |t| ==> inv(t[i].s)
    decreases fuel
  {
    if last.et < et1 {
      var next := Sample(step(last.s, last.et, dti), last.et + dti);
      var rest := Trace(step, next, et1, Clip(next.et, et1, dti), fuel - 1);
      assert rest.Ok? && t == [last] + rest.value;
      TracePreserves(step, inv, next, et1, Clip(next.et, et1, dti), fuel - 1, rest.value);
    }
  }

  /** An invariant of the step holds of every sample of the result. */
  lemma DrivePreserves<S(!new)>(step: (S, real, real) -> S, inv: S -> bool, s0: S, et0: real, et1: real, dt: real,
                          fuel: nat, t: seq<Sample<S>>)
    requires Preserves(step, inv) && inv(s0)
    requires Drive(step, s0, et0, et1, dt, fuel) == Ok(t)
    ensures forall i :: 0 <= i < |t| ==> inv(t[i].s)
  {
    TracePreserves(step, inv, Sample(s0, et0), et1, dt, fuel, t);
  }
}
