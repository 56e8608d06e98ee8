// The driver loop shared by RKF45::doSteps and RKF78::doSteps
// (astro/RKF45.cpp, astro/RKF78.cpp): start with the initial result, call
// doStep on the last result while its epoch is before et1, and after each
// step shorten the stored next step size so that it does not pass et1. The
// step size comes from the solver, so nothing bounds the number of steps;
// a fuel parameter does, and running out of it is an error.
module AdaptiveDriver {
  import opened Errors
  import opened StepDriver

  /**
   * The results from last onward. step is doStep applied to a result, epoch
   * reads a result's epoch and clip shortens its next step size.
   */
  function Walk<R>(step: R -> Result<R>, epoch: R -> real, clip: R -> R, last: R, et1: real, fuel: nat)
    : (r: Result<seq<R>>)
    ensures r.Ok? ==> |r.value| >= 1 && r.value[0] == last
    decreases fuel
  {
    if epoch(last) >= et1 then Ok([last])
    else if fuel == 0 then Err(StepBudgetExhausted)
    else
      match step(last)
      case Err(e) => Err(e)
      case Ok(next) => Prepend([last], Walk(step, epoch, clip, clip(next), et1, fuel - 1))
  }

  /** The loop invariant of doSteps: the results so far are a prefix of Walk from the initial result. */
  ghost predicate Walking<R>(step: R -> Result<R>, epoch: R -> real, clip: R -> R, init: R, et1: real,
                             fuel: nat, res: seq<R>)
  {
    && 1 <= |res| <= fuel + 1
    && res[0] == init
    && Walk(step, epoch, clip, init, et1, fuel)
       == Prepend(res[..|res| - 1], Walk(step, epoch, clip, res[|res| - 1], et1, fuel - (|res| - 1)))
  }

  lemma WalkingInit<R>(step: R -> Result<R>, epoch: R -> real, clip: R -> R, init: R, et1: real, fuel: nat)
    ensures Walking(step, epoch, clip, init, et1, fuel, [init])
  {
    var w := Walk(step, epoch, clip, init, et1, fuel);
    assert [init][..0] == [];
    if w.Ok? {
      assert [] + w.value == w.value;
    }
  }

  /** A successful step, clipped and appended, keeps the invariant. */
  lemma WalkingStep<R>(step: R -> Result<R>, epoch: R -> real, clip: R -> R, init: R, et1: real,
                       fuel: nat, res: seq<R>, next: R)
    requires Walking(step, epoch, clip, init, et1, fuel, res)
    requires epoch(res[|res| - 1]) < et1 && |res| - 1 < fuel
    requires step(res[|res| - 1]) == Ok(next)
    ensures Walking(step, epoch, clip, init, et1, fuel, res + [clip(next)])
  {
    var k := |res| - 1;
    var rest := Walk(step, epoch, clip, clip(next), et1, fuel - k - 1);
    assert Walk(step, epoch, clip, res[k], et1, fuel - k) == Prepend([res[k]], rest);
    PrependTwice(res[..k], res[k], rest);
    assert res[..k] + [res[k]] == (res + [clip(next)])[..k + 1];
  }

  /** A failing step fails the whole walk with its error. */
  lemma WalkingStepFails<R>(step: R -> Result<R>, epoch: R -> real, clip: R -> R, init: R, et1: real,
                            fuel: nat, res: seq<R>, e: AstroError)
    requires Walking(step, epoch, clip, init, et1, fuel, res)
    requires epoch(res[|res| - 1]) < et1 && |res| - 1 < fuel
    requires step(res[|res| - 1]) == Err(e)
    ensures Walk(step, epoch, clip, init, et1, fuel) == Err(e)
  {
  }

  /** With the fuel used up before et1 is reached, the walk fails. */
  lemma WalkingOutOfFuel<R>(step: R -> Result<R>, epoch: R -> real, clip: R -> R, init: R, et1: real,
                            fuel: nat, res: seq<R>)
    requires Walking(step, epoch, clip, init, et1, fuel, res)
    requires epoch(res[|res| - 1]) < et1 && |res| - 1 == fuel
    ensures Walk(step, epoch, clip, init, et1, fuel) == Err(StepBudgetExhausted)
  {
  }

  /** Once the last epoch reaches et1, the results so far are the whole walk. */
  lemma WalkingExit<R>(step: R -> Result<R>, epoch: R -> real, clip: R -> R, init: R, et1: real,
                       fuel: nat, res: seq<R>)
    requires Walking(step, epoch, clip, init, et1, fuel, res)
    requires epoch(res[|res| - 1]) >= et1
    ensures Walk(step, epoch, clip, init, et1, fuel) == Ok(res)
  {
    assert res[..|res| - 1] + [res[|res| - 1]] == res;
  }

  /**
   * Each result but the last is before et1 and the next one is its step,
   * clipped; the last result is at or after et1.
   */
  lemma {:induction false} WalkSteps<R>(step: R -> Result<R>, epoch: R -> real, clip: R -> R, last: R, et1: real,
                                        fuel: nat, t: seq<R>)
    requires Walk(step, epoch, clip, last, et1, fuel) == Ok(t)
    ensures epoch(t[|t| - 1]) >= et1
    ensures forall i :: 0 <= i < |t| - 1 ==>
              epoch(t[i]) < et1 && step(t[i]).Ok? && t[i + 1] == clip(step(t[i]).value)
    decreases fuel
  {
    if epoch(last) < et1 {
      var next := step(last).value;
      var rest := Walk(step, epoch, clip, clip(next), et1, fuel - 1);
      assert rest.Ok? && t == [last] + rest.value;
      WalkSteps(step, epoch, clip, clip(next), et1, fuel - 1, rest.value);
      forall i | 1 <= i < |t| - 1
        ensures epoch(t[i]) < et1 && step(t[i]).Ok? && t[i + 1] == clip(step(t[i]).value)
      {
        assert t[i] == rest.value[i - 1] && t[i + 1] == rest.value[i];
      }
    }
  }
}
