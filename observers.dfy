// An observer (astro/Observer.cpp): a state relative to a centre body, given
// in a reference frame. The ephemeris engine's relative-state query and the
// body rotations used by the frame transformation are oracles.
module Observers {
  import opened Errors
  import opened Vectors
  import opened States
  import opened Frames

  /**
   * The relative-state query of the ephemeris engine, called with the new
   * centre, the old centre, the epoch and the frame, in the argument order of
   * setCenterObject.
   */
  type RelativeState = (int, int, real, ReferenceFrame) -> PosState

  /** The state after a change of centre with recalculation: the relative state added to it. */
  function Recentred(s: PosState, newCenter: int, oldCenter: int, et: real, f: ReferenceFrame,
                     rel: RelativeState): PosState
  {
    s.Plus(rel(newCenter, oldCenter, et, f))
  }

  /** Relative states that cancel in the two directions. */
  ghost predicate Antisymmetric(rel: RelativeState)
  {
    forall a: int, b: int, et: real, f: ReferenceFrame :: rel(a, b, et, f).Plus(rel(b, a, et, f)) == ZeroState()
  }

  /** Moving the centre to another body and back, recalculating both times, restores the state. */
  lemma RecentreRoundTrip(s: PosState, a: int, b: int, et: real, f: ReferenceFrame, rel: RelativeState)
    requires Antisymmetric(rel)
    ensures Recentred(Recentred(s, b, a, et, f, rel), a, b, et, f, rel) == s
  {
    var x := rel(b, a, et, f);
    var y := rel(a, b, et, f);
    assert x.Plus(y) == ZeroState();
    assert s.Plus(x).Plus(y).r == s.r.Add(x.r.Add(y.r));
    assert s.Plus(x).Plus(y).v == s.v.Add(x.v.Add(y.v));
  }

  class Observer {
    var centerObj: int
    var refFrame: ReferenceFrame
    var posState: PosState

    constructor (centerObj: int, refFrame: ReferenceFrame, posState: PosState)
      ensures this.centerObj == centerObj && this.refFrame == refFrame && this.posState == posState
    {
      this.centerObj := centerObj;
      this.refFrame := refFrame;
      this.posState := posState;
    }

    /** getState(): the state relative to the centre, in the frame. */
    function GetState(): (x: PosState)
      reads this
      ensures x == posState
    {
      posState
    }

    /** getReferenceFrame(): the frame the state is given in. */
    function GetReferenceFrame(): (x: ReferenceFrame)
      reads this
      ensures x == refFrame
    {
      refFrame
    }

    /** getCenterObject(): the centre body of the state. */
    function GetCenterObject(): (x: int)
      reads this
      ensures x == centerObj
    {
      centerObj
    }

    /** setState replaces the state and nothing else. */
    method SetState(state: PosState)
      modifies this
      ensures posState == state
      ensures centerObj == old(centerObj) && refFrame == old(refFrame)
    {
      posState := state;
    }

    /**
     * setCenterObject: with recalcState the relative state of the new centre
     * and the old one is added to the state first; the centre always changes.
     */
    method SetCenterObject(newCenter: int, recalcState: bool, et: real, rel: RelativeState)
      modifies this
      ensures centerObj == newCenter && refFrame == old(refFrame)
      ensures recalcState ==> posState == Recentred(old(posState), newCenter, old(centerObj), et, refFrame, rel)
      ensures !recalcState ==> posState == old(posState)
    {
      if recalcState {
        var cState := rel(newCenter, centerObj, et, refFrame);
        posState := posState.Plus(cState);
      }
      centerObj := newCenter;
    }

    /**
     * setReferenceFrame: with recalcState the state is transformed from the
     * old frame to the new one first. A failing transformation is reported
     * and leaves the observer as it was; otherwise the frame changes.
     */
    method SetReferenceFrame(newRF: ReferenceFrame, recalcState: bool, et: real, sr: StateRotation)
      returns (o: Outcome)
      modifies this
      ensures o.Fail? <==> recalcState && TransformSpec(old(posState), old(refFrame), newRF, et, sr).Err?
      ensures o.Fail? ==> o.error == BothFramesRotating
      ensures o.Fail? ==> posState == old(posState) && refFrame == old(refFrame)
      ensures o.Pass? ==> refFrame == newRF
      ensures o.Pass? && recalcState ==> posState == TransformSpec(old(posState), old(refFrame), newRF, et, sr).value
      ensures !recalcState ==> posState == old(posState)
      ensures centerObj == old(centerObj)
    {
      if recalcState {
        var newState := Transform(posState, refFrame, newRF, et, sr);
        if newState.Err? {
          return Fail(newState.error);
        }
        posState := newState.value;
      }
      refFrame := newRF;
      o := Pass;
    }
  }
}
