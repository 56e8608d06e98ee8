// Reference frames (astro/ReferenceFrame.cpp). The frame lookup and the
// body orientation come from the SPICE kernels; they are parameters here.
module Frames {
  import opened Errors

  datatype FrameType = Inertial | BodyFixedNonRotating | BodyFixedRotating

  /** A reference frame: its type, SPICE frame id and name, and the id of its centre body. */
  datatype ReferenceFrame = ReferenceFrame(frameType: FrameType, spiceId: int, spiceName: string, centerId: int)
  {
    /** Frame equality (operator==): centre, type and frame id; the name is not compared. */
    predicate Same(other: ReferenceFrame): (r: bool)
      ensures r <==> this.(spiceName := other.spiceName) == other
    {
      centerId == other.centerId && frameType == other.frameType && spiceId == other.spiceId
    }
  }

  /** Answer of the SPICE frame lookup for a body (cidfrm_c). */
  datatype FrameLookup = FrameLookup(found: bool, frameId: int, frameName: string)

  /** The inertial J2000 frame, centred at the solar system barycentre (id 0). */
  function CreateJ2000(): (f: ReferenceFrame)
    ensures f.frameType == Inertial && f.spiceName == "J2000"
    ensures f.spiceId == 1 && f.centerId == 0
  {
    ReferenceFrame(Inertial, 1, "J2000", 0)
  }

  /** isJ2000(): the frame equals the J2000 frame, whatever its name. */
  predicate IsJ2000(f: ReferenceFrame): (r: bool)
    ensures r <==> f.(spiceName := "J2000") == CreateJ2000()
  {
    f.Same(CreateJ2000())
  }

  /**
   * The body-fixed frame of a body. Body 0 gives J2000; bodies 1..9 (and
   * negative ids) are the non-rotating barycentre frames; the rest rotate.
   * Name and frame id come from the lookup, which may fail.
   */
  function CreateBodyFixedSpice(bodyId: int, lookup: int -> FrameLookup): (r: Result<ReferenceFrame>)
    ensures bodyId == 0 ==> r == Ok(CreateJ2000())
    ensures bodyId != 0 ==> (r.Err? <==> !lookup(bodyId).found)
    ensures bodyId != 0 && r.Ok? ==>
      && r.value.centerId == bodyId
      && (r.value.frameType == BodyFixedNonRotating <==> bodyId < 10)
      && (r.value.frameType == BodyFixedRotating <==> bodyId >= 10)
      && r.value.spiceId == lookup(bodyId).frameId
      && r.value.spiceName == lookup(bodyId).frameName
  {
    if bodyId == 0 then
      Ok(CreateJ2000())
    else
      var t := if bodyId < 10 then BodyFixedNonRotating else BodyFixedRotating;
      var found := lookup(bodyId);
      if !found.found then
        Err(FrameNotFound)
      else
        Ok(ReferenceFrame(t, found.frameId, found.frameName, bodyId))
  }

  /** Frame equality is an equivalence relation. */
  lemma SameIsEquivalence(a: ReferenceFrame, b: ReferenceFrame, c: ReferenceFrame)
    ensures a.Same(a)
    ensures a.Same(b) ==> b.Same(a)
    ensures a.Same(b) && b.Same(c) ==> a.Same(c)
  {
  }

  /** Frames that differ only in their names are equal. */
  lemma SameIgnoresName(a: ReferenceFrame, name: string)
    ensures a.Same(a.(spiceName := name))
  {
  }

  /** Every frame the factories produce is J2000 exactly when it is inertial. */
  lemma FactoryFramesInertialIffJ2000(bodyId: int, lookup: int -> FrameLookup)
    requires CreateBodyFixedSpice(bodyId, lookup).Ok?
    ensures var f := CreateBodyFixedSpice(bodyId, lookup).value;
      IsJ2000(f) <==> f.frameType == Inertial
  {
  }

  type Matrix3 = m: seq<seq<real>> | |m| == 3 && forall i :: 0 <= i < 3 ==> |m[i]| == 3
    witness [[0.0, 0.0, 0.0], [0.0, 0.0, 0.0], [0.0, 0.0, 0.0]]

  const Identity3: Matrix3 := [[1.0, 0.0, 0.0], [0.0, 1.0, 0.0], [0.0, 0.0, 1.0]]

  /** SPICE body orientation (tipbod_c) and the 3x3 inverse of the matrix library. */
  datatype Orientation = Orientation(tipbod: (int, real) -> Matrix3, inverse: Matrix3 -> Matrix3)

  /**
   * Rotation from the frame to the inertial frame at epoch et: the identity
   * for inertial and non-rotating frames, otherwise the inverse of the body's
   * inertial-to-body-fixed rotation.
   */
  function GetRotation(f: ReferenceFrame, et: real, o: Orientation): (m: Matrix3)
    ensures f.frameType != BodyFixedRotating ==> m == Identity3
    ensures f.frameType == BodyFixedRotating ==> m == o.inverse(o.tipbod(f.centerId, et))
  {
    if f.frameType.Inertial? || f.frameType.BodyFixedNonRotating? then
      Identity3
    else
      o.inverse(o.tipbod(f.centerId, et))
  }

  /** The identity branch of GetRotation does not consult the orientation data at all. */
  lemma NonRotatingNeedsNoLookup(f: ReferenceFrame, et: real, o1: Orientation, o2: Orientation)
    requires f.frameType != BodyFixedRotating
    ensures GetRotation(f, et, o1) == GetRotation(f, et, o2)
  {
  }
}
