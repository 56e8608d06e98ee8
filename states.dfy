// Translational and rotational states (astro/State.h, astro/State.cpp).
module States {
  import opened Errors
  import opened Vectors
  import opened Frames

  /** Position [km] and velocity [km/s] of an object in some frame. */
  datatype PosState = PosState(r: Vec3, v: Vec3)
  {
    /** s += o: subtracting o again gives s back. */
    function Plus(o: PosState): (s: PosState)
      ensures s.Minus(o) == this
    {
      PosState(r.Add(o.r), v.Add(o.v))
    }

    /** s -= o: adding o back, position and velocity, gives s. */
    function Minus(o: PosState): (s: PosState)
      ensures s.r.Add(o.r) == r && s.v.Add(o.v) == v
    {
      PosState(r.Sub(o.r), v.Sub(o.v))
    }

    /** s *= a: the factor 1 keeps the state and the factor 0 gives the zero state. */
    function Times(a: real): (s: PosState)
      ensures a == 1.0 ==> s == this
      ensures a == 0.0 ==> s.r == Zero3 && s.v == Zero3
    {
      PosState(r.Scale(a), v.Scale(a))
    }
  }

  /** The default PosState. */
  function ZeroState(): (s: PosState)
    ensures s.r == Zero3 && s.v == Zero3
  {
    PosState(Zero3, Zero3)
  }

  /** PosState(val): the same value in all six components. */
  function UniformState(val: real): (s: PosState)
    ensures s.r.x == val && s.r.y == val && s.r.z == val
    ensures s.v.x == val && s.v.y == val && s.v.z == val
  {
    PosState(Vec3(val, val, val), Vec3(val, val, val))
  }

  /** Adding and then subtracting the same state gives back the original. */
  lemma PlusMinusRestores(s: PosState, o: PosState)
    ensures s.Plus(o).Minus(o) == s
  {
  }

  /** Scaling distributes over addition, component by component. */
  lemma TimesDistributes(s: PosState, o: PosState, a: real)
    ensures s.Plus(o).Times(a) == s.Times(a).Plus(o.Times(a))
  {
    ScaleDistributes(s.r, o.r, a);
    ScaleDistributes(s.v, o.v, a);
  }

  /** Scaling is linear in the factor: a sum of factors adds the scaled states, and two scalings compose to one by the product. */
  lemma TimesFactorLaws(s: PosState, a: real, b: real)
    ensures s.Times(a + b) == s.Times(a).Plus(s.Times(b))
    ensures s.Times(a).Times(b) == s.Times(a * b)
  {
    FactorsAdd(s.r, a, b);
    FactorsAdd(s.v, a, b);
    FactorsCompose(s.r, a, b);
    FactorsCompose(s.v, a, b);
  }

  lemma FactorsAdd(u: Vec3, a: real, b: real)
    ensures u.Scale(a + b) == u.Scale(a).Add(u.Scale(b))
  {
    assert u.x * (a + b) == u.x * a + u.x * b;
    assert u.y * (a + b) == u.y * a + u.y * b;
    assert u.z * (a + b) == u.z * a + u.z * b;
  }

  lemma FactorsCompose(u: Vec3, a: real, b: real)
    ensures u.Scale(a).Scale(b) == u.Scale(a * b)
  {
    assert u.x * a * b == u.x * (a * b);
    assert u.y * a * b == u.y * (a * b);
    assert u.z * a * b == u.z * (a * b);
  }

  lemma ScaleDistributes(u: Vec3, w: Vec3, a: real)
    ensures u.Add(w).Scale(a) == u.Scale(a).Add(w.Scale(a))
  {
    assert (u.x + w.x) * a == u.x * a + w.x * a;
    assert (u.y + w.y) * a == u.y * a + w.y * a;
    assert (u.z + w.z) * a == u.z * a + w.z * a;
  }

  function AbsReal(x: real): real { if x < 0.0 then -x else x }

  /** std::max */
  function MaxReal(a: real, b: real): real { if a < b then b else a }

  /** Infinity norm of a state (vector_space_norm_inf): the largest absolute component. */
  function NormInf(p: PosState): (n: real)
    ensures n >= 0.0
    ensures n >= AbsReal(p.r.x) && n >= AbsReal(p.r.y) && n >= AbsReal(p.r.z)
    ensures n >= AbsReal(p.v.x) && n >= AbsReal(p.v.y) && n >= AbsReal(p.v.z)
    ensures n == AbsReal(p.r.x) || n == AbsReal(p.r.y) || n == AbsReal(p.r.z)
         || n == AbsReal(p.v.x) || n == AbsReal(p.v.y) || n == AbsReal(p.v.z)
  {
    MaxReal(MaxReal(MaxReal(AbsReal(p.r.x), AbsReal(p.r.y)), AbsReal(p.r.z)),
            MaxReal(MaxReal(AbsReal(p.v.x), AbsReal(p.v.y)), AbsReal(p.v.z)))
  }

  /** abs(p): componentwise absolute value. */
  function Abs(p: PosState): (a: PosState)
    ensures a.r.x >= 0.0 && a.r.y >= 0.0 && a.r.z >= 0.0
    ensures a.v.x >= 0.0 && a.v.y >= 0.0 && a.v.z >= 0.0
    ensures a.r.x == p.r.x || a.r.x == -p.r.x
    ensures a.r.y == p.r.y || a.r.y == -p.r.y
    ensures a.r.z == p.r.z || a.r.z == -p.r.z
    ensures a.v.x == p.v.x || a.v.x == -p.v.x
    ensures a.v.y == p.v.y || a.v.y == -p.v.y
    ensures a.v.z == p.v.z || a.v.z == -p.v.z
  {
    PosState(Vec3(AbsReal(p.r.x), AbsReal(p.r.y), AbsReal(p.r.z)),
             Vec3(AbsReal(p.v.x), AbsReal(p.v.y), AbsReal(p.v.z)))
  }

  /** The absolute value does not change the infinity norm. */
  lemma NormInfOfAbs(p: PosState)
    ensures NormInf(Abs(p)) == NormInf(p)
  {
  }

  predicate NoZeroComponent(v: Vec3)
  {
    v.x != 0.0 && v.y != 0.0 && v.z != 0.0
  }

  /** operator/ as written: the position ratio is stored in both halves. */
  function DivideAsWritten(p1: PosState, p2: PosState): (q: PosState)
    requires NoZeroComponent(p2.r)
    ensures q.r.MulElem(p2.r) == p1.r
    ensures q.v == q.r
  {
    PosState(p1.r.DivElem(p2.r), p1.r.DivElem(p2.r))
  }

  /** operator/ as evidently intended: positions over positions, velocities over velocities. */
  function Divide(p1: PosState, p2: PosState): (q: PosState)
    requires NoZeroComponent(p2.r) && NoZeroComponent(p2.v)
    ensures q.r.MulElem(p2.r) == p1.r
    ensures q.v.MulElem(p2.v) == p1.v
  {
    PosState(p1.r.DivElem(p2.r), p1.v.DivElem(p2.v))
  }

  /** For p1 = ((1,1,1),(2,2,2)) and p2 all ones the velocity ratio is 2, but operator/ gives 1. */
  lemma DivideAsWrittenLosesVelocityRatio()
    ensures var p1 := PosState(Vec3(1.0, 1.0, 1.0), Vec3(2.0, 2.0, 2.0));
            var p2 := UniformState(1.0);
            DivideAsWritten(p1, p2).v == Vec3(1.0, 1.0, 1.0)
            && Divide(p1, p2).v == Vec3(2.0, 2.0, 2.0)
  {
  }

  /** Orientation quaternion and angular velocity [rad/s] of an object. */
  datatype RotState = RotState(q: Quat, w: Vec3)

  /** The default RotState: no rotation, at rest. */
  function DefaultRotState(): (rs: RotState)
    ensures rs.q == QuatOne && rs.q.Norm2() == 1.0
    ensures rs.w == Zero3
  {
    RotState(QuatOne, Zero3)
  }

  // ---------------------------------------------------------------------
  // Frame transformation of a state

  type Matrix6 = m: seq<seq<real>> | |m| == 6 && forall i :: 0 <= i < 6 ==> |m[i]| == 6
    witness seq(6, i => seq(6, j => 0.0))

  /** SPICE state transformation (tisbod_c) and its inversion (invstm_c). */
  datatype StateRotation = StateRotation(tisbod: (int, real) -> Matrix6, invstm: Matrix6 -> Matrix6)

  /** Sum of row[j] * x[j] for j < n, accumulated left to right. */
  function RowDot(row: seq<real>, x: seq<real>, n: nat): real
    requires n <= |row| && n <= |x|
  {
    if n == 0 then 0.0 else RowDot(row, x, n - 1) + row[n - 1] * x[n - 1]
  }

  /** The 6x6 matrix applied to a 6-vector (mxvg_c). */
  function MatVec(m: Matrix6, x: seq<real>): (y: seq<real>)
    requires |x| == 6
    ensures |y| == 6
    ensures forall i :: 0 <= i < 6 ==> y[i] == RowDot(m[i], x, 6)
  {
    seq(6, i requires 0 <= i < 6 => RowDot(m[i], x, 6))
  }

  /**
   * invstm_c inverts every state transformation tisbod_c returns, on both
   * sides. Only those matrices are handed to it, and they are invertible.
   */
  ghost predicate InvertsStates(sr: StateRotation)
  {
    forall body: int, et: real :: AreInverses(sr.invstm(sr.tisbod(body, et)), sr.tisbod(body, et))
  }

  ghost predicate AreInverses(a: Matrix6, b: Matrix6)
  {
    forall x: seq<real> :: |x| == 6 ==> MatVec(a, MatVec(b, x)) == x && MatVec(b, MatVec(a, x)) == x
  }

  function Pack(s: PosState): (x: seq<real>)
    ensures |x| == 6
  {
    [s.r.x, s.r.y, s.r.z, s.v.x, s.v.y, s.v.z]
  }

  function Unpack(x: seq<real>): PosState
    requires |x| == 6
  {
    PosState(Vec3(x[0], x[1], x[2]), Vec3(x[3], x[4], x[5]))
  }

  lemma UnpackPack(s: PosState)
    ensures Unpack(Pack(s)) == s
  {
  }

  /** J2000 and the non-rotating frames need no state transformation between them. */
  predicate InertialLike(f: ReferenceFrame)
  {
    IsJ2000(f) || f.frameType == BodyFixedNonRotating
  }

  /** The state transformation that PosState::transform applies, as a value. */
  function TransformSpec(s: PosState, fromFr: ReferenceFrame, toFr: ReferenceFrame, et: real,
                         sr: StateRotation): Result<PosState>
  {
    if fromFr.frameType == BodyFixedRotating && toFr.frameType == BodyFixedRotating then
      Err(BothFramesRotating)
    else if InertialLike(fromFr) && InertialLike(toFr) then
      Ok(s)
    else
      var fromInertial := !InertialLike(toFr);
      var body := if fromInertial then toFr.centerId else fromFr.centerId;
      var m := sr.tisbod(body, et);
      var mat := if fromInertial then m else sr.invstm(m);
      Ok(Unpack(MatVec(mat, Pack(s))))
  }

  lemma InvertAfter(sr: StateRotation, body: int, et: real, x: seq<real>)
    requires InvertsStates(sr) && |x| == 6
    ensures MatVec(sr.invstm(sr.tisbod(body, et)), MatVec(sr.tisbod(body, et), x)) == x
  {
    assert AreInverses(sr.invstm(sr.tisbod(body, et)), sr.tisbod(body, et));
  }

  lemma InvertBefore(sr: StateRotation, body: int, et: real, x: seq<real>)
    requires InvertsStates(sr) && |x| == 6
    ensures MatVec(sr.tisbod(body, et), MatVec(sr.invstm(sr.tisbod(body, et)), x)) == x
  {
    assert AreInverses(sr.invstm(sr.tisbod(body, et)), sr.tisbod(body, et));
  }

  /** The 6x6 identity matrix. */
  function Identity6(): Matrix6
  {
    seq(6, i requires 0 <= i < 6 => seq(6, j requires 0 <= j < 6 => if i == j then 1.0 else 0.0))
  }

  /** A row applied to a 6-vector, written out. */
  lemma RowDotSix(row: seq<real>, x: seq<real>)
    requires |row| == 6 && |x| == 6
    ensures RowDot(row, x, 6)
         == row[0] * x[0] + row[1] * x[1] + row[2] * x[2] + row[3] * x[3] + row[4] * x[4] + row[5] * x[5]
  {
    assert RowDot(row, x, 1) == row[0] * x[0];
    assert RowDot(row, x, 2) == RowDot(row, x, 1) + row[1] * x[1];
    assert RowDot(row, x, 3) == RowDot(row, x, 2) + row[2] * x[2];
    assert RowDot(row, x, 4) == RowDot(row, x, 3) + row[3] * x[3];
    assert RowDot(row, x, 5) == RowDot(row, x, 4) + row[4] * x[4];
  }

  /** The identity matrix leaves every 6-vector unchanged. */
  lemma IdentityMatVec(x: seq<real>)
    requires |x| == 6
    ensures MatVec(Identity6(), x) == x
  {
    var y := MatVec(Identity6(), x);
    forall i | 0 <= i < 6
      ensures y[i] == x[i]
    {
      RowDotSix(Identity6()[i], x);
    }
  }

  /** The law can be met: an oracle whose transformations and inverses are all the identity satisfies it. */
  lemma IdentityRotationInverts()
    ensures InvertsStates(StateRotation((body: int, et: real) => Identity6(), (m: Matrix6) => Identity6()))
  {
    forall x: seq<real> | |x| == 6
      ensures MatVec(Identity6(), MatVec(Identity6(), x)) == x
    {
      IdentityMatVec(x);
      IdentityMatVec(MatVec(Identity6(), x));
    }
  }

  lemma PackUnpack(x: seq<real>)
    requires |x| == 6
    ensures Pack(Unpack(x)) == x
  {
  }

  lemma RotatingFrameNotInertialLike(f: ReferenceFrame)
    requires f.frameType == BodyFixedRotating
    ensures !InertialLike(f)
  {
  }

  /** From J2000 into a rotating frame: the body's state transformation, applied directly. */
  lemma TransformIntoBody(s: PosState, f: ReferenceFrame, et: real, sr: StateRotation)
    requires f.frameType == BodyFixedRotating
    ensures TransformSpec(s, CreateJ2000(), f, et, sr) == Ok(Unpack(MatVec(sr.tisbod(f.centerId, et), Pack(s))))
  {
    assert InertialLike(CreateJ2000());
    RotatingFrameNotInertialLike(f);
  }

  /** From a rotating frame to J2000: the inverse of the body's state transformation. */
  lemma TransformOutOfBody(s: PosState, f: ReferenceFrame, et: real, sr: StateRotation)
    requires f.frameType == BodyFixedRotating
    ensures TransformSpec(s, f, CreateJ2000(), et, sr)
         == Ok(Unpack(MatVec(sr.invstm(sr.tisbod(f.centerId, et)), Pack(s))))
  {
    assert InertialLike(CreateJ2000());
    RotatingFrameNotInertialLike(f);
  }

  /** Transforming into a rotating body frame and back again returns the original state. */
  lemma TransformRoundTrip(s: PosState, f: ReferenceFrame, et: real, sr: StateRotation)
    requires InvertsStates(sr)
    requires f.frameType == BodyFixedRotating
    ensures TransformSpec(s, CreateJ2000(), f, et, sr).Ok?
    ensures TransformSpec(TransformSpec(s, CreateJ2000(), f, et, sr).value, f, CreateJ2000(), et, sr) == Ok(s)
  {
    var m := sr.tisbod(f.centerId, et);
    var t := MatVec(m, Pack(s));
    TransformIntoBody(s, f, et, sr);
    TransformOutOfBody(Unpack(t), f, et, sr);
    PackUnpack(t);
    InvertAfter(sr, f.centerId, et, Pack(s));
    UnpackPack(s);
  }

  /** Leaving a rotating body frame for J2000 and coming back returns the original state. */
  lemma TransformRoundTripFromBody(s: PosState, f: ReferenceFrame, et: real, sr: StateRotation)
    requires InvertsStates(sr)
    requires f.frameType == BodyFixedRotating
    ensures TransformSpec(s, f, CreateJ2000(), et, sr).Ok?
    ensures TransformSpec(TransformSpec(s, f, CreateJ2000(), et, sr).value, CreateJ2000(), f, et, sr) == Ok(s)
  {
    var m := sr.tisbod(f.centerId, et);
    var t := MatVec(sr.invstm(m), Pack(s));
    TransformOutOfBody(s, f, et, sr);
    TransformIntoBody(Unpack(t), f, et, sr);
    PackUnpack(t);
    InvertBefore(sr, f.centerId, et, Pack(s));
    UnpackPack(s);
  }

  /**
   * PosState::transform: rejects a pair of rotating frames, returns the
   * state as is between inertial-like frames, and otherwise applies the
   * body's state transformation (inverted when going to the inertial side).
   */
  method Transform(s: PosState, fromFr: ReferenceFrame, toFr: ReferenceFrame, et: real, sr: StateRotation)
    returns (res: Result<PosState>)
    ensures res == TransformSpec(s, fromFr, toFr, et, sr)
    ensures fromFr.frameType == BodyFixedRotating && toFr.frameType == BodyFixedRotating ==> res == Err(BothFramesRotating)
    ensures InertialLike(fromFr) && InertialLike(toFr) ==> res == Ok(s)
  {
    if fromFr.frameType == BodyFixedRotating && toFr.frameType == BodyFixedRotating {
      return Err(BothFramesRotating);
    }
    if InertialLike(fromFr) && InertialLike(toFr) {
      return Ok(s);
    }
    var fromInertial: bool;
    var body: int;
    if InertialLike(toFr) {
      fromInertial := false;
      body := fromFr.centerId;
    } else {
      fromInertial := true;
      body := toFr.centerId;
    }
    var m := sr.tisbod(body, et);
    var tispm := Load(m);
    if !fromInertial {
      var tispmInv := Load(sr.invstm(m));
      CopyMatrix(tispm, tispmInv);
    }
    ghost var mat := if fromInertial then m else sr.invstm(m);
    var state := RotateState(tispm, s, mat);
    res := Ok(state);
  }

  /** The element-wise copy of one 6x6 array into another. */
  method CopyMatrix(dst: array2<real>, src: array2<real>)
    requires dst != src
    requires dst.Length0 == 6 && dst.Length1 == 6 && src.Length0 == 6 && src.Length1 == 6
    modifies dst
    ensures forall a, b :: 0 <= a < 6 && 0 <= b < 6 ==> dst[a, b] == src[a, b]
  {
    for i := 0 to 6
      invariant forall a, b :: 0 <= a < i && 0 <= b < 6 ==> dst[a, b] == src[a, b]
    {
      for j := 0 to 6
        invariant forall a, b :: 0 <= a < i && 0 <= b < 6 ==> dst[a, b] == src[a, b]
        invariant forall b :: 0 <= b < j ==> dst[i, b] == src[i, b]
      {
        dst[i, j] := src[i, j];
      }
    }
  }

  /** The state packed into a six-element array, transformed by the matrix held in the array, and unpacked. */
  method RotateState(tispm: array2<real>, s: PosState, ghost mat: Matrix6) returns (t: PosState)
    requires tispm.Length0 == 6 && tispm.Length1 == 6
    requires forall a, b :: 0 <= a < 6 && 0 <= b < 6 ==> tispm[a, b] == mat[a][b]
    ensures t == Unpack(MatVec(mat, Pack(s)))
  {
    var state := new real[6];
    state[0] := s.r.x;
    state[1] := s.r.y;
    state[2] := s.r.z;
    state[3] := s.v.x;
    state[4] := s.v.y;
    state[5] := s.v.z;
    assert state[..] == Pack(s);
    var trState := ApplyMatrix(tispm, state, mat);
    t := PosState(Vec3(trState[0], trState[1], trState[2]), Vec3(trState[3], trState[4], trState[5]));
  }

  /** Copy a 6x6 matrix into a fresh two-dimensional array. */
  method Load(m: Matrix6) returns (a: array2<real>)
    ensures fresh(a) && a.Length0 == 6 && a.Length1 == 6
    ensures forall i, j :: 0 <= i < 6 && 0 <= j < 6 ==> a[i, j] == m[i][j]
  {
    a := new real[6, 6];
    for i := 0 to 6
      invariant forall p, q :: 0 <= p < i && 0 <= q < 6 ==> a[p, q] == m[p][q]
    {
      for j := 0 to 6
        invariant forall p, q :: 0 <= p < i && 0 <= q < 6 ==> a[p, q] == m[p][q]
        invariant forall q :: 0 <= q < j ==> a[i, q] == m[i][q]
      {
        a[i, j] := m[i][j];
      }
    }
  }

  /** mxvg_c: the matrix held in the array applied to the vector held in the array. */
  method ApplyMatrix(a: array2<real>, x: array<real>, ghost mat: Matrix6) returns (y: seq<real>)
    requires a.Length0 == 6 && a.Length1 == 6 && x.Length == 6
    requires forall i, j :: 0 <= i < 6 && 0 <= j < 6 ==> a[i, j] == mat[i][j]
    ensures y == MatVec(mat, x[..])
  {
    y := [];
    for i := 0 to 6
      invariant y == MatVec(mat, x[..])[..i]
    {
      var acc := 0.0;
      for j := 0 to 6
        invariant acc == RowDot(mat[i], x[..], j)
      {
        acc := acc + a[i, j] * x[j];
      }
      y := y + [acc];
    }
  }
}
