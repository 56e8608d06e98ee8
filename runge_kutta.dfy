// Classic explicit Runge-Kutta methods of order 1 to 4 (astro/RK1_4.h).
module RungeKutta {
  import opened Errors
  import opened Vectors
  import opened States
  import opened StepDriver

  /** Nodes a, coefficient rows b and weights c of an explicit method. */
  datatype Tableau = Tableau(a: seq<real>, b: seq<seq<real>>, c: seq<real>)

  /** At least one stage, one node, row and weight per stage; row i holds at least i coefficients. */
  predicate WellFormed(t: Tableau)
  {
    && |t.a| >= 1 && |t.b| == |t.a| && |t.c| == |t.a|
    && forall i :: 0 <= i < |t.b| ==> |t.b[i]| >= i
  }

  type RkTableau = t: Tableau | WellFormed(t) witness Tableau([0.0], [[0.0]], [1.0])

  /** The tableau switch of RK<N>::doStep: orders 1 to 4, anything else is an error. */
  function ButcherTableau(n: int): (r: Result<RkTableau>)
    ensures r.Ok? <==> 1 <= n <= 4
    ensures r.Err? ==> r.error == UnsupportedOrder
    ensures r.Ok? ==> |r.value.a| == n
  {
    match n
    case 1 => Ok(Tableau([0.0], [[0.0]], [1.0]))
    case 2 => Ok(Tableau([0.0, 1.0], [[0.0], [1.0]], [0.5, 0.5]))
    case 3 => Ok(Tableau([0.0, 0.5, 1.0], [[0.0, 0.0], [0.5, 0.0], [-1.0, 2.0]],
                         [1.0 / 6.0, 2.0 / 3.0, 1.0 / 6.0]))
    case 4 => Ok(Tableau([0.0, 0.5, 0.5, 1.0],
                         [[0.0, 0.0, 0.0], [0.5, 0.0, 0.0], [0.0, 0.5, 0.0], [0.0, 0.0, 1.0]],
                         [1.0 / 6.0, 1.0 / 3.0, 1.0 / 3.0, 1.0 / 6.0]))
    case _ => Err(UnsupportedOrder)
  }

  /** w[0] + ... + w[n - 1] */
  function SumTo(w: seq<real>, n: nat): real
    requires n <= |w|
  {
    if n == 0 then 0.0 else SumTo(w, n - 1) + w[n - 1]
  }

  /** Every supported tableau is consistent: the weights sum to one and row i of b sums to node i. */
  lemma TableauConsistent(n: int)
    requires 1 <= n <= 4
    ensures var t := ButcherTableau(n).value;
            && SumTo(t.c, n) == 1.0
            && forall i :: 0 <= i < n ==> SumTo(t.b[i], i) == t.a[i]
  {
    var t := ButcherTableau(n).value;
    if n == 4 {
      assert SumTo(t.b[3], 3) == 1.0;
    }
  }

  /** The coefficients w scaled by the step size: h w[0], ..., h w[|w| - 1]. */
  function Weights(h: real, w: seq<real>): (hw: seq<real>)
    ensures |hw| == |w|
    ensures forall j :: 0 <= j < |w| ==> hw[j] == h * w[j]
  {
    if |w| == 0 then [] else [h * w[0]] + Weights(h, w[1..])
  }

  /** s + f[0] w[0] + ... + f[n - 1] w[n - 1], added in index order to r and v alike. */
  function Combine(s: PosState, f: seq<PosState>, w: seq<real>, n: nat): PosState
    requires n <= |f| && n <= |w|
  {
    if n == 0 then s else Combine(s, f, w, n - 1).Plus(f[n - 1].Times(w[n - 1]))
  }

  /** Combine reads only the first n derivatives. */
  lemma {:induction false} CombinePrefix(s: PosState, f: seq<PosState>, g: seq<PosState>, w: seq<real>, n: nat)
    requires n <= |f| && n <= |g| && n <= |w|
    requires f[..n] == g[..n]
    ensures Combine(s, f, w, n) == Combine(s, g, w, n)
  {
    if n > 0 {
      assert f[..n - 1] == g[..n - 1] by {
        assert f[..n - 1] == f[..n][..n - 1];
        assert g[..n - 1] == g[..n][..n - 1];
      }
      assert f[n - 1] == f[..n][n - 1];
      assert g[n - 1] == g[..n][n - 1];
      CombinePrefix(s, f, g, w, n - 1);
    }
  }

  /** The first n stage derivatives: stage i is evaluated at et + a[i] h, from s plus the earlier stages only. */
  function Stages(rates: (real, PosState) -> PosState, a: seq<real>, b: seq<seq<real>>,
                  s: PosState, et: real, h: real, n: nat): (f: seq<PosState>)
    requires n <= |a| && n <= |b|
    requires forall i :: 0 <= i < n ==> |b[i]| >= i
    ensures |f| == n
  {
    if n == 0 then []
    else
      var f := Stages(rates, a, b, s, et, h, n - 1);
      f + [rates(et + a[n - 1] * h, Combine(s, f, Weights(h, b[n - 1]), n - 1))]
  }

  /** Computing more stages does not change the earlier ones. */
  lemma {:induction false} StagesPrefix(rates: (real, PosState) -> PosState, a: seq<real>, b: seq<seq<real>>,
                                         s: PosState, et: real, h: real, m: nat, n: nat)
    requires m <= n <= |a| && n <= |b|
    requires forall i :: 0 <= i < n ==> |b[i]| >= i
    ensures Stages(rates, a, b, s, et, h, n)[..m] == Stages(rates, a, b, s, et, h, m)
    decreases n
  {
    if m < n {
      StagesPrefix(rates, a, b, s, et, h, m, n - 1);
      var f := Stages(rates, a, b, s, et, h, n - 1);
      assert Stages(rates, a, b, s, et, h, n)[..m] == f[..m];
    }
  }

  /** Stage i is evaluated from the i stages before it. */
  lemma LastStage(rates: (real, PosState) -> PosState, a: seq<real>, b: seq<seq<real>>,
                  s: PosState, et: real, h: real, i: nat)
    requires i < |a| && i < |b|
    requires forall j :: 0 <= j <= i ==> |b[j]| >= j
    ensures Stages(rates, a, b, s, et, h, i + 1)[i]
            == rates(et + a[i] * h, Combine(s, Stages(rates, a, b, s, et, h, i), Weights(h, b[i]), i))
  {
  }

  /** Stage i of n: the derivative at et + a[i] h of s advanced by the first i stages with row b[i]. */
  lemma StageEvaluation(rates: (real, PosState) -> PosState, a: seq<real>, b: seq<seq<real>>,
                        s: PosState, et: real, h: real, n: nat, i: nat)
    requires i < n <= |a| && n <= |b|
    requires forall j :: 0 <= j < n ==> |b[j]| >= j
    ensures var f := Stages(rates, a, b, s, et, h, n);
            f[i] == rates(et + a[i] * h, Combine(s, f, Weights(h, b[i]), i))
  {
    var f := Stages(rates, a, b, s, et, h, n);
    var g := Stages(rates, a, b, s, et, h, i);
    var w := Weights(h, b[i]);
    StagesPrefix(rates, a, b, s, et, h, i + 1, n);
    assert f[i] == f[..i + 1][i];
    LastStage(rates, a, b, s, et, h, i);
    StagesPrefix(rates, a, b, s, et, h, i, n);
    assert g[..i] == g;
    CombinePrefix(s, f, g, w, i);
  }

  /** One step of size h: the state advanced by all stages with the weights c, at et + h. */
  function Step(rates: (real, PosState) -> PosState, t: RkTableau, s: PosState, et: real, h: real): Sample<PosState>
  {
    var n := |t.a|;
    Sample(Combine(s, Stages(rates, t.a, t.b, s, et, h, n), Weights(h, t.c), n), et + h)
  }

  /** RK<N>::doStep: an unsupported order is an error, otherwise one step. */
  function StepSpec(n: int, rates: (real, PosState) -> PosState, s: PosState, et: real, dt: real)
    : Result<Sample<PosState>>
  {
    match ButcherTableau(n)
    case Err(e) => Err(e)
    case Ok(t) => Ok(Step(rates, t, s, et, dt))
  }

  datatype Option<T> = None | Some(value: T)

  /**
   * The accumulation of RK<N>::doStep as written: the loop runs over six
   * stages, reading f[i] and c[i] for i up to 5 whatever the order. None
   * stands for a read past the end of f or c.
   */
  function AccumulateAsWritten(s: PosState, f: seq<PosState>, c: seq<real>, h: real): Option<PosState>
  {
    if |f| < 6 || |c| < 6 then None else Some(Combine(s, f, Weights(h, c), 6))
  }

  /** For every supported order the six-stage accumulation reads past the N stage derivatives. */
  lemma AccumulateAsWrittenOverruns(n: int, rates: (real, PosState) -> PosState, s: PosState, et: real, h: real)
    requires 1 <= n <= 4
    ensures var t := ButcherTableau(n).value;
            AccumulateAsWritten(s, Stages(rates, t.a, t.b, s, et, h, n), t.c, h) == None
  {
  }

  lemma PlusAssociates(s: PosState, p: PosState, q: PosState)
    ensures s.Plus(p).Plus(q) == s.Plus(p.Plus(q))
  {
  }

  lemma TimesAdds(g: PosState, x: real, y: real)
    ensures g.Times(x).Plus(g.Times(y)) == g.Times(x + y)
  {
  }

  lemma PlusZeroTimes(s: PosState, g: PosState)
    ensures s.Plus(g.Times(0.0)) == s
  {
  }

  /** With the same derivative g in every stage, Combine adds g times the weight sum. */
  lemma {:induction false} CombineConstant(s: PosState, f: seq<PosState>, w: seq<real>, n: nat, g: PosState)
    requires n <= |f| && n <= |w|
    requires forall j :: 0 <= j < n ==> f[j] == g
    ensures Combine(s, f, w, n) == s.Plus(g.Times(SumTo(w, n)))
  {
    if n == 0 {
      PlusZeroTimes(s, g);
    } else {
      var x := SumTo(w, n - 1);
      var y := w[n - 1];
      CombineConstant(s, f, w, n - 1, g);
      assert f[n - 1] == g;
      PlusAssociates(s, g.Times(x), g.Times(y));
      TimesAdds(g, x, y);
    }
  }

  lemma Distributes(h: real, x: real, y: real)
    ensures h * x + h * y == h * (x + y)
  {
  }

  /** Scaling every coefficient by h scales their sum by h. */
  lemma {:induction false} SumOfWeights(h: real, w: seq<real>, n: nat)
    requires n <= |w|
    ensures SumTo(Weights(h, w), n) == h * SumTo(w, n)
  {
    if n > 0 {
      var hw := Weights(h, w);
      SumOfWeights(h, w, n - 1);
      assert SumTo(hw, n) == SumTo(hw, n - 1) + hw[n - 1];
      assert hw[n - 1] == h * w[n - 1];
      Distributes(h, SumTo(w, n - 1), w[n - 1]);
    }
  }

  /** Every supported method integrates a constant derivative g exactly: the step adds g h. */
  lemma StepExactForConstantRates(n: int, g: PosState, s: PosState, et: real, h: real)
    requires 1 <= n <= 4
    ensures var t := ButcherTableau(n).value;
            Step((e: real, x: PosState) => g, t, s, et, h) == Sample(s.Plus(g.Times(h)), et + h)
  {
    var t := ButcherTableau(n).value;
    var rates := (e: real, x: PosState) => g;
    var f := Stages(rates, t.a, t.b, s, et, h, n);
    forall j | 0 <= j < n
      ensures f[j] == g
    {
      StageEvaluation(rates, t.a, t.b, s, et, h, n, j);
    }
    CombineConstant(s, f, Weights(h, t.c), n, g);
    SumOfWeights(h, t.c, n);
    TableauConsistent(n);
    assert h * 1.0 == h;
  }

  /** The accumulation loop of RK<N>::doStep: s plus h w[j] f[j] for j below n, in index order. */
  method Accumulate(s: PosState, f: seq<PosState>, h: real, w: seq<real>, n: nat) returns (r: PosState)
    requires n <= |f| && n <= |w|
    ensures r == Combine(s, f, Weights(h, w), n)
  {
    r := s;
    var k := 0;
    while k < n
      invariant 0 <= k <= n
      invariant r == Combine(s, f, Weights(h, w), k)
    {
      r := r.Plus(f[k].Times(h * w[k]));
      k := k + 1;
    }
  }

  /** The stage loop of RK<N>::doStep: stage i is evaluated from s plus the stages before it. */
  method EvaluateStages(rates: (real, PosState) -> PosState, a: seq<real>, b: seq<seq<real>>,
                        s: PosState, et: real, h: real, n: nat)
    returns (f: seq<PosState>)
    requires n <= |a| && n <= |b|
    requires forall i :: 0 <= i < n ==> |b[i]| >= i
    ensures f == Stages(rates, a, b, s, et, h, n)
  {
    f := [];
    var i := 0;
    while i < n
      invariant 0 <= i <= n
      invariant f == Stages(rates, a, b, s, et, h, i)
    {
      var sInner := Accumulate(s, f, h, b[i], i);
      var g := Stages(rates, a, b, s, et, h, i + 1);
      assert |g| == i + 1;
      assert g[..i] == f;
      assert g[i] == rates(et + a[i] * h, sInner);
      f := f + [rates(et + a[i] * h, sInner)];
      i := i + 1;
    }
  }

  /** The body of RK<N>::doStep once the tableau is chosen: the stages, then the accumulation with c. */
  method StepWith(rates: (real, PosState) -> PosState, t: RkTableau, s: PosState, et: real, dt: real)
    returns (r: Sample<PosState>)
    ensures r == Step(rates, t, s, et, dt)
  {
    var n := |t.a|;
    var f := EvaluateStages(rates, t.a, t.b, s, et, dt, n);
    var res := Accumulate(s, f, dt, t.c, n);
    r := Sample(res, et + dt);
  }

  /** RK<N>::doStep: an unsupported order is an error, otherwise one step with the order's tableau. */
  method DoStep(n: int, rates: (real, PosState) -> PosState, s: PosState, et: real, dt: real)
    returns (r: Result<Sample<PosState>>)
    ensures r == StepSpec(n, rates, s, et, dt)
    ensures r.Ok? ==> r.value.et == et + dt
  {
    var tab := ButcherTableau(n);
    if tab.Err? {
      return Err(UnsupportedOrder);
    }
    var next := StepWith(rates, tab.value, s, et, dt);
    r := Ok(next);
  }

  /** The step function the driver repeats for a given tableau. */
  function StepFunction(rates: (real, PosState) -> PosState, t: RkTableau): (PosState, real, real) -> PosState
  {
    (x: PosState, e: real, h: real) => Step(rates, t, x, e, h).s
  }

  /**
   * RK<N>::doSteps: the initial sample, then fixed steps of dt up to et1.
   * An unsupported order fails on the first step, so only when et0 < et1.
   */
  function DoStepsSpec(n: int, rates: (real, PosState) -> PosState, s: PosState, et0: real, et1: real, dt: real)
    : Result<seq<Sample<PosState>>>
    requires et0 < et1 ==> dt > 0.0
  {
    if et1 <= et0 then Ok([Sample(s, et0)])
    else
      match ButcherTableau(n)
      case Err(e) => Err(e)
      case Ok(t) => Drive(StepFunction(rates, t), s, et0, et1, dt, StepBound(et0, et1, dt))
  }

  /**
   * The loop of RK<N>::doSteps for a chosen tableau: from the initial sample,
   * steps of dt while the last epoch is before et1, the last step clipped to end at et1.
   */
  method DriveWith(rates: (real, PosState) -> PosState, t: RkTableau, s: PosState, et0: real, et1: real, dt: real)
    returns (res: seq<Sample<PosState>>)
    requires dt > 0.0
    ensures Drive(StepFunction(rates, t), s, et0, et1, dt, StepBound(et0, et1, dt)) == Ok(res)
  {
    ghost var step := StepFunction(rates, t);
    res := [Sample(s, et0)];
    var dti := dt;
    ghost var clipped := false;
    LoopInit(step, s, et0, et1, dt);
    while res[|res| - 1].et < et1
      invariant |res| >= 1
      invariant Loop(step, s, et0, et1, dt, res, dti, |res| - 1, clipped)
      decreases StepBound(et0, et1, dt) - |res|
    {
      var last := res[|res| - 1];
      var next := StepWith(rates, t, last.s, last.et, dti);
      assert next == Sample(step(last.s, last.et, dti), last.et + dti);
      LoopStep(step, s, et0, et1, dt, res, dti, |res| - 1, clipped);
      clipped := clipped || next.et + dti > et1;
      res := res + [next];
      if res[|res| - 1].et + dti > et1 {
        dti := et1 - res[|res| - 1].et;
      }
    }
    LoopExit(step, s, et0, et1, dt, res, dti, |res| - 1, clipped);
  }

  /**
   * RK<N>::doSteps. The source loops forever for et0 < et1 and dt <= 0
   * (the epoch never reaches et1), hence the precondition. An unsupported
   * order makes the first doStep fail, so it is reported only when et0 < et1.
   */
  method DoSteps(n: int, rates: (real, PosState) -> PosState, s: PosState, et0: real, et1: real, dt: real)
    returns (r: Result<seq<Sample<PosState>>>)
    requires et0 < et1 ==> dt > 0.0
    ensures r == DoStepsSpec(n, rates, s, et0, et1, dt)
  {
    if et1 <= et0 {
      return Ok([Sample(s, et0)]);
    }
    var tab := ButcherTableau(n);
    if tab.Err? {
      return Err(tab.error);
    }
    var res := DriveWith(rates, tab.value, s, et0, et1, dt);
    r := Ok(res);
  }
}
