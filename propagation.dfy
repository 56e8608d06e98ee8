// Propagator<ODEType, Solver> (astro/Propagator.h): a holder of the ODE that
// forwards doStep and doSteps to the solver's static functions. The C++
// template is instantiated once per solver here. The ODE is a constant
// field, and no method has a modifies clause, so no call changes the
// propagator.
module Propagation {
  import opened Errors
  import opened Vectors
  import opened States
  import opened StepDriver
  import RK = RungeKutta
  import F45 = Fehlberg45
  import F78 = Fehlberg78

  /** Propagator<ODE, RK<N>>. */
  class RkPropagator {
    /** The order N of the solver. */
    const n: int
    /** The ODE the propagator was constructed with. */
    const ode: (real, PosState) -> PosState

    constructor (n: int, ode: (real, PosState) -> PosState)
      ensures this.n == n && this.ode == ode
    {
      this.n := n;
      this.ode := ode;
    }

    method DoStep(s: PosState, et: real, dt: real) returns (r: Result<Sample<PosState>>)
      ensures r == RK.StepSpec(n, ode, s, et, dt)
    {
      r := RK.DoStep(n, ode, s, et, dt);
    }

    method DoSteps(s: PosState, et0: real, et1: real, dt: real) returns (r: Result<seq<Sample<PosState>>>)
      requires et0 < et1 ==> dt > 0.0
      ensures r == RK.DoStepsSpec(n, ode, s, et0, et1, dt)
    {
      r := RK.DoSteps(n, ode, s, et0, et1, dt);
    }
  }

  /** Propagator<ODE, RKF45>; it holds the RKF45 solver object whose tolerance its steps use. */
  class Rkf45Propagator {
    const m: Math
    const ode: (real, PosState) -> PosState
    const solver: F45.RKF45

    constructor (m: Math, ode: (real, PosState) -> PosState, solver: F45.RKF45)
      ensures this.m == m && this.ode == ode && this.solver == solver
    {
      this.m := m;
      this.ode := ode;
      this.solver := solver;
    }

    method DoStep(s: PosState, et: real, dt: real) returns (r: Result<F45.StepResult>)
      ensures r == F45.Step45(m, ode, solver.tol, s, et, dt)
    {
      r := solver.DoStep(m, ode, s, et, dt);
    }

    method DoSteps(s: PosState, et0: real, et1: real, dt: real, fuel: nat) returns (r: Result<seq<F45.StepResult>>)
      ensures r == F45.Steps45(m, ode, solver.tol, s, et0, et1, dt, fuel)
    {
      r := solver.DoSteps(m, ode, s, et0, et1, dt, fuel);
    }
  }

  /** Propagator<ODE, RKF78>; it holds the RKF78 solver object whose tolerance and stepper its steps use. */
  class Rkf78Propagator {
    const ode: (real, PosState) -> PosState
    const solver: F78.RKF78

    constructor (ode: (real, PosState) -> PosState, solver: F78.RKF78)
      ensures this.ode == ode && this.solver == solver
    {
      this.ode := ode;
      this.solver := solver;
    }

    method DoStep(s: PosState, et: real, dt: real) returns (r: Result<F78.StepResult>)
      ensures r == F78.Step78(solver.stepper, ode, s, et, dt)
    {
      r := solver.DoStep(ode, s, et, dt);
    }

    method DoSteps(s: PosState, et0: real, et1: real, dt: real, fuel: nat) returns (r: Result<seq<F78.StepResult>>)
      ensures r == F78.Steps78(solver.stepper, ode, s, et0, et1, dt, fuel)
    {
      r := solver.DoSteps(ode, s, et0, et1, dt, fuel);
    }
  }
}
