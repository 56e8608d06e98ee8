// Failure modes of the library. The C++ code throws exceptions
// (astro/Exceptions.h); the model returns them as values.
module Errors {

  datatype AstroError =
    | UnsupportedOrder          // RK<N> with N outside 1..4
    | NegativeTolerance         // setTolerance with a negative value
    | StepSizeBelowMinimum      // RKF45 proposed a step below h_min
    | StepNotConverged          // RKF78 exceeded its allowed number of tries
    | BothFramesRotating        // transform between two body-fixed rotating frames
    | FrameNotFound             // the frame lookup found no frame for the body
    | StepBudgetExhausted       // the model's fuel for an adaptive driver ran out

  datatype Result<+T> = Ok(value: T) | Err(error: AstroError)
  {
    predicate IsFailure() { Err? }

    function PropagateFailure<U>(): Result<U>
      requires Err?
    {
      Err(error)
    }

    function Extract(): T
      requires Ok?
    {
      value
    }
  }

  /** Outcome of an operation that returns nothing but may fail. */
  datatype Outcome = Pass | Fail(error: AstroError)
}
