# astro — numerical propagation core, modelled in Dafny

This project models the numerical core of the `astro` library: the state of a body, and the integrators that carry that state forward in time.

- **States.** A translational state (`PosState`: position and velocity) and a rotational state (`RotState`: attitude quaternion and angular rate).
- **Time.** Ephemeris time: seconds past J2000 on the TDB scale.
- **Frames.** Reference frames, and the transformation of a state between an inertial frame and a body-fixed one.
- **ODEs.** The two-body gravity ODE and the kinematic attitude ODE.
- **Integrators.**
  - the classic explicit Runge-Kutta methods of order 1 to 4 (`RK<N>`);
  - the adaptive Runge-Kutta-Fehlberg 4(5) integrator (`RKF45`);
  - the retrying 7(8) integrator built on a controlled stepper (`RKF78`);
  - the predictor-corrector direct multiplication attitude integrator (`PCDM`).
- **Propagator.** The `Propagator` wrapper that forwards to an integrator.
- **Utilities.** Cubic Hermite interpolation between two states, angle wrapping, and the `Observer` that holds a state relative to a centre body.

Several things the library gets from elsewhere are parameters of the model, called oracles:

- SPICE queries: frame lookup, body orientation, state rotation matrices, the relative-state query, UTC formatting.
- Elementary functions: square root, sine, cosine, fifth root.
- Quaternion multiplication and inverse.
- The odeint controlled stepper.

Where a proof needs something of an oracle, it says what through a predicate:

- `Lawful`: the square root of a non-negative number is a non-negative root, and the square root of 0 is 0; sin² + cos² = 1 and cos 0 = 1; the fifth root of a non-negative number is a non-negative fifth root, and the fifth root of 0 is 0.
- `LawfulQuat`: the norm is multiplicative, the zero quaternion absorbs on both sides, and the unit quaternion is a left identity (`mul(QuatOne, p) == p`).
- `InvertsStates`: `invstm` inverts, on both sides, every state transformation that `tisbod` returns. `States.IdentityRotationInverts` shows that an oracle can meet this law.

Each fixed-step loop is a method whose `ensures` ties its result to a specification function. The fixed-step drivers (`RK<N>::doSteps`, `PCDM::doSteps`) share one specification, `StepDriver.Drive`. The adaptive drivers (`RKF45::doSteps`, `RKF78::doSteps`) share `AdaptiveDriver.Walk`.

Modules, one per file:

| module | models |
|---|---|
| `Errors` | the library's exceptions, as error values |
| `Vectors` | `vec3d`, `quatd`, and the oracles above |
| `Time` | `astro/Time.h`, `astro/Time.cpp` |
| `Util` | `wrap` in `astro/Util.cpp` |
| `Frames` | `astro/ReferenceFrame.cpp` |
| `States` | `astro/State.h`, `astro/State.cpp` |
| `Interpolation` | `astro/Interpolate.cpp` |
| `Odes` | `astro/ODE.cpp` |
| `StepDriver` | the fixed-step `doSteps` loop |
| `AdaptiveDriver` | the adaptive `doSteps` loop |
| `RungeKutta` | `astro/RK1_4.h` |
| `Fehlberg45` | `astro/RKF45.cpp` |
| `Fehlberg78` | `astro/RKF78.cpp` |
| `Pcdm` | `astro/PCDM.cpp` |
| `Propagation` | `astro/Propagator.h` |
| `Observers` | `astro/Observer.cpp` |

## Model

| member | source | states |
|---|---|---|
| Time.JedRoundTrip | astro/Time.cpp:39-47 | fromJED followed by toJED returns the Julian date it was given |
| Time.EtRoundTrip | astro/Time.cpp:95-99 | toJED followed by fromJED returns the ephemeris time it was given |
| Time.EtToJedIncreasing | astro/Time.cpp:95-99 | ET 0 is Julian date 2451545.0 (J2000), and a later ET has a later Julian date |
| Time.ClampPrecision | astro/Time.cpp:67-69 | the precision the formatters use lies in [0, 20]; it is the requested one when that is in range, and 0 or 20 otherwise |
| Time.EphemerisTime.constructor | astro/Time.cpp:21-25 | the time holds the given ET |
| Time.EphemerisTime.Default | astro/Time.cpp:15-19 | the default time is ET 0 |
| Time.EphemerisTime.FromJED | astro/Time.cpp:39-47 | a new time whose toJED is the given Julian date |
| Time.EphemerisTime.ToJED | astro/Time.cpp:95-99 | the Julian date converts back to this ET |
| Time.EphemerisTime.GetETValue | astro/Time.cpp:60-63 | returns the ET, the time whose Julian date toJED gives |
| Time.EphemerisTime.Equals | astro/Time.h:54-57 | two times are equal exactly when they hold the same ET, that is, exactly when neither is before the other |
| Time.EphemerisTime.AddAssign | astro/Time.h:59-62 | `+=` advances the ET by the delta |
| Time.EphemerisTime.SubtractAssign | astro/Time.h:63-66 | `-=` moves the ET back by the delta |
| Time.EphemerisTime.Plus | astro/RK1_4.h:99 | `et + dt` is a new time at ET + dt; the original is unchanged |
| Time.EphemerisTime.Minus | astro/Interpolate.cpp:10-11 | `et1 - et0` is the delta that, added to et0, gives et1 |
| Time.EphemerisTime.ToISOUTCString | astro/Time.cpp:65-78 | et2utc is called with format "ISOC", the clamped precision, and output length 24 + precision |
| Time.EphemerisTime.ToJDUTCString | astro/Time.cpp:80-93 | et2utc is called with format "J", the clamped precision, and output length 24 + precision |
| Time.AddThenSubtractRestores | astro/Time.h:59-66 | `+= dt` followed by `-= dt` leaves the time unchanged |
| Time.PlusMinusAgree | astro/Interpolate.cpp:10-11 | `(e + dt) - e` is `dt` |
| Util.WrapInRange | astro/Util.cpp:35-42 | for start < end, wrap lands in [start, end) |
| Util.Wrap | astro/Util.cpp:35-42 | the result differs from the value by floor((value - start) / width) whole widths |
| Util.WrapIdentityInRange | astro/Util.cpp:35-42 | a value already in [start, end) is returned unchanged |
| Util.WrapOfStart | test/testUtil.cpp:128-129 | wrap(start) is start |
| Util.WrapPeriodic | test/testUtil.cpp:145-151 | shifting the value by any whole number of widths does not change the result |
| Util.WrapIdempotent | astro/Util.cpp:35-42 | wrapping twice is wrapping once |
| Frames.CreateJ2000 | astro/ReferenceFrame.cpp:76-87 | the inertial frame named "J2000", frame id 1, centred on body 0 |
| Frames.CreateBodyFixedSpice | astro/ReferenceFrame.cpp:89-123 | body 0 gives J2000; otherwise the lookup fails exactly when the body is not found; the frame is non-rotating exactly for ids below 10 and rotating exactly for the rest; it is centred on the body; its id and name come from the lookup |
| Frames.ReferenceFrame.Same | astro/ReferenceFrame.cpp:65-73 | two frames are equal exactly when they are identical once the name is disregarded |
| Frames.IsJ2000 | astro/State.cpp:16-17 | a frame is J2000 exactly when it is the J2000 frame of createJ2000 up to its name |
| Frames.SameIsEquivalence | astro/ReferenceFrame.cpp:65-73 | frame equality is reflexive, symmetric and transitive |
| Frames.SameIgnoresName | astro/ReferenceFrame.cpp:65-73 | frames that differ only in name are equal |
| Frames.FactoryFramesInertialIffJ2000 | astro/ReferenceFrame.cpp:89-98 | a frame from the factory is J2000 exactly when it is inertial |
| Frames.GetRotation | astro/ReferenceFrame.cpp:15-47 | the identity for inertial and non-rotating frames; the inverse of the body's tipbod matrix for rotating frames |
| Frames.NonRotatingNeedsNoLookup | astro/ReferenceFrame.cpp:18-19 | the rotation of a non-rotating frame does not depend on the orientation oracle |
| States.PosState.Plus | astro/State.h:48-53 | `+= o` is undone by `-= o` |
| States.PosState.Minus | astro/State.h:55-60 | `-= o` is undone by adding o back, in position and in velocity |
| States.PosState.Times | astro/State.h:62-67 | `*= 1` keeps the state, and `*= 0` gives zero position and velocity |
| States.ZeroState | astro/State.h:36-38 | the default state has zero position and zero velocity |
| States.UniformState | astro/State.h:44-46 | every component of both vectors is the given value |
| States.PlusMinusRestores | astro/State.h:48-60 | `+= o` followed by `-= o` restores the state |
| States.TimesFactorLaws | astro/State.h:62-67 | scaling by a + b adds the states scaled by a and by b, and scaling by a then b is scaling by a·b |
| States.TimesDistributes | astro/State.h:48-67 | `*= a` distributes over `+=` |
| States.NormInf | astro/State.h:154-163 | non-negative; at least every absolute component; and equal to one of them |
| States.Abs | astro/State.cpp:96-101 | every component is non-negative and is plus or minus the input component |
| States.NormInfOfAbs | astro/State.cpp:96-101 | the infinity norm of abs(p) is the infinity norm of p |
| States.DefaultRotState | astro/State.h:96-98 | the default rotation state is the unit quaternion (norm 1) with zero rate |
| States.MatVec | astro/State.cpp:60 | each output entry is the dot product of a matrix row with the input (mxvg_c) |
| States.UnpackPack | astro/State.cpp:50-68 | packing a state into six numbers and unpacking them gives the state back |
| States.PackUnpack | astro/State.cpp:50-68 | unpacking six numbers and packing them again gives the numbers back |
| States.RotatingFrameNotInertialLike | astro/State.cpp:16-17 | a rotating frame never takes the no-transform path |
| States.TransformIntoBody | astro/State.cpp:22-60 | from J2000 into a rotating frame, the transform applies the body's tisbod matrix |
| States.TransformOutOfBody | astro/State.cpp:22-60 | from a rotating frame to J2000, the transform applies the inverse of the body's tisbod matrix |
| States.IdentityRotationInverts | astro/State.cpp:32-47 | the inversion law the round trips assume is met by an oracle whose matrices are all the identity |
| States.TransformRoundTrip | astro/State.cpp:9-79 | transforming J2000 → body → J2000 returns the original state |
| States.TransformRoundTripFromBody | astro/State.cpp:9-79 | transforming body → J2000 → body returns the original state |
| States.Transform | astro/State.cpp:9-79 | agrees with the transform specification; two rotating frames are an error; between inertial-like frames the state is unchanged |
| States.Load | astro/State.cpp:32-47 | the 6×6 array holds the matrix entry for entry |
| States.CopyMatrix | astro/State.cpp:44-47 | afterwards the destination array holds the source array entry for entry |
| States.ApplyMatrix | astro/State.cpp:60 | the loop over the array computes the matrix-vector product |
| States.RotateState | astro/State.cpp:50-68 | packing the state, applying the matrix held in the array and unpacking gives the matrix applied to the packed state |
| States.Divide | astro/State.cpp:90-93 | the component-wise quotient: multiplied back by the divisor, it gives the dividend, for both position and velocity |
| States.DivideAsWritten | astro/State.cpp:90-93 | as written, the position part multiplied back by the divisor's position gives the dividend's position, and the velocity part equals the position part |
| States.DivideAsWrittenLosesVelocityRatio | astro/State.cpp:92 | as written, the velocity part of the quotient is the position ratio; a concrete pair of states shows it differs from the velocity ratio |
| Interpolation.PositionWeightsPartitionUnity | astro/Interpolate.cpp:14-15 | h00 + h01 = 1 |
| Interpolation.DerivativeWeightsCancel | astro/Interpolate.cpp:25-26 | the derivative weights of the two end positions cancel |
| Interpolation.VelocityWeightsAreDerivatives | astro/Interpolate.cpp:14-28 | each velocity weight is the derivative of the matching position weight: the difference quotient equals it up to terms in d² |
| Interpolation.BlendStep | astro/Interpolate.cpp:20-28 | moving the fraction by d moves the h-weighted blend by d times the derivative-weighted blend, plus d² times a remainder blend |
| Interpolation.HermiteAtStep | astro/Interpolate.cpp:10-29 | the interpolated velocity is the derivative of the interpolated position: a step of d·span in the epoch moves the position by d·span times the velocity, plus d² times a remainder |
| Interpolation.FractionShift | astro/Interpolate.cpp:10-11 | moving etx by d·span moves the fraction t = (etx - et1)/span by d |
| Interpolation.BasisAtZero | astro/Interpolate.cpp:14-28 | at t = 0 only h00 and the derivative of h10 are 1 |
| Interpolation.BasisAtOne | astro/Interpolate.cpp:14-28 | at t = 1 only h01 and the derivative of h11 are 1 |
| Interpolation.BlendAtStart | astro/Interpolate.cpp:20-29 | the blends at t = 0 give the first state's position and velocity |
| Interpolation.BlendAtEnd | astro/Interpolate.cpp:20-29 | the blends at t = 1 give the second state's position and velocity |
| Interpolation.Hermite | astro/Interpolate.cpp:6-31 | interpolating at et1 returns the first state and at et2 the second, in position and in velocity |
| Interpolation.HermiteMidpointExample | test/testInterpolate.cpp:94-110 | the midpoint of the library's example is r = (750, 1500, 2250), v = (1, 2, 3) |
| Odes.Gravity | astro/ODE.cpp:34-44 | the position derivative is the velocity |
| Odes.GravityAttracts | astro/ODE.cpp:42-44 | for mu > 0, the acceleration points towards the centre (negative dot product with r) |
| Odes.GravityIsCentral | astro/ODE.cpp:42-44 | the acceleration is parallel to r |
| Odes.GravityInverseSquare | astro/ODE.cpp:42-44 | the acceleration's component along r is -mu / \|r\|; with GravityIsCentral this fixes the acceleration as -mu r / \|r\|³ |
| Odes.GravityLinearInMu | astro/ODE.cpp:43-44 | scaling mu scales the acceleration by the same factor |
| Odes.CentreIsSingular | astro/ODE.cpp:42-43 | at r = 0 the divisor \|r\|³ is zero, so the state has no derivative |
| Odes.Ode.constructor | astro/ODE.cpp:10-14 | the ODE holds the given mu |
| Odes.Ode.SetMu | astro/ODE.cpp:21-24 | setMu replaces mu |
| Odes.Ode.Evaluate | astro/ODE.cpp:34-53 | operator() writes the gravity derivative of the state |
| Odes.Ode.Rates | astro/ODE.cpp:26-32 | rates returns what operator() writes |
| Odes.RotRates | astro/ODE.cpp:86 | the rate derivative is zero |
| Odes.RotRatesTangent | astro/ODE.cpp:69-79 | the quaternion derivative is orthogonal to the quaternion, so the kinematics keep its norm |
| StepDriver.Clip | astro/RK1_4.h:124-125 | the clipped step never passes et1; a step that fits is kept; one that would pass et1 is shortened to end exactly at et1 |
| StepDriver.LoopInit | astro/RK1_4.h:113-118 | the loop invariant holds after the initial value is pushed |
| StepDriver.LoopStep | astro/RK1_4.h:120-127 | one iteration (push doStep of the last result, then clip) keeps the loop invariant |
| StepDriver.LoopExit | astro/RK1_4.h:120-130 | when the last epoch reaches et1, the pushed results are exactly the driver specification |
| StepDriver.TraceSteps | astro/RK1_4.h:120-127 | every result but the last is before et1; each one is the step of the one before; the last is at or after et1 |
| StepDriver.DriveStartsAtInitial | astro/RK1_4.h:115 | the first result is the initial state at et0 |
| StepDriver.DriveClipsAfterFirstStep | astro/RK1_4.h:118-125 | the first step uses the full dt; every later epoch is at most et1 |
| StepDriver.DriveEndsAtEt1 | astro/RK1_4.h:120-127 | when 0 < dt <= et1 - et0, the last epoch is exactly et1 |
| StepDriver.DrivePreserves | astro/RK1_4.h:120-127 | a property that every step keeps holds for every result |
| AdaptiveDriver.WalkingInit | astro/RKF45.cpp:119-121 | the loop invariant holds after the initial result is pushed |
| AdaptiveDriver.WalkingStep | astro/RKF45.cpp:124-131 | one iteration (push doStep, clip the stored next step) keeps the loop invariant |
| AdaptiveDriver.WalkingStepFails | astro/RKF45.cpp:126 | a failing doStep makes the whole run fail with its error |
| AdaptiveDriver.WalkingOutOfFuel | astro/RKF45.cpp:124 | running out of the step budget before et1 is an error |
| AdaptiveDriver.WalkingExit | astro/RKF45.cpp:124-134 | reaching et1 returns exactly the pushed results |
| AdaptiveDriver.WalkSteps | astro/RKF45.cpp:124-131 | every result but the last is before et1, and its step succeeds; the next result is that step, clipped; the last result is at or after et1 |
| RungeKutta.ButcherTableau | astro/RK1_4.h:40-74 | a tableau exists exactly for orders 1 to 4, with one node per stage; any other order is UnsupportedOrder |
| RungeKutta.TableauConsistent | astro/RK1_4.h:42-69 | each tableau's weights sum to 1, and each node is the sum of its coefficient row |
| RungeKutta.Weights | astro/RK1_4.h:90-91 | each weight is the coefficient times h |
| RungeKutta.StagesPrefix | astro/RK1_4.h:84-94 | stage i depends only on the stages before it |
| RungeKutta.StageEvaluation | astro/RK1_4.h:84-94 | stage i is the ODE rate at et + a[i]·h, at s plus the h·b-weighted sum of the earlier stages |
| RungeKutta.StepExactForConstantRates | astro/RK1_4.h:97-105 | for orders 1 to 4, a constant derivative g is integrated exactly: s + g·h at et + dt |
| RungeKutta.Accumulate | astro/RK1_4.h:101-105 | the accumulation loop computes the c-weighted combination of the stages |
| RungeKutta.EvaluateStages | astro/RK1_4.h:84-94 | the stage loop computes the stage specification |
| RungeKutta.StepWith | astro/RK1_4.h:78-107 | one step computes the step specification |
| RungeKutta.DoStep | astro/RK1_4.h:35-109 | agrees with the specification (an error for orders outside 1 to 4); the result epoch is et + dt |
| RungeKutta.DriveWith | astro/RK1_4.h:111-131 | the loop computes the fixed-step driver specification |
| RungeKutta.DoSteps | astro/RK1_4.h:111-131 | agrees with the doSteps specification (an error for orders outside 1 to 4) |
| RungeKutta.AccumulateAsWrittenOverruns | astro/RK1_4.h:101-105 | as written, the accumulation reads stages 0 to 5, but there are only N ≤ 4 stages |
| Fehlberg45.TableauConsistent45 | astro/RKF45.cpp:12-22 | both weight sets sum to 1, and each node is the sum of its coefficient row |
| Fehlberg45.ErrorWeightsSumToZero | astro/RKF45.cpp:61-67 | the truncation-error weights c4 - c5 sum to zero |
| Fehlberg45.AllowedErrorAtLeastTolerance | astro/RKF45.cpp:74-76 | the allowed error max(\|y\|∞, 1)·tol is at least tol |
| Fehlberg45.NextStepAtMostFourSteps | astro/RKF45.cpp:79-86 | the proposed next step is at most 4h |
| Fehlberg45.StepOutcomes | astro/RKF45.cpp:37-115 | an error exactly when h_next < h_min; otherwise h_min ≤ dt_next = h_next ≤ 4h; a step whose error is too large is skipped (same state and epoch); an accepted step returns the fifth-order combination at et + h |
| Fehlberg45.ConstantRatesNeverSkipped | astro/RKF45.cpp:57-113 | with a constant derivative the error estimate is zero, so a step that succeeds advances to s + g·h at et + h |
| Fehlberg45.ZeroToleranceAlwaysFails | astro/RKF45.cpp:30-35 | setTolerance accepts zero, and with tolerance zero every step is an error |
| Fehlberg45.AcceptedToleranceProposesPositiveStep | astro/RKF45.cpp:74-86 | with a positive tolerance and h > 0, the proposed next step is positive |
| Fehlberg45.StepsShape | astro/RKF45.cpp:117-135 | the results start with (s, et0, dt); each later one is doStep of the one before, with its next step clipped to end at et1; only the last is at or after et1 |
| Fehlberg45.RKF45.constructor | astro/RKF45.cpp:28 | the tolerance starts at 1e-8 |
| Fehlberg45.RKF45.SetTolerance | astro/RKF45.cpp:30-35 | a negative tolerance is an error and leaves the old one; anything else replaces it |
| Fehlberg45.RKF45.DoStep | astro/RKF45.cpp:37-115 | the stage, error and accumulation loops compute the step specification with the current tolerance |
| Fehlberg45.SteppingAdvance | astro/RKF45.cpp:124-130 | one more step either ends doSteps with its error or extends the results by the step with its next step size clipped to et1 |
| Fehlberg45.SteppingBounds | astro/RKF45.cpp:117-134 | the loop invariant holds for the initial result; when the loop stops, the collected results are the whole of doSteps |
| Fehlberg45.ClipNext | astro/RKF45.cpp:128-129 | the stored next step size is clipped so that the next step ends at et1 at the latest |
| Fehlberg45.RKF45.Advance | astro/RKF45.cpp:126-129 | one pass of the loop either ends doSteps with doStep's error, or keeps the loop invariant with one more result |
| Fehlberg45.RKF45.DoSteps | astro/RKF45.cpp:117-135 | the loop computes the doSteps specification with the current tolerance |
| Fehlberg78.RetryAfterFailure | astro/RKF78.cpp:39-45 | a failed try with tries to spare has the outcome of the retry after it |
| Fehlberg78.RetryFrom | astro/RKF78.cpp:39-45 | from try t: an error exactly when every later try up to allowable_tries + 1 fails; otherwise the result is the first successful try, with numTries the failures before it |
| Fehlberg78.StepOutcome | astro/RKF78.cpp:32-58 | an error exactly when all 11 tries fail; otherwise 0 ≤ numTries ≤ 10, every earlier try failed, and the result is the state, epoch and step size of the first try that succeeded |
| Fehlberg78.StepsShape | astro/RKF78.cpp:60-78 | the results start with (s, et0, dt, 0); each later one is doStep of the one before, with its next step clipped to end at et1; only the last is at or after et1 |
| Fehlberg78.RKF78.constructor | astro/RKF78.cpp:12-16 | the tolerance starts at 1e-8, and the stepper is made for it |
| Fehlberg78.RKF78.SetTolerance | astro/RKF78.cpp:20-30 | a negative tolerance is an error and changes nothing; otherwise the tolerance is replaced and the stepper is rebuilt for it |
| Fehlberg78.RKF78.DoStep | astro/RKF78.cpp:32-58 | the retry loop computes the step specification |
| Fehlberg78.SteppingAdvance | astro/RKF78.cpp:67-73 | one more step either ends doSteps with its error or extends the results by the step with its next step size clipped to et1 |
| Fehlberg78.SteppingBounds | astro/RKF78.cpp:60-77 | the loop invariant holds for the initial result; when the loop stops, the collected results are the whole of doSteps |
| Fehlberg78.RKF78.DoSteps | astro/RKF78.cpp:60-78 | the loop computes the doSteps specification |
| Pcdm.Quaternize | astro/PCDM.cpp:17 | the quaternion has the vector as its vector part and a zero scalar |
| Pcdm.ZeroRateInBody | astro/PCDM.cpp:20-21 | a zero rate is zero in the body frame |
| Pcdm.ZeroRateInGlobal | astro/PCDM.cpp:44-46 | a zero rate is zero in the global frame |
| Pcdm.StepAsWritten | astro/PCDM.cpp:7-89 | where both rates have nonzero length, the step keeps the angular rate, ends at et + dt, and keeps a unit attitude quaternion unit |
| Pcdm.StaticBodyStepUndefined | astro/PCDM.cpp:50-52 | as written, a body at rest has a zero quarter-step rate, and the step divides by its length |
| Pcdm.GuardedIncrementMoving | astro/PCDM.cpp:50-54 | for a rate of nonzero length, the guarded increment is the increment as written |
| Pcdm.GuardAgreesAwayFromRest | astro/PCDM.cpp:7-89 | wherever the step as written is defined (both rates of nonzero length), the guarded step equals it |
| Pcdm.UnitAxis | astro/PCDM.cpp:52 | the rotation axis w/\|w\| has unit length |
| Pcdm.RotationIsUnit | astro/PCDM.cpp:53-54 | (axis·sin F, cos F) is a unit quaternion for a unit axis |
| Pcdm.IncrementIsUnit | astro/PCDM.cpp:50-54 | the rotation increment is a unit quaternion |
| Pcdm.GuardedIncrementIsUnit | astro/PCDM.cpp:63-67 | the guarded increment is a unit quaternion for every rate |
| Pcdm.StepPreservesUnitNorm | astro/PCDM.cpp:7-89 | a step keeps a unit attitude quaternion unit |
| Pcdm.StepKeepsRate | astro/PCDM.cpp:82-85 | a step keeps the angular rate and ends at et + dt |
| Pcdm.StaticBodyStaysPut | astro/PCDM.cpp:7-89 | a body at rest keeps its attitude |
| Pcdm.DoStep | astro/PCDM.cpp:7-89 | the step is the guarded step function, keeps the angular rate and ends at et + dt |
| Pcdm.StepsPreserveUnitNorm | astro/PCDM.cpp:91-111 | every attitude doSteps returns from a unit start is unit |
| Pcdm.Advance | astro/PCDM.cpp:101-106 | one pass of the loop keeps the fixed-step driver's loop invariant and adds one sample |
| Pcdm.DoSteps | astro/PCDM.cpp:91-111 | the loop computes the fixed-step driver specification over the guarded step |
| Propagation.RkPropagator.constructor | astro/Propagator.h:49-54 | the propagator holds the order and the ODE |
| Propagation.RkPropagator.DoStep | astro/Propagator.h:64-68 | forwards to RK<N>::doStep with its ODE |
| Propagation.RkPropagator.DoSteps | astro/Propagator.h:70-74 | forwards to RK<N>::doSteps with its ODE |
| Propagation.Rkf45Propagator.constructor | astro/Propagator.h:49-54 | the propagator holds the ODE and the solver |
| Propagation.Rkf45Propagator.DoStep | astro/Propagator.h:64-68 | forwards to RKF45::doStep with the solver's current tolerance |
| Propagation.Rkf45Propagator.DoSteps | astro/Propagator.h:70-74 | forwards to RKF45::doSteps with the solver's current tolerance |
| Propagation.Rkf78Propagator.constructor | astro/Propagator.h:49-54 | the propagator holds the ODE and the solver |
| Propagation.Rkf78Propagator.DoStep | astro/Propagator.h:64-68 | forwards to RKF78::doStep with the solver's current stepper |
| Propagation.Rkf78Propagator.DoSteps | astro/Propagator.h:70-74 | forwards to RKF78::doSteps with the solver's current stepper |
| Observers.RecentreRoundTrip | astro/Observer.cpp:27-37 | for an antisymmetric relative-state query, moving the centre to another body and back (recalculating both times) restores the state |
| Observers.Observer.constructor | astro/Observer.cpp:6-9 | the observer holds the given centre, frame and state |
| Observers.Observer.GetState | astro/Observer.cpp:11-13 | returns the stored state |
| Observers.Observer.GetReferenceFrame | astro/Observer.cpp:15-17 | returns the stored frame |
| Observers.Observer.GetCenterObject | astro/Observer.cpp:19-21 | returns the stored centre body |
| Observers.Observer.SetState | astro/Observer.cpp:23-25 | the state is replaced; the centre and frame are unchanged |
| Observers.Observer.SetCenterObject | astro/Observer.cpp:27-37 | the centre always changes; with recalculation the relative state of new and old centre is added to the state; otherwise the state is kept; the frame is unchanged |
| Observers.Observer.SetReferenceFrame | astro/Observer.cpp:39-46 | with recalculation the state is transformed into the new frame; a failing transform is reported and leaves the observer unchanged; otherwise the frame changes; the centre is unchanged |

## Left out

- SPICE calls are oracles (parameters): `str2et_c`, `et2utc_c`, `deltet_c`, `cidfrm_c`, `tipbod_c`, `tisbod_c`, `invstm_c`, and the relative-state query. So are the mutex locks and `checkError`. `fromString`, `fromJDUTC` and `toJDUTC` are only SPICE calls, and are not modelled.
- Arithmetic is over the reals. IEEE rounding, NaN and infinity are not modelled. `pow(x, 3.0)` and `pow(t, 2.0)` are exact products, and `pow(x, 1/5)` is the fifth-root oracle. `RKF45::eps` is 2⁻⁵², so h_min is 16·2⁻⁵².
- Printing is not modelled: the `<<` operators and RKF45's skip messages.
- `Util.Wrap`: a width of zero (start == end) divides by zero in the source; the model requires start != end. The range lemmas assume start < end. The case start > end is defined but is not characterised beyond the contract of `Util.Wrap` and `WrapPeriodic`.
- The other functions in `astro/Util.cpp` (`raDecToVec`, `vecToRaDec`, `transform`) are not part of this model.
- `OrbitElements`, `Orbit` and `SimpleOrbit` are not part of this model.
- `RungeKutta.DoSteps`, `Pcdm.DoSteps`, `Propagation.RkPropagator.DoSteps`: each requires dt > 0 whenever et0 < et1. With dt ≤ 0 the source loop never reaches et1 and does not terminate.
- `Fehlberg45.RKF45.DoSteps`, `Fehlberg78.RKF78.DoSteps`, and the propagators' `DoSteps` over them take a step budget (`fuel`). Exhausting it is the error `StepBudgetExhausted`, which the source does not have. The source loops until et1 however many steps that takes. The model says nothing about termination.
- `Fehlberg78.RKF78`: the odeint controlled stepper and its `try_step` are an oracle built by a factory from the tolerance. The model checks the retry loop, the 10-try limit, the result and the rebuilding of the stepper on `setTolerance`. It does not model the 7(8) Fehlberg formulae or odeint's step-size control.
- `Odes.Gravity` requires \|r\| ≠ 0. At the centre of attraction the source divides by zero (`Odes.CentreIsSingular`).
- The integrators take the ODE as a function from epoch and state to rates. Once mu is fixed, that function is `Gravity` of the `Ode`'s current mu. The source's propagator holds a reference to the ODE object, so a later `setMu` would change the propagator's rates. The model does not capture that aliasing.
- The ODE's `operator()` with `EphemerisTime` is modelled on the ET value.
- `Pcdm`: the source computes the rate derivative and `qn_dot`, then never uses them. Only the rate derivative is modelled, as `RotRates`, and it is zero. The source's `0.25*wndot*DT` is written `wndot·(DT·0.25)`, which is equal over the reals.
- PCDM is not instantiated with `Propagator`. `Propagator::doStep` takes a `PosState`, so `Propagator<RotODE, PCDM>` does not fit PCDM's `RotState`.
- `Pcdm.Step`, `Pcdm.DoStep`, `Pcdm.DoSteps`: where a rate has length exactly zero, the source divides by zero; the model uses the identity rotation there instead. Everywhere else the guarded step equals the step as written (`Pcdm.GuardAgreesAwayFromRest`). See Findings.
- `Frames.IsJ2000`: `isJ2000()` is called by the state transform but is not defined in any source file of this model. The model assumes that it compares with `createJ2000()` under the frame's `operator==`: centre 0, inertial, frame id 1, any name. Under that assumption another inertial frame is not J2000, and the transform treats it as a rotating frame.
- `Fehlberg45.RKF45`, `Fehlberg78.RKF78`, `Propagation.Rkf45Propagator`, `Propagation.Rkf78Propagator`: RKF45's tolerance and RKF78's tolerance and stepper are static members in the source, one per program. The model makes them fields of one solver object. Propagators share the tolerance only when they hold the same solver object, and a new solver object starts again at 1e-8.
- `Observers.Observer.SetCenterObject`: the relative-state oracle is called with (new centre, old centre, epoch, frame), in the order of the source's call. The model does not assume which way the query's vector points. It only assumes, in `RecentreRoundTrip`, that the two directions cancel.
- `Observers.Observer.SetReferenceFrame`: the source lets the exception of a failing transform escape. Before the exception nothing has been assigned, so the model returns a failure and leaves the observer unchanged.
- The binary `+` and `-` on `EphemerisTime` and `TimeDelta`, and the comparisons the drivers use, are used in the source but declared in a header that is not part of this model. They are modelled from their uses: `et + dt` is the time at ET + dt, and `et2 - et1` is the delta between the two ETs.
- Default arguments are not modelled; every caller passes every argument. In the source, `toISOUTCString` has `prec = 0` and `toJDUTCString` has `prec = 5` (`astro/Time.h:44`, `astro/Time.h:48`). `setCenterObject` and `setReferenceFrame` have `recalcState = false` and `et = EphemerisTime(0)` (`astro/Observer.h:28`, `astro/Observer.h:33`).
- Thrown exceptions are modelled as `Err` or `Fail` values carrying an `AstroError`.
- `States.DivideAsWritten`: the source's `operator/` on states is used only by odeint's error control, which is not part of this model. The model keeps the as-written version and proves the corrected `States.Divide`.

## Findings

| source | as written | input that shows it | evidently intended | confidence | as-written member | corrected member |
|---|---|---|---|---|---|---|
| astro/RK1_4.h:101-105 | the accumulation loop runs i from 0 to 5 whatever N is, and reads f[i] and c[i], which hold only N ≤ 4 entries | any order, e.g. RK<4>: f[4] and c[4] are read past the end | accumulate over the N stages, i < n_stages | high (not executed) | RungeKutta.AccumulateAsWrittenOverruns | RungeKutta.StepExactForConstantRates |
| astro/State.cpp:92 | `operator/` returns (p1.r/p2.r, p1.r/p2.r): the velocity part is the position ratio | p1 = ((1,1,1), (2,2,2)), p2 = PosState(1.0): velocity part (1,1,1) instead of (2,2,2) | (p1.r/p2.r, p1.v/p2.v) | high (not executed) | States.DivideAsWrittenLosesVelocityRatio | States.Divide |
| astro/PCDM.cpp:50-52, 63-65 | the rotation axis is w·(1/\|w\|), with no guard for \|w\| = 0 | any state with angular rate (0,0,0): \|w\| = 0, so the axis divides by zero | a rate of length zero turns the body by nothing, so a body at rest keeps its attitude | medium (not executed) | Pcdm.StaticBodyStepUndefined | Pcdm.StaticBodyStaysPut |
