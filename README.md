# Trapezoidal trajectory generator and player — a Dafny model

The system moves an object in a straight line from `startPoint` to `endPoint` using a
trapezoidal velocity profile. The object speeds up at `acceleration`, cruises at
`maxVelocity` and slows down at `deceleration`. When the two ramps would not fit in the
distance, the profile is triangular instead: it peaks at
`sqrt(2·d·a·dc/(a+dc))` and has no cruise.

The generator validates its parameters. A start already within `1e-6` of the end gives a
single "end" point. Otherwise the generator samples the motion every `samplingInterval`
seconds and appends the exact end point at `totalTime`. A Unity component then plays the
list: on every frame it moves a cursor past the points that are due and places the object
there, and it stops on the last point. An older generator with no validation is kept in
the repository. Its constant and deceleration phases use `maxVelocity` where they should
use the peak.

Modules:

- `Geometry` (`geometry.dfy`): `Vector3` over reals.
  - `SqDist` is a squared distance.
  - `Normalized` takes the magnitude as an argument.
  - `AlongLine` is `start + direction * s`.
- `Params` (`trajectory_params.dfy`): the parameter record and its defaults.
- `Points` (`trajectory_point.dfy`): the point record. Its tag strings become the
  `Phase` datatype.
- `Kinematics` (`kinematics.dfy`):
  - phase sizing (`Sizing`);
  - the closed-form distance, velocity and phase at time `t`;
  - the kinematic facts a sized profile satisfies (`Consistent`).
- `Calculator` (`trajectory_calculator.dfy`): validation and the validated
  `GenerateTrajectory`.
  - The result is specified by `Trajectory`.
  - The method's sizing steps, loop and loop body are `SizePhases`, `SampleMove` and
    `PhasePoint`.
- `TrajectoryProperties` (`trajectory_properties.dfy`): what a generated list looks like.
- `LegacyCalculator` (`legacy_calculator.dfy`): the older generator, as written.
- `Player` (`unity_trajectory.dfy`): the `UnityTrajectory` component as a class.
  - The frame clock is the parameter `now`.
  - `transform.position` is the field `position`.

Arithmetic is over `real`. The sample time is `k * samplingInterval` for the integer step
count `k`. Two values come from foreign float code and are inputs constrained by their
defining equations (`Kinematics.Measured`):

- `distance` is `Vector3.Distance(startPoint, endPoint)`: `distance >= 0` and
  `distance² = |end − start|²`.
- `peak` is the triangular `Mathf.Sqrt`: `peak >= 0` and
  `peak² = 2·distance·a·dc/(a+dc)`.

## Model

| member | source | states |
|---|---|---|
| `Params.DefaultValues` | Assets/Scripts/TrajectoryParams.cs:8-23 | The default start is the origin and the default end is `forward * 10`, ten units away. The defaults are maxVelocity 5, acceleration and deceleration 2, and samplingInterval 0.1. |
| `Points.NameInjective` | Assets/Scripts/Core/TrajectoryCalculator.cs:58-93 | The four tag strings "accel", "constant", "decel", "end" are distinct, so a phase is identified by its tag. |
| `Calculator.ValidateParameters` | Assets/Scripts/Core/TrajectoryCalculator.cs:100-138 | Validation passes iff every check holds, that is iff the parameters are present and all four scalars are positive. On failure it reports a check that fails, every earlier check holds, and the reported value is the offending field. |
| `Calculator.DefaultsPassValidation` | Assets/Scripts/TrajectoryParams.cs:14-23 | The default parameters pass validation. |
| `Calculator.SampleCount` | Assets/Scripts/Core/TrajectoryCalculator.cs:54 | The loop `for (t = 0; t < totalTime; t += dt)` emits exactly the grid times below `totalTime`. The first grid time it does not emit is at or after `totalTime`. |
| `Calculator.CountReached` | Assets/Scripts/Core/TrajectoryCalculator.cs:54 | A step count whose time reaches `totalTime`, and whose previous time is below it, is the number of samples the loop emits. |
| `Calculator.SizePhases` | Assets/Scripts/Core/TrajectoryCalculator.cs:26-50 | The sizing steps compute `Sizing`: nominal ramps to `maxVelocity`, replaced by ramps to the peak when they do not fit, then the clamped constant phase and the total time. |
| `Calculator.PhasePoint` | Assets/Scripts/Core/TrajectoryCalculator.cs:56-89 | One loop pass builds the point at time `t`: its position along the line and its velocity, tag and time. |
| `Calculator.SampleMove` | Assets/Scripts/Core/TrajectoryCalculator.cs:54-90 | The sampling loop appends, in order, the points at `0, dt, 2dt, …` below `totalTime`. |
| `Calculator.GenerateTrajectory` | Assets/Scripts/Core/TrajectoryCalculator.cs:6-95 | Returns `Trajectory`: empty when validation fails, the start point alone when already at the target, and otherwise the samples followed by the exact end point. The reported outcome is `ValidateParameters`. |
| `Kinematics.PeakBelowMax` | Assets/Scripts/Core/TrajectoryCalculator.cs:34-39 | When the nominal ramps do not fit, the square-root peak is strictly below `maxVelocity`. |
| `Kinematics.SizingConsistent` | Assets/Scripts/Core/TrajectoryCalculator.cs:26-50 | Every valid, measured, non-degenerate move is sized consistently, for either shape. Each ramp reaches the peak at its rate. Each ramp distance is `½·rate·time²`. The cruise runs at the peak. The three distances add up to `distance`, and the times add up to `totalTime`. |
| `Kinematics.TriangularShape` | Assets/Scripts/Core/TrajectoryCalculator.cs:34-49 | In the triangular branch the peak is the square-root value and lies in `(0, maxVelocity)`, and the constant distance and time are zero. |
| `Kinematics.TrapezoidalShape` | Assets/Scripts/Core/TrajectoryCalculator.cs:26-31 | In the trapezoidal branch the peak is `maxVelocity` and the ramps take `maxVelocity/a` and `maxVelocity/dc`. The cruise covers the nonnegative remainder at `maxVelocity`. |
| `Kinematics.PhaseOrdered` | Assets/Scripts/Core/TrajectoryCalculator.cs:60-85 | A later time never gets an earlier phase tag. A tie at `accelTime` is acceleration. |
| `Kinematics.ProgressMonotone` | Assets/Scripts/Core/TrajectoryCalculator.cs:60-85 | Over `[0, totalTime]` the distance travelled is nonnegative, never decreases and never exceeds `distance`. |
| `Kinematics.VelocityWithinPeak` | Assets/Scripts/Core/TrajectoryCalculator.cs:60-85 | Over `[0, totalTime]` the velocity lies in `[0, peakVelocity]`. |
| `Kinematics.DecelerationUnclamped` | Assets/Scripts/Core/TrajectoryCalculator.cs:78-80 | Within the move, the zero clamp of the deceleration velocity never engages. |
| `Geometry.AlongLineDistance` | Assets/Scripts/Core/TrajectoryCalculator.cs:23-88 | Walking `s` along the normalised direction puts the point at squared distance `s²` from the start. |
| `TrajectoryProperties.Layout` | Assets/Scripts/Core/TrajectoryCalculator.cs:50-93 | A valid moving input yields `n >= 1` samples at the grid times, then the end point. The profile is consistent and `totalTime > 0`. |
| `TrajectoryProperties.EmptyIffInvalid` | Assets/Scripts/Core/TrajectoryCalculator.cs:11-14 | The result is empty iff validation fails. |
| `TrajectoryProperties.AlreadyAtTarget` | Assets/Scripts/Core/TrajectoryCalculator.cs:16-21 | Valid parameters with `distance <= 1e-6` give exactly one point: the start, at rest, at time 0, tagged "end". |
| `TrajectoryProperties.StartsAtRest` | Assets/Scripts/Core/TrajectoryCalculator.cs:54-66 | A moving trajectory has at least two points. The first is the start point at rest, at time 0, tagged "accel". |
| `TrajectoryProperties.EndsAtTarget` | Assets/Scripts/Core/TrajectoryCalculator.cs:92-93 | The last point is exactly the end point at rest at `totalTime > 0`, tagged "end". |
| `TrajectoryProperties.SampleTimesOnGrid` | Assets/Scripts/Core/TrajectoryCalculator.cs:54-93 | The k-th sample is at `k·dt < totalTime` and the last point is at `totalTime`, so times strictly increase. |
| `TrajectoryProperties.VelocityWithinBounds` | Assets/Scripts/Core/TrajectoryCalculator.cs:60-85 | Every point's velocity lies in `[0, peakVelocity]`, and `peakVelocity <= maxVelocity`. |
| `TrajectoryProperties.ReachesPeak` | Assets/Scripts/Core/TrajectoryCalculator.cs:54-66 | Some sample, the last one tagged "accel" (the next point is not), moves within `acceleration · samplingInterval` of the peak. With `VelocityWithinBounds`, the fastest sample is that close to the square-root peak on triangular moves and to `maxVelocity` on trapezoidal ones. |
| `TrajectoryProperties.LastRampSample` | Assets/Scripts/Core/TrajectoryCalculator.cs:54-66 | The last grid time on the acceleration ramp is one the loop emits, and the next grid time is past the ramp. Its velocity is within `a · dt` of the peak. |
| `Kinematics.NearPeakOnRamp` | Assets/Scripts/Core/TrajectoryCalculator.cs:60-66 | Less than `dt` before the ramp ends, a time is in the acceleration phase and its velocity is within `a · dt` of the peak. |
| `TrajectoryProperties.PhasesInOrder` | Assets/Scripts/Core/TrajectoryCalculator.cs:60-93 | Tags along the list run accel, then constant, then decel, then end, never backwards. |
| `TrajectoryProperties.PointProgress` | Assets/Scripts/Core/TrajectoryCalculator.cs:88 | The point at time `t` lies at squared distance `DistanceAt(t)²` from the start. |
| `TrajectoryProperties.PointsInOrder` | Assets/Scripts/Core/TrajectoryCalculator.cs:60-88 | Of two points whose travelled distances are ordered within `[0, distance]`, the later one is at least as far from the start, and neither is farther than the end. |
| `TrajectoryProperties.ProgressNeverDecreases` | Assets/Scripts/Core/TrajectoryCalculator.cs:60-93 | Along the whole list, including the step to the end point, the distance from the start never decreases, and no point is farther from the start than the end point. |
| `TrajectoryProperties.TriangularHasNoConstantPhase` | Assets/Scripts/Core/TrajectoryCalculator.cs:34-74 | On a triangular move no point is tagged "constant", and the peak is below `maxVelocity`. |
| `TrajectoryProperties.TrapezoidalCruises` | Assets/Scripts/Core/TrajectoryCalculator.cs:31-74 | On a trapezoidal move whose cruise lasts at least one interval, some sample is tagged "constant" and moves at `maxVelocity`. |
| `TrajectoryProperties.DefaultMeasurements` | Assets/Scripts/TrajectoryParams.cs:8-23 | For the defaults the measured distance is 10 and the peak's square is 20, so the default input is a valid, moving one. |
| `TrajectoryProperties.DefaultIsTriangular` | Assets/Scripts/Core/TrajectoryCalculator.cs:26-34 | The default move is triangular (ramps of 12.5 > 10) and peaks below 5. |
| `LegacyCalculator.SizingAgrees` | Assets/Scripts/TrajectoryCalculator.cs:16-34 | The older sizing does not clamp the constant phase and divides by `maxVelocity`, yet it yields the same phases as the validated one. |
| `LegacyCalculator.LegacySizePhases` | Assets/Scripts/TrajectoryCalculator.cs:16-34 | The older sizing steps compute `LegacySizing` for any nonzero rates and `maxVelocity`, negative ones included. |
| `LegacyCalculator.LegacyPhasePoint` | Assets/Scripts/TrajectoryCalculator.cs:39-67 | One pass of the older loop: `maxVelocity` in the constant phase and in the unclamped deceleration formula. |
| `LegacyCalculator.LegacySampleMove` | Assets/Scripts/TrajectoryCalculator.cs:37-68 | The older loop appends the points at `0, dt, 2dt, …` below `totalTime`. |
| `LegacyCalculator.GenerateTrajectory` | Assets/Scripts/TrajectoryCalculator.cs:8-74 | Returns `LegacyTrajectory`: the older samples followed by the end point, with no validation and no "already at target" case. It accepts any nonzero rates and `maxVelocity`, negative ones included, and any positive interval. |
| `LegacyCalculator.LegacyEndsAtTarget` | Assets/Scripts/TrajectoryCalculator.cs:37-71 | For any parameters the older generator accepts, negative ones included, the list is the grid samples below `totalTime` followed by the end point, at rest, at `totalTime`. It is never empty. |
| `LegacyCalculator.LegacyNegativeAcceleration` | Assets/Scripts/TrajectoryCalculator.cs:16-61 | Acceleration −2, deceleration 2, `maxVelocity` 5 and 10 units to go give a trapezoidal sizing with `accelTime` −2.5 and `totalTime` 2. The first sample is already 6 units from the start, at velocity 4, tagged "decel". Validation in the validated generator rejects this input, reporting the acceleration −2. |
| `LegacyCalculator.LegacyAgreesWhenTrapezoidal` | Assets/Scripts/TrajectoryCalculator.cs:42-63 | On a trapezoidal move the older generator returns exactly what the validated one returns. |
| `LegacyCalculator.LegacyRunsAhead` | Assets/Scripts/TrajectoryCalculator.cs:56-61 | On a triangular move every deceleration sample of the older generator is faster than the validated one and strictly farther from the start. |
| `LegacyCalculator.LegacyOvershoots` | Assets/Scripts/TrajectoryCalculator.cs:21-63 | A concrete move 2 units long with `maxVelocity` 5, rates 2 and interval 0.5. Its older sample at `t = 1.5` is 3.25 from the start, past the end point, at velocity 4. The validated sample is at 1.75, at velocity 1. |
| `Player.AdvanceStops` | Assets/Scripts/UnityTrajectory.cs:58-62 | The cursor loop stops on the last point or just before the first point not yet due, and every point it stepped onto was due. |
| `Player.AdvanceMonotone` | Assets/Scripts/UnityTrajectory.cs:56-62 | A later clock never leaves the cursor behind. |
| `Player.CursorAtLatestDuePoint` | Assets/Scripts/UnityTrajectory.cs:56-62 | On a time-ordered list the cursor lands on the latest due point: nothing after it is due, and it is itself due when its starting point was. |
| `Player.PlaybackFinishesAtTotalTime` | Assets/Scripts/UnityTrajectory.cs:58-69 | On a generated move the cursor reaches the end point exactly when the elapsed time reaches `totalTime`. |
| `Player.UnityTrajectory.constructor` | Assets/Scripts/UnityTrajectory.cs:8-16 | A new component has the default parameters, no trajectory, cursor 0, and is not animating. |
| `Player.UnityTrajectory.StartTrajectory` | Assets/Scripts/UnityTrajectory.cs:33-49 | Stores the generated list. It animates iff validation passes. Then the cursor is 0, `startTime = now` and the object is at the first point. Otherwise the cursor, clock and object are unchanged. The cursor invariant is kept. |
| `Player.UnityTrajectory.Update` | Assets/Scripts/UnityTrajectory.cs:51-76 | An idle component is unchanged. Otherwise the cursor moves forward to `Advance`, past due points only. The component keeps animating iff the cursor is before the last point: the next point is then not yet due and the object is at the cursor's point. Otherwise it has snapped to the last point. |
| `Player.UnityTrajectory.StopTrajectory` | Assets/Scripts/UnityTrajectory.cs:79-82 | Clears `isAnimating` and changes nothing else. |

## Left out

- Float32 rounding is not modelled.
  - The loop's accumulated `t += samplingInterval` is the exact `k * samplingInterval`.
  - The source's tolerances become exact equalities and inequalities.
- `Vector3.Distance` and `Mathf.Sqrt` are not computed. They are the inputs `distance` and
  `peak`, tied to their defining equations by `Kinematics.Measured`. The generator methods
  accept any values. The properties assume measured ones.
- `Vector3.normalized` returns zero below Unity's small-magnitude threshold (`1e-5`). The
  model returns zero only for magnitude zero. A move between `1e-6` and `1e-5` long
  would keep the object at the start until the final point in Unity, and it moves along
  the line in the model.
- `Debug.LogError` messages are not modelled. The reason for a rejection is returned as a
  `ValidationError` (check and offending value), not as text.
- `Time.time` is the parameter `now`, and `transform.position` is the field `position`.
- `Start`, the `autoStart` flag and the rest of the MonoBehaviour life cycle are not
  modelled.
- A never-generated (`null`) trajectory list is the empty sequence. The source treats
  both the same way.
- `Params.Default`: the end point `Vector3.forward * 10` is written as the literal
  `(0, 0, 10)`. `Params.DefaultValues` proves it equal to `Scale(Forward, 10)`.
- `LegacyCalculator.GenerateTrajectory`: a null parameter object is not modelled. The source
  reads `parameters.startPoint` at line 12 of `Assets/Scripts/TrajectoryCalculator.cs` with no
  null check, so it throws `NullReferenceException` and returns no list. The model's parameter
  is a `TrajectoryParams` record, which cannot be null.
- `LegacyCalculator.GenerateTrajectory`: requires nonzero rates, a nonzero `maxVelocity` and a
  positive interval. Negative values are modelled.
  - A zero divisor gives infinite or NaN times in float arithmetic. Real arithmetic has no value for them.
  - With a non-positive interval and a positive `totalTime` the loop never ends. With a
    non-positive `totalTime` the source returns only the end point. Neither case is modelled.
  - When the triangular square root has no real value (a negative argument, or
    `acceleration + deceleration = 0`), the source gets NaN. The model leaves `peak` an
    unconstrained input there.
- `LegacyCalculator.LegacySizePhases`: the same domain as `LegacyCalculator.GenerateTrajectory`, for the same reasons.
- `LegacyCalculator.LegacyEndsAtTarget`: the same domain as `LegacyCalculator.GenerateTrajectory`, for the same reasons.
- `Calculator.ValidateParameters`: NaN and infinities are not modelled. The source's `<= 0`
  checks do not reject NaN, because `NaN <= 0` is false. In the source a NaN field therefore
  passes validation: a NaN `maxVelocity` yields a single end point at time NaN, and the
  player jumps straight to it. "Passes iff all four scalars are positive" holds only for the
  real-valued model.
- `LegacyCalculator.LegacySizePhases`: the source declares the triangular `peakVelocity`
  inside the branch. The model keeps it as a local of the method.
- `Calculator.GenerateTrajectory`: the sampling loop and its body are the separate
  methods `SampleMove` and `PhasePoint`. The sizing steps are `SizePhases`.
- `TrajectoryProperties.TrapezoidalCruises`: a trapezoidal move is shown to contain a
  "constant" sample only when its cruise lasts at least one sampling interval. A shorter
  cruise can fall between two samples.
- `Assets/Scripts/TrajectoryChart.cs` is not part of this model. It is chart plumbing
  with no effect on the motion.
- `Assets/Scripts/TrajectoryPoint.cs` is not part of this model. It is an unused
  three-field duplicate of the point struct.

## Findings

| source | as written | input that shows it | evidently intended | confidence | as-written member | corrected member |
|---|---|---|---|---|---|---|
| Assets/Scripts/TrajectoryCalculator.cs:49-61 | The triangular branch lowers the peak, but the constant and deceleration formulas still use `maxVelocity`. | start (0,0,0), end (0,0,2), maxVelocity 5, rates 2, interval 0.5: the sample at t = 1.5 is 3.25 from the start, past the end at 2, moving at 4. | Use the profile's peak velocity, as Assets/Scripts/Core/TrajectoryCalculator.cs:72-83 does. Every point then stays between start and end, and progress never decreases. | not executed | `LegacyCalculator.LegacyOvershoots`, `LegacyCalculator.LegacyRunsAhead` | `Calculator.GenerateTrajectory`, `TrajectoryProperties.ProgressNeverDecreases` |
