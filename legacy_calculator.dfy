/**
 * The older generator (Assets/Scripts/TrajectoryCalculator.cs): no parameter
 * validation, no "already at target" case, and constant and deceleration
 * phases written with `maxVelocity` where the validated generator uses the
 * profile's peak velocity.  Modelled as written.
 */
module LegacyCalculator {
  import opened Wrappers
  import opened Geometry
  import opened Params
  import opened Points
  import opened Kinematics
  import opened Calculator
  import opened TrajectoryProperties

  /**
   * Parameters for which the older generator has a value in real
   * arithmetic: no rate and no `maxVelocity` it divides by is zero, and the
   * sampling interval is positive, so the loop ends.  Negative values are
   * allowed: nothing in the older generator rejects them.
   */
  predicate Computable(p: TrajectoryParams) {
    p.acceleration != 0.0 && p.deceleration != 0.0 && p.maxVelocity != 0.0 && p.samplingInterval > 0.0
  }

  /**
   * Phase sizing as the older generator writes it: the constant distance is
   * not clamped at zero and the constant time divides by `maxVelocity`.
   */
  function LegacySizing(p: TrajectoryParams, distance: real, peak: real): Profile
    requires Computable(p)
  {
    if IsTriangular(p, distance) then
      var accelTime := peak / p.acceleration;
      var decelTime := peak / p.deceleration;
      var accelDistance := 0.5 * p.acceleration * accelTime * accelTime;
      LegacyCompleted(p, peak, accelTime, decelTime, accelDistance, distance - accelDistance, distance)
    else
      var accelTime := p.maxVelocity / p.acceleration;
      var decelTime := p.maxVelocity / p.deceleration;
      var accelDistance := 0.5 * p.acceleration * accelTime * accelTime;
      var decelDistance := 0.5 * p.deceleration * decelTime * decelTime;
      LegacyCompleted(p, p.maxVelocity, accelTime, decelTime, accelDistance, decelDistance, distance)
  }

  /** The older constant phase: whatever distance is left, travelled at `maxVelocity`. */
  function LegacyCompleted(p: TrajectoryParams, peakVelocity: real, accelTime: real, decelTime: real,
                           accelDistance: real, decelDistance: real, distance: real): Profile
    requires p.maxVelocity != 0.0
  {
    var constantDistance := distance - accelDistance - decelDistance;
    var constantTime := constantDistance / p.maxVelocity;
    Profile(peakVelocity, accelTime, decelTime, accelDistance, decelDistance,
            constantDistance, constantTime, accelTime + constantTime + decelTime)
  }

  /**
   * Although written differently, the older sizing always yields the same
   * phases as the validated one: a triangular profile leaves exactly nothing
   * for the constant phase, and a trapezoidal one never leaves less than
   * nothing.
   */
  lemma SizingAgrees(p: TrajectoryParams, distance: real, peak: real)
    requires Admissible(p)
    ensures LegacySizing(p, distance, peak) == Sizing(p, distance, peak)
  {
  }

  /** Velocity at time `t`, with `maxVelocity` in the constant and deceleration phases. */
  function LegacyVelocityAt(p: TrajectoryParams, prof: Profile, t: real): real {
    if t <= prof.accelTime then p.acceleration * t
    else if t <= prof.accelTime + prof.constantTime then p.maxVelocity
    else
      var decelT := t - prof.accelTime - prof.constantTime;
      p.maxVelocity - p.deceleration * decelT
  }

  /** Distance from the start point at time `t`, with `maxVelocity` in the later phases. */
  function LegacyDistanceAt(p: TrajectoryParams, prof: Profile, t: real): real {
    if t <= prof.accelTime then 0.5 * p.acceleration * t * t
    else if t <= prof.accelTime + prof.constantTime then
      prof.accelDistance + p.maxVelocity * (t - prof.accelTime)
    else
      var decelT := t - prof.accelTime - prof.constantTime;
      prof.accelDistance + prof.constantDistance + p.maxVelocity * decelT - 0.5 * p.deceleration * decelT * decelT
  }

  function LegacyPointAt(p: TrajectoryParams, prof: Profile, direction: Vec3, t: real): TrajectoryPoint {
    TrajectoryPoint(
      AlongLine(p.startPoint, direction, LegacyDistanceAt(p, prof, t)),
      LegacyVelocityAt(p, prof, t),
      t,
      PhaseAt(prof, t))
  }

  function LegacySamples(p: TrajectoryParams, prof: Profile, direction: Vec3, n: nat): (r: seq<TrajectoryPoint>)
    ensures |r| == n
    ensures forall k :: 0 <= k < n ==>
      r[k] == LegacyPointAt(p, prof, direction, SampleTime(p.samplingInterval, k))
  {
    if n == 0 then []
    else LegacySamples(p, prof, direction, n - 1) + [LegacyPointAt(p, prof, direction, SampleTime(p.samplingInterval, n - 1))]
  }

  /** What the older `GenerateTrajectory` returns: the samples and the terminal point. */
  function LegacyTrajectory(p: TrajectoryParams, distance: real, peak: real): seq<TrajectoryPoint>
    requires Computable(p)
  {
    var prof := LegacySizing(p, distance, peak);
    LegacySamples(p, prof, Direction(p, distance), SampleCount(prof.totalTime, p.samplingInterval))
      + [TrajectoryPoint(p.endPoint, 0.0, prof.totalTime, End)]
  }

  /**
   * The older `GenerateTrajectory`, with `Vector3.Distance` and the
   * triangular `Mathf.Sqrt` supplied as `distance` and `peak`.  It performs
   * no validation, so negative rates and a negative `maxVelocity` go straight
   * into the sizing; only a zero divisor (infinite or NaN times) and a
   * non-positive interval (a loop that need not end) are outside the model.
   */
  method GenerateTrajectory(p: TrajectoryParams, distance: real, peak: real) returns (trajectory: seq<TrajectoryPoint>)
    requires Computable(p)
    ensures trajectory == LegacyTrajectory(p, distance, peak)
  {
    var direction := Normalized(Sub(p.endPoint, p.startPoint), distance);

    var prof := LegacySizePhases(p, distance, peak);
    trajectory := LegacySampleMove(p, prof, direction);
    // the exact final point at total time
    trajectory := trajectory + [TrajectoryPoint(p.endPoint, 0.0, prof.totalTime, End)];
  }

  /** The older phase-sizing steps, ending with the unclamped constant phase. */
  method LegacySizePhases(p: TrajectoryParams, distance: real, peak: real) returns (prof: Profile)
    requires Computable(p)
    ensures prof == LegacySizing(p, distance, peak)
  {
    var accelTime := p.maxVelocity / p.acceleration;
    var decelTime := p.maxVelocity / p.deceleration;
    var accelDistance := 0.5 * p.acceleration * accelTime * accelTime;
    var decelDistance := 0.5 * p.deceleration * decelTime * decelTime;
    var peakVelocity := p.maxVelocity;

    assert IsTriangular(p, distance) <==> accelDistance + decelDistance > distance;
    if accelDistance + decelDistance > distance {
      // triangular profile
      peakVelocity := peak;
      accelTime := peakVelocity / p.acceleration;
      decelTime := peakVelocity / p.deceleration;
      accelDistance := 0.5 * p.acceleration * accelTime * accelTime;
      decelDistance := distance - accelDistance;
    }

    var constantDistance := distance - accelDistance - decelDistance;
    var constantTime := constantDistance / p.maxVelocity;
    var totalTime := accelTime + constantTime + decelTime;
    prof := Profile(peakVelocity, accelTime, decelTime, accelDistance, decelDistance,
                    constantDistance, constantTime, totalTime);
  }

  /** The older sampling loop: from `t = 0` in steps of `samplingInterval` while `t < totalTime`. */
  method LegacySampleMove(p: TrajectoryParams, prof: Profile, direction: Vec3) returns (trajectory: seq<TrajectoryPoint>)
    requires p.samplingInterval > 0.0
    ensures trajectory == LegacySamples(p, prof, direction, SampleCount(prof.totalTime, p.samplingInterval))
  {
    trajectory := [];
    var totalTime := prof.totalTime;
    var k: nat, t := 0, 0.0;
    while t < totalTime
      invariant t == SampleTime(p.samplingInterval, k)
      invariant k > 0 ==> SampleTime(p.samplingInterval, k - 1) < totalTime
      invariant trajectory == LegacySamples(p, prof, direction, k)
      decreases (totalTime - t) / p.samplingInterval
    {
      var point := LegacyPhasePoint(p, prof, direction, t);
      trajectory := trajectory + [point];
      assert trajectory == LegacySamples(p, prof, direction, k + 1);
      StepUsesOneUnit(totalTime, t, p.samplingInterval);
      SampleTimeStep(p.samplingInterval, k);
      k, t := k + 1, t + p.samplingInterval;
    }
    CountReached(totalTime, p.samplingInterval, k);
  }

  /** One pass of the older loop's body. */
  method LegacyPhasePoint(p: TrajectoryParams, prof: Profile, direction: Vec3, t: real) returns (point: TrajectoryPoint)
    ensures point == LegacyPointAt(p, prof, direction, t)
  {
    var accelTime, constantTime := prof.accelTime, prof.constantTime;
    var currentDistance, currentVelocity, phaseType;
    if t <= accelTime {
      currentVelocity := p.acceleration * t;
      currentDistance := 0.5 * p.acceleration * t * t;
      phaseType := Accel;
    } else if t <= accelTime + constantTime {
      currentVelocity := p.maxVelocity;
      currentDistance := prof.accelDistance + p.maxVelocity * (t - accelTime);
      phaseType := Constant;
    } else {
      var decelT := t - accelTime - constantTime;
      currentVelocity := p.maxVelocity - p.deceleration * decelT;
      currentDistance := prof.accelDistance + prof.constantDistance
                         + p.maxVelocity * decelT - 0.5 * p.deceleration * decelT * decelT;
      phaseType := Decel;
    }
    assert currentDistance == LegacyDistanceAt(p, prof, t);
    assert currentVelocity == LegacyVelocityAt(p, prof, t);
    var position := AlongLine(p.startPoint, direction, currentDistance);
    point := TrajectoryPoint(position, currentVelocity, t, phaseType);
  }

  // ---------------------------------------------------------------------
  // Properties

  /**
   * Whatever the parameters, the list is the grid samples below `totalTime`
   * followed by the end point, at rest, at `totalTime`; it is never empty.
   */
  lemma LegacyEndsAtTarget(p: TrajectoryParams, distance: real, peak: real)
    requires Computable(p)
    ensures var r := LegacyTrajectory(p, distance, peak);
      var totalTime := LegacySizing(p, distance, peak).totalTime;
      && |r| == SampleCount(totalTime, p.samplingInterval) + 1
      && (forall k :: 0 <= k < |r| - 1 ==> r[k].time == SampleTime(p.samplingInterval, k) < totalTime)
      && r[|r| - 1] == TrajectoryPoint(p.endPoint, 0.0, totalTime, End)
  {
  }

  /**
   * A negative acceleration, which the validated generator rejects, still
   * gives the older one a move: with acceleration -2, deceleration 2,
   * maxVelocity 5 and 10 units to go, the sizing is trapezoidal with a
   * negative ramp-up time and two seconds in all, and the first sample is
   * already 6 units from the start at velocity 4, tagged as deceleration.
   */
  lemma LegacyNegativeAcceleration(p: TrajectoryParams, peak: real)
    requires p.acceleration == -2.0 && p.deceleration == 2.0 && p.maxVelocity == 5.0
    requires p.samplingInterval > 0.0
    requires 10.0 * 10.0 == SqDist(p.startPoint, p.endPoint)
    ensures ValidateParameters(Some(p)) == Fail(ValidationError(AccelerationPositive, -2.0))
    ensures var prof := LegacySizing(p, 10.0, peak);
      var r := LegacyTrajectory(p, 10.0, peak);
      && !IsTriangular(p, 10.0)
      && prof.accelTime == -2.5 && prof.totalTime == 2.0
      && |r| >= 2
      && r[0].time == 0.0 && r[0].velocity == 4.0 && r[0].phase == Decel
      && LegacyDistanceAt(p, prof, 0.0) == 6.0
      && SqDist(p.startPoint, r[0].position) == 36.0
  {
    var prof := LegacySizing(p, 10.0, peak);
    assert prof.accelTime == -2.5 && prof.constantTime == 2.0 && prof.decelTime == 2.5;
    BelowCount(prof.totalTime, p.samplingInterval, 0);
    AlongLineDistance(p.startPoint, p.endPoint, 10.0, 6.0);
  }

  /**
   * On a trapezoidal move the peak is `maxVelocity`, so the older generator
   * returns exactly what the validated one returns.
   */
  lemma LegacyAgreesWhenTrapezoidal(p: TrajectoryParams, distance: real, peak: real)
    requires Moving(Some(p), distance, peak) && !IsTriangular(p, distance)
    ensures LegacyTrajectory(p, distance, peak) == Trajectory(Some(p), distance, peak)
  {
    Layout(Some(p), distance, peak);
    SizingAgrees(p, distance, peak);
    TrapezoidalShape(p, distance, peak);
    var prof := Sizing(p, distance, peak);
    var n := SampleCount(prof.totalTime, p.samplingInterval);
    forall k | 0 <= k < n
      ensures 0.0 <= SampleTime(p.samplingInterval, k) <= prof.totalTime
    {
      SampleTimeMono(p.samplingInterval, 0, k);
    }
    SamplesAgree(p, prof, Direction(p, distance), distance, n);
  }

  /** At full cruise speed the two generators' sample lists coincide. */
  lemma SamplesAgree(p: TrajectoryParams, prof: Profile, direction: Vec3, distance: real, n: nat)
    requires Consistent(prof, p.acceleration, p.deceleration, distance) && prof.peakVelocity == p.maxVelocity
    requires forall k :: 0 <= k < n ==> 0.0 <= SampleTime(p.samplingInterval, k) <= prof.totalTime
    ensures LegacySamples(p, prof, direction, n) == Samples(p, prof, direction, n)
  {
    forall k | 0 <= k < n
      ensures LegacySamples(p, prof, direction, n)[k] == Samples(p, prof, direction, n)[k]
    {
      PointAgrees(p, prof, direction, distance, SampleTime(p.samplingInterval, k));
    }
  }

  /** At full cruise speed the two generators place a point identically. */
  lemma PointAgrees(p: TrajectoryParams, prof: Profile, direction: Vec3, distance: real, t: real)
    requires Consistent(prof, p.acceleration, p.deceleration, distance) && prof.peakVelocity == p.maxVelocity
    requires 0.0 <= t <= prof.totalTime
    ensures LegacyPointAt(p, prof, direction, t) == PointAt(p, prof, direction, t)
  {
    if prof.accelTime + prof.constantTime < t {
      DecelerationUnclamped(prof, p.acceleration, p.deceleration, distance, t);
      DecelAgrees(p, prof, direction, t);
    } else {
      RampAndCruiseAgree(p, prof, direction, t);
    }
  }

  lemma RampAndCruiseAgree(p: TrajectoryParams, prof: Profile, direction: Vec3, t: real)
    requires prof.peakVelocity == p.maxVelocity && t <= prof.accelTime + prof.constantTime
    ensures LegacyPointAt(p, prof, direction, t) == PointAt(p, prof, direction, t)
  {
  }

  lemma DecelAgrees(p: TrajectoryParams, prof: Profile, direction: Vec3, t: real)
    requires prof.peakVelocity == p.maxVelocity && prof.constantTime >= 0.0
    requires prof.accelTime + prof.constantTime < t
    requires VelocityAt(prof, p.acceleration, p.deceleration, t)
          == prof.peakVelocity - p.deceleration * (t - prof.accelTime - prof.constantTime)
    ensures LegacyPointAt(p, prof, direction, t) == PointAt(p, prof, direction, t)
  {
  }

  /**
   * On a triangular move the older generator overshoots: every sample in
   * the deceleration phase is faster than the validated generator's and
   * farther from the start point.
   */
  lemma LegacyRunsAhead(p: TrajectoryParams, distance: real, peak: real, k: nat)
    requires Moving(Some(p), distance, peak) && IsTriangular(p, distance)
    requires k < |Trajectory(Some(p), distance, peak)| - 1
    requires Trajectory(Some(p), distance, peak)[k].phase == Decel
    ensures var legacy, core := LegacyTrajectory(p, distance, peak), Trajectory(Some(p), distance, peak);
      && |legacy| == |core|
      && legacy[k].velocity > core[k].velocity
      && SqDist(p.startPoint, legacy[k].position) > SqDist(p.startPoint, core[k].position)
  {
    Layout(Some(p), distance, peak);
    SizingAgrees(p, distance, peak);
    TriangularShape(p, distance, peak);
    SampleWithinMove(Some(p), distance, peak, k);
    var prof := Sizing(p, distance, peak);
    var n := SampleCount(prof.totalTime, p.samplingInterval);
    var t := SampleTime(p.samplingInterval, k);
    LegacySampleOf(p, distance, peak, prof, n, k);
    PointRunsAhead(p, prof, distance, t);
    var d := Direction(p, distance);
    var s, ls := DistanceAt(prof, p.acceleration, p.deceleration, t), LegacyDistanceAt(p, prof, t);
    calc {
      SqDist(p.startPoint, PointAt(p, prof, d, t).position);
    == { PointProgress(p, prof, distance, t); }
      s * s;
    < { StrictSquareMono(s, ls); }
      ls * ls;
    == { AlongLineDistance(p.startPoint, p.endPoint, distance, ls); }
      SqDist(p.startPoint, LegacyPointAt(p, prof, d, t).position);
    }
  }

  /**
   * Below `maxVelocity`, a deceleration-phase point of the older generator
   * is faster and farther along than the validated one, by
   * `maxVelocity - peak` and `(maxVelocity - peak) * td`.
   */
  lemma PointRunsAhead(p: TrajectoryParams, prof: Profile, distance: real, t: real)
    requires Consistent(prof, p.acceleration, p.deceleration, distance) && prof.peakVelocity < p.maxVelocity
    requires prof.accelTime + prof.constantTime < t <= prof.totalTime
    ensures LegacyVelocityAt(p, prof, t) > VelocityAt(prof, p.acceleration, p.deceleration, t)
    ensures 0.0 <= DistanceAt(prof, p.acceleration, p.deceleration, t) < LegacyDistanceAt(p, prof, t)
  {
    DecelerationUnclamped(prof, p.acceleration, p.deceleration, distance, t);
    DecelStretch(prof, p.acceleration, p.deceleration, distance, t);
    assert prof.accelDistance >= 0.0 by {
      MulNonneg(p.acceleration, prof.accelTime);
      MulNonneg(0.5 * p.acceleration * prof.accelTime, prof.accelTime);
    }
    DecelRunsAhead(p, prof, t);
  }

  lemma DecelRunsAhead(p: TrajectoryParams, prof: Profile, t: real)
    requires prof.peakVelocity < p.maxVelocity && prof.constantTime >= 0.0
    requires prof.accelTime + prof.constantTime < t
    requires VelocityAt(prof, p.acceleration, p.deceleration, t)
          == prof.peakVelocity - p.deceleration * (t - prof.accelTime - prof.constantTime)
    ensures LegacyVelocityAt(p, prof, t) > VelocityAt(prof, p.acceleration, p.deceleration, t)
    ensures DistanceAt(prof, p.acceleration, p.deceleration, t) < LegacyDistanceAt(p, prof, t)
  {
    var td := t - prof.accelTime - prof.constantTime;
    var v, peak, dc := p.maxVelocity, prof.peakVelocity, p.deceleration;
    var base := prof.accelDistance + prof.constantDistance;
    assert DistanceAt(prof, p.acceleration, dc, t) == base + peak * td - 0.5 * dc * td * td;
    assert LegacyDistanceAt(p, prof, t) == base + v * td - 0.5 * dc * td * td;
    assert peak * td < v * td by {
      MulPos(v - peak, td);
      assert (v - peak) * td == v * td - peak * td;
    }
  }

  lemma StrictSquareMono(x: real, y: real)
    requires 0.0 <= x < y
    ensures x * x < y * y
  {
    MulMonoLeft(x, x, y);
    MulPos(y - x, y);
    calc {
      x * x;
    <= x * y;
    <  { assert (y - x) * y == y * y - x * y; }
      y * y;
    }
  }

  /**
   * A concrete triangular move on which the older generator leaves the
   * segment: from any `start` to `start + (0, 0, 2)` with `maxVelocity` 5,
   * rates 2 and interval 0.5, the sample at `t = 1.5` lies 3.25 past
   * `start`, moving at 4, beyond the end point, while the validated
   * generator puts it 1.75 past `start`, moving at 1.
   */
  lemma LegacyOvershoots(start: Vec3)
    ensures var p := OvershootMove(start);
      var legacy, core := LegacyTrajectory(p, 2.0, 2.0), Trajectory(Some(p), 2.0, 2.0);
      && Measured(p, 2.0, 2.0) && IsTriangular(p, 2.0)
      && |legacy| == 5 && |core| == 5
      && legacy[3] == TrajectoryPoint(Add(start, Vec3(0.0, 0.0, 3.25)), 4.0, 1.5, Decel)
      && core[3] == TrajectoryPoint(Add(start, Vec3(0.0, 0.0, 1.75)), 1.0, 1.5, Decel)
      && SqDist(start, legacy[3].position) == 10.5625
      && SqDist(start, p.endPoint) == 4.0
  {
    OvershootMeasured(start);
    OvershootTriangular(start);
    OvershootLegacyList(start);
    OvershootCoreList(start);
    OvershootOffset(start, 3.25);
    OvershootOffset(start, 2.0);
  }

  /** The move of `LegacyOvershoots`. */
  function OvershootMove(start: Vec3): TrajectoryParams {
    TrajectoryParams(start, Add(start, Vec3(0.0, 0.0, 2.0)), 5.0, 2.0, 2.0, 0.5)
  }

  /** Its phases: one second up to a peak of 2, no cruise, one second down. */
  const OvershootPhases := Profile(2.0, 1.0, 1.0, 1.0, 1.0, 0.0, 0.0, 2.0)

  lemma OvershootOffset(start: Vec3, z: real)
    ensures SqDist(start, Add(start, Vec3(0.0, 0.0, z))) == z * z
  {
  }

  lemma OvershootMeasured(start: Vec3)
    ensures Measured(OvershootMove(start), 2.0, 2.0)
  {
  }

  lemma OvershootTriangular(start: Vec3)
    ensures IsTriangular(OvershootMove(start), 2.0)
  {
  }

  lemma OvershootProfile(start: Vec3)
    ensures Sizing(OvershootMove(start), 2.0, 2.0) == OvershootPhases
  {
  }

  lemma OvershootCount()
    ensures SampleCount(OvershootPhases.totalTime, 0.5) == 4
  {
  }

  /** The `z`-th unit along the move's direction is `z` above `start`. */
  lemma OvershootPosition(start: Vec3, z: real)
    ensures AlongLine(start, Direction(OvershootMove(start), 2.0), z) == Add(start, Vec3(0.0, 0.0, z))
  {
    var direction := Direction(OvershootMove(start), 2.0);
    assert direction.x == 0.0 && direction.y == 0.0 && direction.z == 1.0;
  }

  /** Where the `k`-th older sample sits once the sizing and count are known. */
  lemma LegacySampleOf(p: TrajectoryParams, distance: real, peak: real, prof: Profile, n: nat, k: nat)
    requires Admissible(p) && LegacySizing(p, distance, peak) == prof
    requires SampleCount(prof.totalTime, p.samplingInterval) == n && k < n
    ensures |LegacyTrajectory(p, distance, peak)| == n + 1
    ensures LegacyTrajectory(p, distance, peak)[k]
         == LegacyPointAt(p, prof, Direction(p, distance), SampleTime(p.samplingInterval, k))
  {
  }

  /** Where the `k`-th validated sample sits once the sizing and count are known. */
  lemma CoreSampleOf(p: TrajectoryParams, distance: real, peak: real, prof: Profile, n: nat, k: nat)
    requires Moving(Some(p), distance, peak) && Sizing(p, distance, peak) == prof
    requires SampleCount(prof.totalTime, p.samplingInterval) == n && k < n
    ensures |Trajectory(Some(p), distance, peak)| == n + 1
    ensures Trajectory(Some(p), distance, peak)[k]
         == PointAt(p, prof, Direction(p, distance), SampleTime(p.samplingInterval, k))
  {
  }

  lemma OvershootLegacyList(start: Vec3)
    ensures var legacy := LegacyTrajectory(OvershootMove(start), 2.0, 2.0);
      |legacy| == 5 && legacy[3] == TrajectoryPoint(Add(start, Vec3(0.0, 0.0, 3.25)), 4.0, 1.5, Decel)
  {
    var p := OvershootMove(start);
    SizingAgrees(p, 2.0, 2.0);
    OvershootProfile(start);
    OvershootCount();
    LegacySampleOf(p, 2.0, 2.0, OvershootPhases, 4, 3);
    assert SampleTime(p.samplingInterval, 3) == 1.5;
    OvershootLegacySample(start);
  }

  lemma OvershootCoreList(start: Vec3)
    ensures var core := Trajectory(Some(OvershootMove(start)), 2.0, 2.0);
      |core| == 5 && core[3] == TrajectoryPoint(Add(start, Vec3(0.0, 0.0, 1.75)), 1.0, 1.5, Decel)
  {
    var p := OvershootMove(start);
    OvershootMeasured(start);
    OvershootProfile(start);
    OvershootCount();
    CoreSampleOf(p, 2.0, 2.0, OvershootPhases, 4, 3);
    assert SampleTime(p.samplingInterval, 3) == 1.5;
    OvershootCoreSample(start);
  }

  lemma OvershootLegacySample(start: Vec3)
    ensures LegacyPointAt(OvershootMove(start), OvershootPhases, Direction(OvershootMove(start), 2.0), 1.5)
         == TrajectoryPoint(Add(start, Vec3(0.0, 0.0, 3.25)), 4.0, 1.5, Decel)
  {
    assert LegacyDistanceAt(OvershootMove(start), OvershootPhases, 1.5) == 3.25;
    OvershootPosition(start, 3.25);
  }

  lemma OvershootCoreSample(start: Vec3)
    ensures PointAt(OvershootMove(start), OvershootPhases, Direction(OvershootMove(start), 2.0), 1.5)
         == TrajectoryPoint(Add(start, Vec3(0.0, 0.0, 1.75)), 1.0, 1.5, Decel)
  {
    assert DistanceAt(OvershootPhases, 2.0, 2.0, 1.5) == 1.75;
    assert VelocityAt(OvershootPhases, 2.0, 2.0, 1.5) == 1.0;
    OvershootPosition(start, 1.75);
  }
}
