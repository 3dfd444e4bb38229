/**
 * What the validated generator promises about the trajectories it returns
 * (Assets/Scripts/Core/TrajectoryCalculator.cs): an empty list exactly for
 * rejected parameters, a single point when already at the target, and
 * otherwise samples on the `samplingInterval` grid that start at rest at the
 * start point, never move backwards, never exceed the peak velocity, carry
 * phase tags in order, and end with the exact terminal point.
 */
module TrajectoryProperties {
  import opened Wrappers
  import opened Geometry
  import opened Params
  import opened Points
  import opened Kinematics
  import opened Calculator

  /** Accepted parameters, with `distance` and `peak` measured on them. */
  predicate Moving(parameters: Option<TrajectoryParams>, distance: real, peak: real) {
    && parameters.Some?
    && Admissible(parameters.value)
    && Measured(parameters.value, distance, peak)
    && distance > Epsilon
  }

  /**
   * The layout of a generated move: `n >= 1` grid samples followed by the
   * terminal point, over a profile that satisfies the kinematic facts.
   */
  lemma Layout(parameters: Option<TrajectoryParams>, distance: real, peak: real)
    requires Moving(parameters, distance, peak)
    ensures var p := parameters.value;
      var prof := Sizing(p, distance, peak);
      var n := SampleCount(prof.totalTime, p.samplingInterval);
      var r := Trajectory(parameters, distance, peak);
      && Consistent(prof, p.acceleration, p.deceleration, distance)
      && prof.totalTime > 0.0
      && n >= 1
      && |r| == n + 1
      && (forall k :: 0 <= k < n ==> r[k] == SampleAt(p, prof, Direction(p, distance), k))
      && r[n] == TrajectoryPoint(p.endPoint, 0.0, prof.totalTime, End)
  {
    var p := parameters.value;
    SizingConsistent(p, distance, peak);
    var prof := Sizing(p, distance, peak);
    MulNonneg(p.acceleration, prof.accelTime);
    assert prof.accelTime > 0.0 by {
      PosFactor(prof.accelTime, p.acceleration);
      assert p.acceleration * prof.accelTime == prof.accelTime * p.acceleration;
    }
    assert SampleTime(p.samplingInterval, 0) < prof.totalTime;
  }

  /** Rejected parameters, and only they, give an empty trajectory. */
  lemma EmptyIffInvalid(parameters: Option<TrajectoryParams>, distance: real, peak: real)
    ensures Trajectory(parameters, distance, peak) == [] <==> ValidateParameters(parameters).Fail?
  {
  }

  /** Start and end closer than `Epsilon`: one point at the start, at rest, tagged "end". */
  lemma AlreadyAtTarget(parameters: Option<TrajectoryParams>, distance: real, peak: real)
    requires ValidateParameters(parameters).Pass? && distance <= Epsilon
    ensures var r := Trajectory(parameters, distance, peak);
      && |r| == 1
      && r[0].position == parameters.value.startPoint
      && r[0].velocity == 0.0 && r[0].time == 0.0 && r[0].phase == End
  {
  }

  /** The move begins at the start point, at rest, at time zero, accelerating. */
  lemma StartsAtRest(parameters: Option<TrajectoryParams>, distance: real, peak: real)
    requires Moving(parameters, distance, peak)
    ensures var r := Trajectory(parameters, distance, peak);
      |r| >= 2 && r[0] == TrajectoryPoint(parameters.value.startPoint, 0.0, 0.0, Accel)
  {
    Layout(parameters, distance, peak);
    var p := parameters.value;
    AlongLineZero(p.startPoint, Direction(p, distance));
  }

  /** The move ends with the end point, at rest, at `totalTime`, tagged "end". */
  lemma EndsAtTarget(parameters: Option<TrajectoryParams>, distance: real, peak: real)
    requires Moving(parameters, distance, peak)
    ensures var p := parameters.value;
      var r := Trajectory(parameters, distance, peak);
      var prof := Sizing(p, distance, peak);
      && |r| >= 2
      && r[|r| - 1] == TrajectoryPoint(p.endPoint, 0.0, prof.totalTime, End)
      && prof.totalTime > 0.0
  {
  }

  /**
   * Sample times: the `k`-th point is taken at `k * samplingInterval`, every
   * sample falls strictly before `totalTime`, and the last point is at
   * `totalTime`; so times strictly increase along the list.
   */
  lemma SampleTimesOnGrid(parameters: Option<TrajectoryParams>, distance: real, peak: real)
    requires Moving(parameters, distance, peak)
    ensures var p := parameters.value;
      var r := Trajectory(parameters, distance, peak);
      var total := Sizing(p, distance, peak).totalTime;
      && (forall k :: 0 <= k < |r| - 1 ==> r[k].time == SampleTime(p.samplingInterval, k) < total)
      && r[|r| - 1].time == total
      && (forall i :: 0 <= i < |r| - 1 ==> r[i].time < r[i + 1].time)
      && TimeOrdered(r)
  {
    Layout(parameters, distance, peak);
    var p := parameters.value;
    var r := Trajectory(parameters, distance, peak);
    var n := |r| - 1;
    forall i | 0 <= i < n
      ensures r[i].time < r[i + 1].time
    {
      if i + 1 < n {
        SampleTimeMono(p.samplingInterval, i, i + 1);
      }
    }
  }

  /** Every sample lies in `[0, totalTime)`. */
  lemma SampleWithinMove(parameters: Option<TrajectoryParams>, distance: real, peak: real, k: nat)
    requires Moving(parameters, distance, peak)
    requires k < |Trajectory(parameters, distance, peak)| - 1
    ensures var p := parameters.value;
      0.0 <= SampleTime(p.samplingInterval, k) < Sizing(p, distance, peak).totalTime
  {
  }

  /**
   * Velocity bounds: every point's velocity lies between zero and the
   * profile's peak, which never exceeds `maxVelocity`.
   */
  lemma VelocityWithinBounds(parameters: Option<TrajectoryParams>, distance: real, peak: real)
    requires Moving(parameters, distance, peak)
    ensures var p := parameters.value;
      var r := Trajectory(parameters, distance, peak);
      var prof := Sizing(p, distance, peak);
      && prof.peakVelocity <= p.maxVelocity
      && forall i :: 0 <= i < |r| ==> 0.0 <= r[i].velocity <= prof.peakVelocity
  {
    Layout(parameters, distance, peak);
    var p := parameters.value;
    var r := Trajectory(parameters, distance, peak);
    var prof := Sizing(p, distance, peak);
    if IsTriangular(p, distance) {
      TriangularShape(p, distance, peak);
    } else {
      TrapezoidalShape(p, distance, peak);
    }
    forall i | 0 <= i < |r| - 1
      ensures 0.0 <= r[i].velocity <= prof.peakVelocity
    {
      SampleWithinMove(parameters, distance, peak, i);
      VelocityWithinPeak(prof, p.acceleration, p.deceleration, distance, SampleTime(p.samplingInterval, i));
    }
  }

  /**
   * The samples reach the peak to within one interval's worth of
   * acceleration: the last sample of the acceleration ramp, `j`, moves at
   * least `peakVelocity - acceleration * samplingInterval`.  With
   * `VelocityWithinBounds` this places the fastest sample within that margin
   * of the peak, on triangular and trapezoidal moves alike.
   */
  lemma ReachesPeak(parameters: Option<TrajectoryParams>, distance: real, peak: real) returns (j: nat)
    requires Moving(parameters, distance, peak)
    ensures var p := parameters.value;
      var r := Trajectory(parameters, distance, peak);
      var prof := Sizing(p, distance, peak);
      && j < |r| - 1
      && r[j].phase == Accel
      && r[j + 1].phase != Accel
      && prof.peakVelocity - p.acceleration * p.samplingInterval <= r[j].velocity <= prof.peakVelocity
  {
    var p := parameters.value;
    SizingConsistent(p, distance, peak);
    j := LastRampSample(Sizing(p, distance, peak), p.acceleration, p.deceleration, distance, p.samplingInterval);
    PointOf(parameters, distance, peak, j);
    PointOf(parameters, distance, peak, j + 1);
  }

  /**
   * The last grid time on the acceleration ramp: it is a sample the loop
   * emits, the next grid time is past the ramp, and its velocity is within
   * `a * dt` of the peak.
   */
  lemma LastRampSample(prof: Profile, a: real, dc: real, distance: real, dt: real) returns (j: nat)
    requires Consistent(prof, a, dc, distance) && dt > 0.0
    ensures j < SampleCount(prof.totalTime, dt)
    ensures PhaseAt(prof, SampleTime(dt, j)) == Accel && PhaseAt(prof, SampleTime(dt, j + 1)) != Accel
    ensures prof.peakVelocity - a * dt <= VelocityAt(prof, a, dc, SampleTime(dt, j)) <= prof.peakVelocity
  {
    RampTimesPositive(prof, a, dc, distance);
    j := LastGridBefore(prof.accelTime, dt, prof.totalTime);
    NearPeakOnRamp(prof, a, dc, distance, dt, SampleTime(dt, j));
  }

  /** A point of a moving trajectory is the grid sample at its index, or the terminal point. */
  lemma PointOf(parameters: Option<TrajectoryParams>, distance: real, peak: real, k: nat)
    requires Moving(parameters, distance, peak)
    requires k < |Trajectory(parameters, distance, peak)|
    ensures var p := parameters.value;
      var r := Trajectory(parameters, distance, peak);
      && (k < |r| - 1 ==> r[k] == SampleAt(p, Sizing(p, distance, peak), Direction(p, distance), k))
      && (k == |r| - 1 ==> r[k].phase == End)
  {
  }

  /** The last grid time at or before `x`, which lies less than one interval earlier. */
  lemma LastGridBefore(x: real, dt: real, totalTime: real) returns (j: nat)
    requires 0.0 < x < totalTime && dt > 0.0
    ensures x - dt < SampleTime(dt, j) <= x < SampleTime(dt, j + 1)
    ensures j < SampleCount(totalTime, dt)
  {
    var k := FirstAfter(x, dt);
    j := k - 1;
    SampleTimeStep(dt, j);
    BelowCount(totalTime, dt, j);
  }

  /**
   * Phase tags never go back: "accel", then "constant", then "decel", and
   * the terminal "end".
   */
  lemma PhasesInOrder(parameters: Option<TrajectoryParams>, distance: real, peak: real)
    requires Moving(parameters, distance, peak)
    ensures var r := Trajectory(parameters, distance, peak);
      forall i, j :: 0 <= i <= j < |r| ==> Rank(r[i].phase) <= Rank(r[j].phase)
  {
    Layout(parameters, distance, peak);
    var p := parameters.value;
    var r := Trajectory(parameters, distance, peak);
    var prof := Sizing(p, distance, peak);
    forall i, j | 0 <= i <= j < |r|
      ensures Rank(r[i].phase) <= Rank(r[j].phase)
    {
      if j < |r| - 1 {
        SampleTimeMono(p.samplingInterval, i, j);
        PhaseOrdered(prof, SampleTime(p.samplingInterval, i), SampleTime(p.samplingInterval, j));
      }
    }
  }

  /** The squared distance from the start point of the point at time `t`. */
  lemma PointProgress(p: TrajectoryParams, prof: Profile, distance: real, t: real)
    requires distance > 0.0 && distance * distance == SqDist(p.startPoint, p.endPoint)
    ensures var s := DistanceAt(prof, p.acceleration, p.deceleration, t);
      SqDist(p.startPoint, PointAt(p, prof, Direction(p, distance), t).position) == s * s
  {
  }

  /**
   * Of two points of one move, the later one is at least as far from the
   * start point, and neither is farther from it than the end point.
   */
  lemma PointsInOrder(p: TrajectoryParams, prof: Profile, distance: real, t1: real, t2: real)
    requires distance > 0.0 && distance * distance == SqDist(p.startPoint, p.endPoint)
    requires 0.0 <= DistanceAt(prof, p.acceleration, p.deceleration, t1)
                 <= DistanceAt(prof, p.acceleration, p.deceleration, t2) <= distance
    ensures var d := Direction(p, distance);
      SqDist(p.startPoint, PointAt(p, prof, d, t1).position)
        <= SqDist(p.startPoint, PointAt(p, prof, d, t2).position)
        <= distance * distance
  {
    var s1 := DistanceAt(prof, p.acceleration, p.deceleration, t1);
    var s2 := DistanceAt(prof, p.acceleration, p.deceleration, t2);
    var d := Direction(p, distance);
    calc {
      SqDist(p.startPoint, PointAt(p, prof, d, t1).position);
    == { PointProgress(p, prof, distance, t1); }
      s1 * s1;
    <= { SquareMono(s1, s2); }
      s2 * s2;
    == { PointProgress(p, prof, distance, t2); }
      SqDist(p.startPoint, PointAt(p, prof, d, t2).position);
    }
    calc {
      SqDist(p.startPoint, PointAt(p, prof, d, t2).position);
    == { PointProgress(p, prof, distance, t2); }
      s2 * s2;
    <= { SquareMono(s2, distance); }
      distance * distance;
    }
  }

  /**
   * Monotone progress along the line: a later point is never closer to the
   * start point than an earlier one, and no point is farther from the start
   * than the end point is.
   */
  lemma ProgressNeverDecreases(parameters: Option<TrajectoryParams>, distance: real, peak: real)
    requires Moving(parameters, distance, peak)
    ensures var p := parameters.value;
      var r := Trajectory(parameters, distance, peak);
      && (forall i, j :: 0 <= i <= j < |r| ==>
            SqDist(p.startPoint, r[i].position) <= SqDist(p.startPoint, r[j].position))
      && (forall i :: 0 <= i < |r| ==>
            SqDist(p.startPoint, r[i].position) <= SqDist(p.startPoint, p.endPoint))
  {
    Layout(parameters, distance, peak);
    var p := parameters.value;
    var r := Trajectory(parameters, distance, peak);
    var prof := Sizing(p, distance, peak);
    var dt := p.samplingInterval;
    var n := |r| - 1;
    forall i, j | 0 <= i <= j < |r|
      ensures SqDist(p.startPoint, r[i].position) <= SqDist(p.startPoint, r[j].position)
      ensures SqDist(p.startPoint, r[i].position) <= distance * distance
    {
      if i < n {
        SampleWithinMove(parameters, distance, peak, i);
        if j < n {
          SampleWithinMove(parameters, distance, peak, j);
          SampleTimeMono(dt, i, j);
          ProgressMonotone(prof, p.acceleration, p.deceleration, distance, SampleTime(dt, i), SampleTime(dt, j));
          PointsInOrder(p, prof, distance, SampleTime(dt, i), SampleTime(dt, j));
        } else {
          ProgressMonotone(prof, p.acceleration, p.deceleration, distance, SampleTime(dt, i), SampleTime(dt, i));
          PointsInOrder(p, prof, distance, SampleTime(dt, i), SampleTime(dt, i));
        }
      }
    }
  }

  lemma SquareMono(x: real, y: real)
    requires 0.0 <= x <= y
    ensures x * x <= y * y
  {
  }

  /**
   * A triangular move has no constant-velocity stretch, so no point is
   * tagged "constant", and its peak stays below `maxVelocity`.
   */
  lemma TriangularHasNoConstantPhase(parameters: Option<TrajectoryParams>, distance: real, peak: real)
    requires Moving(parameters, distance, peak)
    requires IsTriangular(parameters.value, distance)
    ensures var p := parameters.value;
      var r := Trajectory(parameters, distance, peak);
      && (forall i :: 0 <= i < |r| ==> r[i].phase != Constant)
      && Sizing(p, distance, peak).peakVelocity < p.maxVelocity
  {
    Layout(parameters, distance, peak);
    TriangularShape(parameters.value, distance, peak);
  }

  /**
   * A trapezoidal move cruises at `maxVelocity`; when its constant stretch
   * lasts at least one sampling interval, some sample is tagged "constant".
   */
  lemma TrapezoidalCruises(parameters: Option<TrajectoryParams>, distance: real, peak: real)
    requires Moving(parameters, distance, peak)
    requires !IsTriangular(parameters.value, distance)
    ensures var p := parameters.value;
      var prof := Sizing(p, distance, peak);
      var r := Trajectory(parameters, distance, peak);
      && prof.peakVelocity == p.maxVelocity
      && (prof.constantTime >= p.samplingInterval ==>
            exists i :: 0 <= i < |r| && r[i].phase == Constant && r[i].velocity == p.maxVelocity)
  {
    Layout(parameters, distance, peak);
    var p := parameters.value;
    var prof := Sizing(p, distance, peak);
    var r := Trajectory(parameters, distance, peak);
    TrapezoidalShape(p, distance, peak);
    var dt := p.samplingInterval;
    if prof.constantTime >= dt {
      var k := FirstAfter(prof.accelTime, dt);
      SampleTimeMono(dt, 0, k);
      assert SampleTime(dt, k) < prof.totalTime;
      BelowCount(prof.totalTime, dt, k);
      assert r[k].phase == Constant;
    }
  }

  /** The first grid time strictly after `x`, which lies at most one interval later. */
  lemma FirstAfter(x: real, dt: real) returns (k: nat)
    requires x >= 0.0 && dt > 0.0
    ensures x < SampleTime(dt, k) <= x + dt
  {
    var y := x / dt;
    DivMul(x, dt);
    DivNonneg(x, dt);
    k := y.Floor + 1;
    GridAfter(x, dt, y, k);
  }

  lemma GridAfter(x: real, dt: real, y: real, k: nat)
    requires dt > 0.0 && y * dt == x && (k as real) - 1.0 <= y < k as real
    ensures x < SampleTime(dt, k) <= x + dt
  {
    MulMonoLeft(dt, (k as real) - 1.0, y);
    MulPos(dt, (k as real) - y);
    assert dt * (k as real) - dt * y == dt * ((k as real) - y);
  }

  lemma DivNonneg(x: real, y: real)
    requires x >= 0.0 && y > 0.0
    ensures x / y >= 0.0
  {
  }

  lemma MulPos(x: real, y: real)
    requires x > 0.0 && y > 0.0
    ensures x * y > 0.0
  {
  }

  /** The only non-negative square root of `r * r` is `r`. */
  lemma SquareRootUnique(x: real, r: real)
    requires x >= 0.0 && r >= 0.0 && x * x == r * r
    ensures x == r
  {
    assert (x - r) * (x + r) == 0.0;
    if x + r > 0.0 {
      ZeroFactor(x - r, x + r);
    }
  }

  /**
   * Measured on the default parameters, the move is 10 units long and the
   * triangular peak is `sqrt(20)`.
   */
  lemma DefaultMeasurements(distance: real, peak: real)
    requires Measured(Default(), distance, peak)
    ensures distance == 10.0 && peak >= 0.0 && peak * peak == 20.0
    ensures Moving(Some(Default()), distance, peak)
  {
    assert distance >= 0.0 && distance * distance == 100.0 by {
      DefaultValues();
    }
    SquareRootUnique(distance, 10.0);
    assert PeakSquared(Default(), 10.0) == 20.0;
  }

  /**
   * The default move is triangular: the nominal ramps to 5 at rate 2 cover
   * 6.25 units each, more than the 10 units available, and the peak
   * `sqrt(20)` stays below the default `maxVelocity` of 5.
   */
  lemma DefaultIsTriangular(peak: real)
    requires peak >= 0.0 && peak * peak == 20.0
    ensures IsTriangular(Default(), 10.0)
    ensures peak < Default().maxVelocity
  {
  }
}
