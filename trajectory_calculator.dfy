/**
 * The validated trajectory generator (Assets/Scripts/Core/TrajectoryCalculator.cs):
 * parameter validation, the degenerate "already at target" case, phase
 * sizing, sampling every `samplingInterval` seconds and the exact terminal
 * point.
 */
module Calculator {
  import opened Wrappers
  import opened Geometry
  import opened Params
  import opened Points
  import opened Kinematics

  /** A start and end this close are "already at target". */
  const Epsilon: real := 0.000001

  // ---------------------------------------------------------------------
  // Validation

  /** The validator's checks, in the order it runs them. */
  datatype Check =
    | NotNull
    | AccelerationPositive
    | DecelerationPositive
    | SamplingIntervalPositive
    | MaxVelocityPositive

  function Order(c: Check): nat {
    match c
    case NotNull => 0
    case AccelerationPositive => 1
    case DecelerationPositive => 2
    case SamplingIntervalPositive => 3
    case MaxVelocityPositive => 4
  }

  predicate Holds(parameters: Option<TrajectoryParams>, c: Check) {
    match c
    case NotNull => parameters.Some?
    case AccelerationPositive => parameters.None? || parameters.value.acceleration > 0.0
    case DecelerationPositive => parameters.None? || parameters.value.deceleration > 0.0
    case SamplingIntervalPositive => parameters.None? || parameters.value.samplingInterval > 0.0
    case MaxVelocityPositive => parameters.None? || parameters.value.maxVelocity > 0.0
  }

  /** The field value a failed check reports in its log message. */
  function Reported(p: TrajectoryParams, c: Check): real {
    match c
    case NotNull => 0.0
    case AccelerationPositive => p.acceleration
    case DecelerationPositive => p.deceleration
    case SamplingIntervalPositive => p.samplingInterval
    case MaxVelocityPositive => p.maxVelocity
  }

  /** The reason logged for rejected parameters. */
  datatype ValidationError = ValidationError(check: Check, value: real)

  datatype Outcome = Pass | Fail(error: ValidationError)

  /**
   * `ValidateParameters`: the checks run in a fixed order and the first one
   * that fails is the one reported.
   */
  function ValidateParameters(parameters: Option<TrajectoryParams>): (r: Outcome)
    ensures r.Pass? <==> forall c :: Holds(parameters, c)
    ensures r.Pass? <==> parameters.Some? && Admissible(parameters.value)
    ensures r.Fail? ==>
      && !Holds(parameters, r.error.check)
      && (forall c :: Order(c) < Order(r.error.check) ==> Holds(parameters, c))
      && (parameters.Some? ==> r.error.value == Reported(parameters.value, r.error.check))
  {
    if parameters.None? then
      assert !Holds(parameters, NotNull);
      Fail(ValidationError(NotNull, 0.0))
    else
      var p := parameters.value;
      if p.acceleration <= 0.0 then
        assert !Holds(parameters, AccelerationPositive);
        Fail(ValidationError(AccelerationPositive, p.acceleration))
      else if p.deceleration <= 0.0 then
        assert !Holds(parameters, DecelerationPositive);
        Fail(ValidationError(DecelerationPositive, p.deceleration))
      else if p.samplingInterval <= 0.0 then
        assert !Holds(parameters, SamplingIntervalPositive);
        Fail(ValidationError(SamplingIntervalPositive, p.samplingInterval))
      else if p.maxVelocity <= 0.0 then
        assert !Holds(parameters, MaxVelocityPositive);
        Fail(ValidationError(MaxVelocityPositive, p.maxVelocity))
      else
        AllChecksHold(parameters);
        Pass
  }

  lemma AllChecksHold(parameters: Option<TrajectoryParams>)
    requires parameters.Some? && Admissible(parameters.value)
    ensures forall c :: Holds(parameters, c)
  {
  }

  /** The default parameters pass every check. */
  lemma DefaultsPassValidation()
    ensures ValidateParameters(Some(Default())) == Pass
  {
  }

  // ---------------------------------------------------------------------
  // Sampling

  /** The time of the `k`-th sample: the loop's `t` after `k` steps of `dt`. */
  function SampleTime(dt: real, k: nat): real {
    (k as real) * dt
  }

  lemma SampleTimeStep(dt: real, k: nat)
    ensures SampleTime(dt, k + 1) == SampleTime(dt, k) + dt
  {
  }

  lemma SampleTimeMono(dt: real, i: nat, j: nat)
    requires dt > 0.0 && i <= j
    ensures 0.0 <= SampleTime(dt, i) <= SampleTime(dt, j)
    ensures i < j ==> SampleTime(dt, i) < SampleTime(dt, j)
  {
  }

  lemma GridBelow(totalTime: real, dt: real, n: nat)
    requires dt > 0.0 && (n > 0 ==> SampleTime(dt, n - 1) < totalTime)
    ensures forall k: nat :: k < n ==> SampleTime(dt, k) < totalTime
  {
  }

  /**
   * How many samples the loop `for (t = 0; t < totalTime; t += dt)` emits:
   * every grid time before it is below `totalTime`, the one it stops at is not.
   */
  function SampleCount(totalTime: real, dt: real): (n: nat)
    requires dt > 0.0
    ensures totalTime <= SampleTime(dt, n)
    ensures forall k: nat :: k < n ==> SampleTime(dt, k) < totalTime
  {
    if totalTime <= 0.0 then 0
    else
      var x := totalTime / dt;
      var q := x.Floor;
      assert q >= 0 && q as real <= x < q as real + 1.0;
      assert x * dt == totalTime by { DivMul(totalTime, dt); }
      Bracket(dt, x, q as real, totalTime);
      assert (q + 1) as real == q as real + 1.0;
      if SampleTime(dt, q) < totalTime then
        GridBelow(totalTime, dt, q + 1);
        q + 1
      else
        GridBelow(totalTime, dt, q);
        q
  }

  /** Between the floor of `x` and the next integer, scaled by `dt`. */
  lemma Bracket(dt: real, x: real, q: real, total: real)
    requires dt > 0.0 && x * dt == total && q <= x < q + 1.0
    ensures q * dt <= total <= (q + 1.0) * dt
  {
    calc {
      q * dt;
    == dt * q;
    <= { MulMonoLeft(dt, q, x); }
      dt * x;
    == total;
    }
    calc {
      total;
    == dt * x;
    <= { MulMonoLeft(dt, x, q + 1.0); }
      dt * (q + 1.0);
    == (q + 1.0) * dt;
    }
  }

  /** A grid time below `totalTime` is one the loop reaches. */
  lemma BelowCount(totalTime: real, dt: real, k: nat)
    requires dt > 0.0 && SampleTime(dt, k) < totalTime
    ensures k < SampleCount(totalTime, dt)
  {
  }

  /** The loop stops exactly after `SampleCount` samples. */
  lemma CountReached(totalTime: real, dt: real, k: nat)
    requires dt > 0.0 && totalTime <= SampleTime(dt, k)
    requires k > 0 ==> SampleTime(dt, k - 1) < totalTime
    ensures k == SampleCount(totalTime, dt)
  {
    var n := SampleCount(totalTime, dt);
    if n < k {
      SampleTimeMono(dt, n, k - 1);
    }
  }

  /** One step of `dt` uses up one unit of the remaining time measured in steps. */
  lemma StepUsesOneUnit(totalTime: real, t: real, dt: real)
    requires dt > 0.0
    ensures (totalTime - (t + dt)) / dt == (totalTime - t) / dt - 1.0
  {
    var q1, q2 := (totalTime - t) / dt, (totalTime - (t + dt)) / dt;
    DivMul(totalTime - t, dt);
    DivMul(totalTime - (t + dt), dt);
    assert (q2 - q1 + 1.0) * dt == q2 * dt - q1 * dt + dt;
    assert (q2 - q1 + 1.0) * dt == 0.0;
    ZeroFactor(q2 - q1 + 1.0, dt);
  }

  lemma ZeroFactor(x: real, y: real)
    requires y > 0.0 && x * y == 0.0
    ensures x == 0.0
  {
  }

  /** Where the move is, how fast it goes and in which phase, at time `t`. */
  function PointAt(p: TrajectoryParams, prof: Profile, direction: Vec3, t: real): TrajectoryPoint {
    TrajectoryPoint(
      AlongLine(p.startPoint, direction, DistanceAt(prof, p.acceleration, p.deceleration, t)),
      VelocityAt(prof, p.acceleration, p.deceleration, t),
      t,
      PhaseAt(prof, t))
  }

  /** The `k`-th sample of a move: the point at time `k * dt`. */
  function SampleAt(p: TrajectoryParams, prof: Profile, direction: Vec3, k: nat): TrajectoryPoint {
    PointAt(p, prof, direction, SampleTime(p.samplingInterval, k))
  }

  /** The first `n` samples, in the order the loop appends them. */
  function Samples(p: TrajectoryParams, prof: Profile, direction: Vec3, n: nat): (r: seq<TrajectoryPoint>)
    ensures |r| == n
    ensures forall k :: 0 <= k < n ==> r[k] == SampleAt(p, prof, direction, k)
  {
    if n == 0 then [] else Samples(p, prof, direction, n - 1) + [SampleAt(p, prof, direction, n - 1)]
  }

  // ---------------------------------------------------------------------
  // The generator

  /** The unit direction from start to end, given the distance between them. */
  function Direction(p: TrajectoryParams, distance: real): Vec3 {
    Normalized(Sub(p.endPoint, p.startPoint), distance)
  }

  /**
   * What `GenerateTrajectory` returns: nothing for rejected parameters, the
   * start point alone when already at the target, and otherwise the samples
   * followed by the exact terminal point.
   */
  function Trajectory(parameters: Option<TrajectoryParams>, distance: real, peak: real): seq<TrajectoryPoint> {
    if ValidateParameters(parameters).Fail? then []
    else
      var p := parameters.value;
      if distance <= Epsilon then [TrajectoryPoint(p.startPoint, 0.0, 0.0, End)]
      else
        var prof := Sizing(p, distance, peak);
        Samples(p, prof, Direction(p, distance), SampleCount(prof.totalTime, p.samplingInterval))
          + [TrajectoryPoint(p.endPoint, 0.0, prof.totalTime, End)]
  }

  /**
   * The phase-sizing steps of `GenerateTrajectory`: nominal ramps to
   * `maxVelocity`, reassigned to ramps to the peak `peak` when they do not fit.
   */
  method SizePhases(p: TrajectoryParams, distance: real, peak: real) returns (prof: Profile)
    requires p.acceleration > 0.0 && p.deceleration > 0.0
    ensures prof == Sizing(p, distance, peak)
  {
    var accelTime := p.maxVelocity / p.acceleration;
    var decelTime := p.maxVelocity / p.deceleration;
    var accelDistance := 0.5 * p.acceleration * accelTime * accelTime;
    var decelDistance := 0.5 * p.deceleration * decelTime * decelTime;
    var peakVelocity := p.maxVelocity;

    assert IsTriangular(p, distance) <==> accelDistance + decelDistance > distance;
    if accelDistance + decelDistance > distance {
      // triangular profile
      peakVelocity := peak;
      accelTime := peakVelocity / p.acceleration;
      decelTime := peakVelocity / p.deceleration;
      accelDistance := 0.5 * p.acceleration * accelTime * accelTime;
      decelDistance := distance - accelDistance;
    }

    var constantDistance := Max(0.0, distance - accelDistance - decelDistance);
    var constantTime := if peakVelocity > 0.0 then constantDistance / peakVelocity else 0.0;
    var totalTime := accelTime + constantTime + decelTime;
    prof := Profile(peakVelocity, accelTime, decelTime, accelDistance, decelDistance,
                    constantDistance, constantTime, totalTime);
  }

  /**
   * One pass of the sampling loop's body: the phase `t` falls in decides the
   * velocity and the distance travelled along `direction`.
   */
  method PhasePoint(p: TrajectoryParams, prof: Profile, direction: Vec3, t: real) returns (point: TrajectoryPoint)
    ensures point == PointAt(p, prof, direction, t)
  {
    var accelTime, constantTime := prof.accelTime, prof.constantTime;
    var accelDistance, constantDistance, peakVelocity := prof.accelDistance, prof.constantDistance, prof.peakVelocity;
    var currentDistance, currentVelocity, phaseType;
    if t <= accelTime {
      currentVelocity := p.acceleration * t;
      currentDistance := 0.5 * p.acceleration * t * t;
      phaseType := Accel;
    } else if t <= accelTime + constantTime {
      var tc := t - accelTime;
      currentVelocity := peakVelocity;
      currentDistance := accelDistance + peakVelocity * tc;
      phaseType := Constant;
    } else {
      var td := t - accelTime - constantTime;
      currentVelocity := Max(0.0, peakVelocity - p.deceleration * td);
      currentDistance := accelDistance + constantDistance + peakVelocity * td - 0.5 * p.deceleration * td * td;
      phaseType := Decel;
    }
    assert currentDistance == DistanceAt(prof, p.acceleration, p.deceleration, t);
    assert currentVelocity == VelocityAt(prof, p.acceleration, p.deceleration, t);
    var position := AlongLine(p.startPoint, direction, currentDistance);
    point := TrajectoryPoint(position, currentVelocity, t, phaseType);
  }

  /**
   * The sampling loop of `GenerateTrajectory`: from `t = 0` in steps of
   * `samplingInterval` while `t < totalTime`, the phase the time falls in
   * decides the velocity and the distance along `direction`.
   */
  method SampleMove(p: TrajectoryParams, prof: Profile, direction: Vec3) returns (trajectory: seq<TrajectoryPoint>)
    requires p.samplingInterval > 0.0
    ensures trajectory == Samples(p, prof, direction, SampleCount(prof.totalTime, p.samplingInterval))
  {
    trajectory := [];
    var totalTime := prof.totalTime;

    // `t` steps by `samplingInterval`; `k` counts the steps, so `t == k * samplingInterval`
    var k: nat, t := 0, 0.0;
    while t < totalTime
      invariant t == SampleTime(p.samplingInterval, k)
      invariant k > 0 ==> SampleTime(p.samplingInterval, k - 1) < totalTime
      invariant trajectory == Samples(p, prof, direction, k)
      decreases (totalTime - t) / p.samplingInterval
    {
      var point := PhasePoint(p, prof, direction, t);
      trajectory := trajectory + [point];
      assert trajectory == Samples(p, prof, direction, k + 1);
      StepUsesOneUnit(totalTime, t, p.samplingInterval);
      SampleTimeStep(p.samplingInterval, k);
      k, t := k + 1, t + p.samplingInterval;
    }

    CountReached(totalTime, p.samplingInterval, k);
  }

  /**
   * `GenerateTrajectory`, with `Vector3.Distance(startPoint, endPoint)` and the
   * triangular `Mathf.Sqrt` supplied as `distance` and `peak`; the error it
   * logs is returned as `report`.
   */
  method GenerateTrajectory(parameters: Option<TrajectoryParams>, distance: real, peak: real)
    returns (trajectory: seq<TrajectoryPoint>, report: Outcome)
    ensures report == ValidateParameters(parameters)
    ensures trajectory == Trajectory(parameters, distance, peak)
  {
    trajectory := [];
    report := ValidateParameters(parameters);
    if report.Fail? {
      return;
    }
    var p := parameters.value;

    if distance <= Epsilon {
      // already at target
      trajectory := trajectory + [TrajectoryPoint(p.startPoint, 0.0, 0.0, End)];
      return;
    }

    var direction := Normalized(Sub(p.endPoint, p.startPoint), distance);
    var prof := SizePhases(p, distance, peak);
    trajectory := SampleMove(p, prof, direction);
    // the exact final point at total time
    trajectory := trajectory + [TrajectoryPoint(p.endPoint, 0.0, prof.totalTime, End)];
  }
}
