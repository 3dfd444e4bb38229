/**
 * Phase sizing and the closed-form motion of the validated generator
 * (Assets/Scripts/Core/TrajectoryCalculator.cs): how long and how far each of
 * the acceleration, constant-velocity and deceleration phases lasts, and the
 * distance, velocity and phase tag at any time `t` of the move.
 */
module Kinematics {
  import opened Geometry
  import opened Params
  import opened Points

  /** All four scalars strictly positive: what validation lets through. */
  predicate Admissible(p: TrajectoryParams) {
    p.acceleration > 0.0 && p.deceleration > 0.0 && p.samplingInterval > 0.0 && p.maxVelocity > 0.0
  }

  /** The argument of the square root that gives the triangular peak velocity. */
  function PeakSquared(p: TrajectoryParams, distance: real): real
    requires p.acceleration > 0.0 && p.deceleration > 0.0
  {
    2.0 * distance * p.acceleration * p.deceleration / (p.acceleration + p.deceleration)
  }

  /**
   * The two foreign float results the calculators use, given by their
   * defining equations: `distance` is `Vector3.Distance(startPoint, endPoint)`
   * and `peak` is `Mathf.Sqrt(PeakSquared(p, distance))`.
   */
  predicate Measured(p: TrajectoryParams, distance: real, peak: real) {
    && distance >= 0.0
    && distance * distance == SqDist(p.startPoint, p.endPoint)
    && (p.acceleration > 0.0 && p.deceleration > 0.0 ==>
          peak >= 0.0 && peak * peak == PeakSquared(p, distance))
  }

  /** The sizes of the three phases of one move. */
  datatype Profile = Profile(
    peakVelocity: real,
    accelTime: real,
    decelTime: real,
    accelDistance: real,
    decelDistance: real,
    constantDistance: real,
    constantTime: real,
    totalTime: real)

  function Max(x: real, y: real): real {
    if x >= y then x else y
  }

  /**
   * The shape test: ramping up to `maxVelocity` and back down takes more than
   * `distance`, so the profile is triangular.
   */
  predicate IsTriangular(p: TrajectoryParams, distance: real)
    requires p.acceleration != 0.0 && p.deceleration != 0.0
  {
    var accelTime := p.maxVelocity / p.acceleration;
    var decelTime := p.maxVelocity / p.deceleration;
    0.5 * p.acceleration * accelTime * accelTime + 0.5 * p.deceleration * decelTime * decelTime > distance
  }

  /** The constant phase and the total time, once the ramps are sized. */
  function Completed(peakVelocity: real, accelTime: real, decelTime: real,
                     accelDistance: real, decelDistance: real, distance: real): Profile
  {
    var constantDistance := Max(0.0, distance - accelDistance - decelDistance);
    var constantTime := if peakVelocity > 0.0 then constantDistance / peakVelocity else 0.0;
    Profile(peakVelocity, accelTime, decelTime, accelDistance, decelDistance,
            constantDistance, constantTime, accelTime + constantTime + decelTime)
  }

  /**
   * Phase sizing: nominal ramps to `maxVelocity`, replaced by ramps to the
   * triangular peak `peak` when the nominal ramps do not fit in `distance`.
   */
  function Sizing(p: TrajectoryParams, distance: real, peak: real): Profile
    requires p.acceleration > 0.0 && p.deceleration > 0.0
  {
    if IsTriangular(p, distance) then
      var accelTime := peak / p.acceleration;
      var decelTime := peak / p.deceleration;
      var accelDistance := 0.5 * p.acceleration * accelTime * accelTime;
      Completed(peak, accelTime, decelTime, accelDistance, distance - accelDistance, distance)
    else
      var accelTime := p.maxVelocity / p.acceleration;
      var decelTime := p.maxVelocity / p.deceleration;
      var accelDistance := 0.5 * p.acceleration * accelTime * accelTime;
      var decelDistance := 0.5 * p.deceleration * decelTime * decelTime;
      Completed(p.maxVelocity, accelTime, decelTime, accelDistance, decelDistance, distance)
  }

  /**
   * The kinematic facts a sized profile satisfies: each ramp reaches the peak
   * at its rate, each ramp distance is that of a uniform ramp, the constant
   * phase is travelled at the peak, and the three distances add up to the
   * whole move.
   */
  ghost predicate Consistent(prof: Profile, a: real, dc: real, distance: real) {
    && a > 0.0 && dc > 0.0 && distance > 0.0
    && prof.peakVelocity > 0.0
    && prof.peakVelocity == a * prof.accelTime
    && prof.peakVelocity == dc * prof.decelTime
    && prof.accelDistance == 0.5 * a * prof.accelTime * prof.accelTime
    && prof.decelDistance == 0.5 * dc * prof.decelTime * prof.decelTime
    && prof.constantDistance >= 0.0
    && prof.constantTime >= 0.0
    && prof.constantDistance == prof.peakVelocity * prof.constantTime
    && prof.accelDistance + prof.constantDistance + prof.decelDistance == distance
    && prof.totalTime == prof.accelTime + prof.constantTime + prof.decelTime
  }

  // Real-arithmetic steps, named so that proofs can cite them.

  lemma MulMonoLeft(c: real, x: real, y: real)
    requires c >= 0.0 && x <= y
    ensures c * x <= c * y
  {
  }

  lemma MulNonneg(x: real, y: real)
    requires x >= 0.0 && y >= 0.0
    ensures x * y >= 0.0
  {
  }

  lemma PosFactor(x: real, y: real)
    requires y > 0.0 && x * y > 0.0
    ensures x > 0.0
  {
  }

  lemma DivMul(y: real, z: real)
    requires z != 0.0
    ensures (y / z) * z == y
  {
  }

  /** The triangular peak is strictly below the nominal `maxVelocity`. */
  lemma PeakBelowMax(p: TrajectoryParams, distance: real, peak: real)
    requires p.acceleration > 0.0 && p.deceleration > 0.0 && p.maxVelocity > 0.0
    requires peak >= 0.0 && peak * peak == PeakSquared(p, distance)
    requires IsTriangular(p, distance)
    ensures peak < p.maxVelocity
  {
    var a, dc, v := p.acceleration, p.deceleration, p.maxVelocity;
    assert v * v > peak * peak by {
      RampsCompared(a, dc, distance, v, peak);
    }
    assert (v - peak) * (v + peak) > 0.0 by {
      assert (v - peak) * (v + peak) == v * v - peak * peak;
    }
    PosFactor(v - peak, v + peak);
  }

  /**
   * Nominal ramps longer than `distance`, exact ramps equal to it: the
   * nominal velocity's square is the larger.
   */
  lemma RampsCompared(a: real, dc: real, distance: real, v: real, peak: real)
    requires a > 0.0 && dc > 0.0
    requires peak * peak == 2.0 * distance * a * dc / (a + dc)
    requires 0.5 * a * (v / a) * (v / a) + 0.5 * dc * (v / dc) * (v / dc) > distance
    ensures v * v > peak * peak
  {
  }

  /**
   * Every valid, non-degenerate move is sized consistently, whichever shape
   * is chosen.
   */
  lemma SizingConsistent(p: TrajectoryParams, distance: real, peak: real)
    requires Admissible(p) && Measured(p, distance, peak) && distance > 0.0
    ensures Consistent(Sizing(p, distance, peak), p.acceleration, p.deceleration, distance)
  {
    if IsTriangular(p, distance) {
      TriangularConsistent(p, distance, peak);
    } else {
      TrapezoidalConsistent(p, distance, peak);
    }
  }

  lemma TriangularConsistent(p: TrajectoryParams, distance: real, peak: real)
    requires p.acceleration > 0.0 && p.deceleration > 0.0 && distance > 0.0
    requires peak >= 0.0 && peak * peak == PeakSquared(p, distance)
    requires IsTriangular(p, distance)
    ensures Consistent(Sizing(p, distance, peak), p.acceleration, p.deceleration, distance)
  {
    TriangularSizing(p, distance, peak);
    RampsConsistent(p.acceleration, p.deceleration, peak, distance);
  }

  lemma TriangularSizing(p: TrajectoryParams, distance: real, peak: real)
    requires p.acceleration > 0.0 && p.deceleration > 0.0
    requires IsTriangular(p, distance)
    ensures Sizing(p, distance, peak)
         == Ramps(p.acceleration, p.deceleration, peak, peak / p.acceleration, peak / p.deceleration, distance)
  {
  }

  /** The triangular profile: ramps up and down with nothing in between. */
  function Ramps(a: real, dc: real, peak: real, aT: real, dT: real, distance: real): Profile {
    var aD := 0.5 * a * aT * aT;
    Profile(peak, aT, dT, aD, distance - aD, 0.0, 0.0, aT + dT)
  }

  lemma RampsConsistent(a: real, dc: real, peak: real, distance: real)
    requires a > 0.0 && dc > 0.0 && distance > 0.0
    requires peak >= 0.0 && peak * peak == 2.0 * distance * a * dc / (a + dc)
    ensures Consistent(Ramps(a, dc, peak, peak / a, peak / dc, distance), a, dc, distance)
  {
  }

  lemma TrapezoidalConsistent(p: TrajectoryParams, distance: real, peak: real)
    requires p.acceleration > 0.0 && p.deceleration > 0.0 && p.maxVelocity > 0.0 && distance > 0.0
    requires !IsTriangular(p, distance)
    ensures Consistent(Sizing(p, distance, peak), p.acceleration, p.deceleration, distance)
  {
  }

  /**
   * Shape selection, triangular branch: the peak is the square-root value and
   * lies strictly below `maxVelocity`, and there is no constant phase.
   */
  lemma TriangularShape(p: TrajectoryParams, distance: real, peak: real)
    requires Admissible(p) && Measured(p, distance, peak) && distance > 0.0
    requires IsTriangular(p, distance)
    ensures var prof := Sizing(p, distance, peak);
      && prof.peakVelocity == peak
      && peak * peak == PeakSquared(p, distance)
      && 0.0 < prof.peakVelocity < p.maxVelocity
      && prof.constantDistance == 0.0
      && prof.constantTime == 0.0
  {
    PeakBelowMax(p, distance, peak);
    SizingConsistent(p, distance, peak);
  }

  /**
   * Shape selection, trapezoidal branch: the peak is `maxVelocity` and the
   * constant phase covers what the nominal ramps leave of the distance.
   */
  lemma TrapezoidalShape(p: TrajectoryParams, distance: real, peak: real)
    requires Admissible(p) && Measured(p, distance, peak) && distance > 0.0
    requires !IsTriangular(p, distance)
    ensures var prof := Sizing(p, distance, peak);
      && prof.peakVelocity == p.maxVelocity
      && prof.accelTime == p.maxVelocity / p.acceleration
      && prof.decelTime == p.maxVelocity / p.deceleration
      && prof.constantDistance == distance - prof.accelDistance - prof.decelDistance >= 0.0
      && prof.constantTime == prof.constantDistance / p.maxVelocity
  {
  }

  /** The phase a sample at time `t` belongs to; a tie at `accelTime` is acceleration. */
  function PhaseAt(prof: Profile, t: real): Phase {
    if t <= prof.accelTime then Accel
    else if t <= prof.accelTime + prof.constantTime then Constant
    else Decel
  }

  /** Velocity at time `t` of the move. */
  function VelocityAt(prof: Profile, a: real, dc: real, t: real): real {
    if t <= prof.accelTime then a * t
    else if t <= prof.accelTime + prof.constantTime then prof.peakVelocity
    else
      var td := t - prof.accelTime - prof.constantTime;
      Max(0.0, prof.peakVelocity - dc * td)
  }

  /** Distance travelled from the start point by time `t` of the move. */
  function DistanceAt(prof: Profile, a: real, dc: real, t: real): real {
    if t <= prof.accelTime then 0.5 * a * t * t
    else if t <= prof.accelTime + prof.constantTime then
      prof.accelDistance + prof.peakVelocity * (t - prof.accelTime)
    else
      var td := t - prof.accelTime - prof.constantTime;
      prof.accelDistance + prof.constantDistance + prof.peakVelocity * td - 0.5 * dc * td * td
  }

  /** Later samples never carry an earlier phase tag. */
  lemma PhaseOrdered(prof: Profile, t1: real, t2: real)
    requires t1 <= t2
    ensures Rank(PhaseAt(prof, t1)) <= Rank(PhaseAt(prof, t2))
    ensures PhaseAt(prof, prof.accelTime) == Accel
  {
  }

  /** Uniform acceleration from rest covers more ground the longer it runs. */
  lemma RampUp(a: real, t1: real, t2: real)
    requires a > 0.0 && 0.0 <= t1 <= t2
    ensures 0.0 <= 0.5 * a * t1 * t1 <= 0.5 * a * t2 * t2
  {
  }

  /**
   * Uniform deceleration from `peak` covers more ground the longer it runs,
   * as long as the velocity has not yet reached zero.
   */
  lemma RampDown(peak: real, dc: real, td1: real, td2: real)
    requires dc > 0.0 && 0.0 <= td1 <= td2 && dc * td2 <= peak
    ensures 0.0 <= peak * td1 - 0.5 * dc * td1 * td1 <= peak * td2 - 0.5 * dc * td2 * td2
  {
    MulMonoLeft(dc, td1, td2);
    assert peak - 0.5 * dc * (td1 + td2) >= 0.0;
    MulNonneg(td2 - td1, peak - 0.5 * dc * (td1 + td2));
    assert (peak * td2 - 0.5 * dc * td2 * td2) - (peak * td1 - 0.5 * dc * td1 * td1)
        == (td2 - td1) * (peak - 0.5 * dc * (td1 + td2));
    assert (td2 - td1) * (peak - 0.5 * dc * (td1 + td2)) >= 0.0;
    assert peak * td1 - 0.5 * dc * td1 * td1 == td1 * (peak - 0.5 * dc * td1);
    assert peak - 0.5 * dc * td1 >= 0.0;
    MulNonneg(td1, peak - 0.5 * dc * td1);
  }

  /** The deceleration ramp's own distance is what a full ramp down from the peak covers. */
  lemma DecelBounds(prof: Profile, a: real, dc: real, distance: real, td: real)
    requires Consistent(prof, a, dc, distance) && 0.0 <= td <= prof.decelTime
    ensures dc * td <= prof.peakVelocity
    ensures 0.0 <= prof.peakVelocity * td - 0.5 * dc * td * td <= prof.decelDistance
  {
  }

  /**
   * Where the distance at time `t` lies: within the acceleration ramp's
   * distance, then within the constant stretch, then up to the whole move.
   */
  lemma DistanceInPhase(prof: Profile, a: real, dc: real, distance: real, t: real)
    requires Consistent(prof, a, dc, distance) && 0.0 <= t <= prof.totalTime
    ensures PhaseAt(prof, t) == Accel ==> 0.0 <= DistanceAt(prof, a, dc, t) <= prof.accelDistance
    ensures PhaseAt(prof, t) == Constant ==>
      prof.accelDistance <= DistanceAt(prof, a, dc, t) <= prof.accelDistance + prof.constantDistance
    ensures PhaseAt(prof, t) == Decel ==>
      prof.accelDistance + prof.constantDistance <= DistanceAt(prof, a, dc, t) <= distance
  {
    var aT, cT := prof.accelTime, prof.constantTime;
    if t <= aT {
      AccelStretch(prof, a, dc, distance, t);
    } else if t <= aT + cT {
      ConstantStretch(prof, a, dc, distance, t);
    } else {
      DecelStretch(prof, a, dc, distance, t);
    }
  }

  lemma AccelStretch(prof: Profile, a: real, dc: real, distance: real, t: real)
    requires Consistent(prof, a, dc, distance) && 0.0 <= t <= prof.accelTime
    ensures 0.0 <= DistanceAt(prof, a, dc, t) <= prof.accelDistance
  {
    RampUp(a, t, prof.accelTime);
  }

  lemma ConstantStretch(prof: Profile, a: real, dc: real, distance: real, t: real)
    requires Consistent(prof, a, dc, distance)
    requires prof.accelTime < t <= prof.accelTime + prof.constantTime
    ensures prof.accelDistance <= DistanceAt(prof, a, dc, t) <= prof.accelDistance + prof.constantDistance
  {
  }

  lemma DecelStretch(prof: Profile, a: real, dc: real, distance: real, t: real)
    requires Consistent(prof, a, dc, distance)
    requires prof.accelTime + prof.constantTime < t <= prof.totalTime
    ensures prof.accelDistance + prof.constantDistance <= DistanceAt(prof, a, dc, t) <= distance
  {
    var td := t - prof.accelTime - prof.constantTime;
    DecelBounds(prof, a, dc, distance, td);
  }

  /**
   * Monotone progress: the distance from the start point never decreases
   * over the move and never exceeds the whole distance.
   */
  lemma ProgressMonotone(prof: Profile, a: real, dc: real, distance: real, t1: real, t2: real)
    requires Consistent(prof, a, dc, distance) && 0.0 <= t1 <= t2 <= prof.totalTime
    ensures 0.0 <= DistanceAt(prof, a, dc, t1) <= DistanceAt(prof, a, dc, t2) <= distance
  {
    DistanceInPhase(prof, a, dc, distance, t1);
    DistanceInPhase(prof, a, dc, distance, t2);
    if PhaseAt(prof, t1) == PhaseAt(prof, t2) {
      SamePhaseProgress(prof, a, dc, distance, t1, t2);
    }
  }

  /** Within one phase the distance formula itself is non-decreasing. */
  lemma SamePhaseProgress(prof: Profile, a: real, dc: real, distance: real, t1: real, t2: real)
    requires Consistent(prof, a, dc, distance) && 0.0 <= t1 <= t2 <= prof.totalTime
    requires PhaseAt(prof, t1) == PhaseAt(prof, t2)
    ensures DistanceAt(prof, a, dc, t1) <= DistanceAt(prof, a, dc, t2)
  {
    var aT, cT := prof.accelTime, prof.constantTime;
    if t2 <= aT {
      AccelProgress(prof, a, dc, t1, t2);
    } else if t2 <= aT + cT {
      CruiseProgress(prof, a, dc, t1, t2);
    } else {
      DecelProgress(prof, a, dc, distance, t1, t2);
    }
  }

  lemma AccelProgress(prof: Profile, a: real, dc: real, t1: real, t2: real)
    requires a > 0.0 && 0.0 <= t1 <= t2 <= prof.accelTime
    ensures DistanceAt(prof, a, dc, t1) <= DistanceAt(prof, a, dc, t2)
  {
    RampUp(a, t1, t2);
  }

  lemma CruiseProgress(prof: Profile, a: real, dc: real, t1: real, t2: real)
    requires prof.peakVelocity >= 0.0 && prof.accelTime < t1 <= t2 <= prof.accelTime + prof.constantTime
    ensures DistanceAt(prof, a, dc, t1) <= DistanceAt(prof, a, dc, t2)
  {
    MulMonoLeft(prof.peakVelocity, t1 - prof.accelTime, t2 - prof.accelTime);
  }

  lemma DecelProgress(prof: Profile, a: real, dc: real, distance: real, t1: real, t2: real)
    requires Consistent(prof, a, dc, distance)
    requires prof.accelTime + prof.constantTime < t1 <= t2 <= prof.totalTime
    ensures DistanceAt(prof, a, dc, t1) <= DistanceAt(prof, a, dc, t2)
  {
    var td1, td2 := t1 - prof.accelTime - prof.constantTime, t2 - prof.accelTime - prof.constantTime;
    var base, peak := prof.accelDistance + prof.constantDistance, prof.peakVelocity;
    DecelBounds(prof, a, dc, distance, td2);
    calc {
      DistanceAt(prof, a, dc, t1);
    == base + peak * td1 - 0.5 * dc * td1 * td1;
    <= { RampDown(peak, dc, td1, td2); }
      base + peak * td2 - 0.5 * dc * td2 * td2;
    == DistanceAt(prof, a, dc, t2);
    }
  }

  /** Both ramps take time, so the acceleration ramp ends before the move does. */
  lemma RampTimesPositive(prof: Profile, a: real, dc: real, distance: real)
    requires Consistent(prof, a, dc, distance)
    ensures 0.0 < prof.accelTime < prof.totalTime && prof.decelTime > 0.0
  {
    assert prof.accelTime * a == prof.peakVelocity;
    PosFactor(prof.accelTime, a);
    assert prof.decelTime * dc == prof.peakVelocity;
    PosFactor(prof.decelTime, dc);
  }

  /**
   * Less than `dt` before the end of the acceleration ramp, the velocity is
   * within `a * dt` of the peak.
   */
  lemma NearPeakOnRamp(prof: Profile, a: real, dc: real, distance: real, dt: real, t: real)
    requires Consistent(prof, a, dc, distance)
    requires prof.accelTime - dt < t <= prof.accelTime
    ensures PhaseAt(prof, t) == Accel
    ensures prof.peakVelocity - a * dt <= VelocityAt(prof, a, dc, t) <= prof.peakVelocity
  {
    MulMonoLeft(a, prof.accelTime - dt, t);
    MulMonoLeft(a, t, prof.accelTime);
  }

  /** Velocity stays between zero and the peak over the whole move. */
  lemma VelocityWithinPeak(prof: Profile, a: real, dc: real, distance: real, t: real)
    requires Consistent(prof, a, dc, distance) && 0.0 <= t <= prof.totalTime
    ensures 0.0 <= VelocityAt(prof, a, dc, t) <= prof.peakVelocity
  {
  }

  /**
   * Before the end of the move the clamp at zero in the deceleration formula
   * never engages: the ramp reaches zero exactly at `totalTime`.
   */
  lemma DecelerationUnclamped(prof: Profile, a: real, dc: real, distance: real, t: real)
    requires Consistent(prof, a, dc, distance)
    requires prof.accelTime + prof.constantTime < t <= prof.totalTime
    ensures VelocityAt(prof, a, dc, t) == prof.peakVelocity - dc * (t - prof.accelTime - prof.constantTime)
  {
  }
}
