/** The input record of one trajectory computation (`TrajectoryParams`). */
module Params {
  import opened Geometry

  datatype TrajectoryParams = TrajectoryParams(
    startPoint: Vec3,
    endPoint: Vec3,
    maxVelocity: real,       // ceiling of the constant-velocity phase
    acceleration: real,      // ramp-up rate
    deceleration: real,      // ramp-down rate
    samplingInterval: real)  // time between emitted samples

  /**
   * The field initialisers of `new TrajectoryParams()`; the end point
   * `Vector3.forward * 10` is written out as `(0, 0, 10)`.
   */
  function Default(): TrajectoryParams {
    TrajectoryParams(Zero, Vec3(0.0, 0.0, 10.0), 5.0, 2.0, 2.0, 0.1)
  }

  /**
   * The defaults: a 10-unit move along the forward axis, every scalar
   * strictly positive.
   */
  lemma DefaultValues()
    ensures Default().startPoint == Zero
    ensures Default().endPoint == Scale(Forward, 10.0)
    ensures SqDist(Default().startPoint, Default().endPoint) == 100.0
    ensures Default().maxVelocity == 5.0
    ensures Default().acceleration == 2.0 && Default().deceleration == 2.0
    ensures Default().samplingInterval == 0.1
  {
  }
}
