/**
 * The component that plays a generated trajectory on a scene object: it
 * generates the list of points once, then on every frame moves a cursor
 * forward past the points whose time has come, places the object at the
 * cursor's point and stops at the last one.
 *
 * The frame clock (`Time.time`) is the parameter `now`; `transform.position`
 * is the field `position`.  The foreign measurements the generator needs
 * (`Vector3.Distance` and the triangular peak's square root) are the
 * parameters `distance` and `peak`, as in the generator itself.
 */
module Player {
  import opened Wrappers
  import opened Geometry
  import opened Params
  import opened Points
  import opened Kinematics
  import opened Calculator
  import opened TrajectoryProperties

  // ---------------------------------------------------------------------
  // The cursor

  /**
   * Where the cursor ends up when it starts at `i` and keeps stepping to the
   * next point as long as that point's time is not after `elapsed`.
   */
  function Advance(trajectory: seq<TrajectoryPoint>, i: nat, elapsed: real): (r: nat)
    requires i < |trajectory|
    ensures i <= r < |trajectory|
    decreases |trajectory| - i
  {
    if i < |trajectory| - 1 && elapsed >= trajectory[i + 1].time then Advance(trajectory, i + 1, elapsed)
    else i
  }

  /**
   * The cursor stops either on the last point or just before the first
   * point that is not yet due, and every point it stepped onto was due.
   */
  lemma {:induction false} AdvanceStops(trajectory: seq<TrajectoryPoint>, i: nat, elapsed: real)
    requires i < |trajectory|
    ensures var r := Advance(trajectory, i, elapsed);
      && (r == |trajectory| - 1 || trajectory[r + 1].time > elapsed)
      && (forall j :: i < j <= r ==> trajectory[j].time <= elapsed)
    decreases |trajectory| - i
  {
    if i < |trajectory| - 1 && elapsed >= trajectory[i + 1].time {
      AdvanceStops(trajectory, i + 1, elapsed);
    }
  }

  /** A later clock never leaves the cursor behind. */
  lemma {:induction false} AdvanceMonotone(trajectory: seq<TrajectoryPoint>, i: nat, e1: real, e2: real)
    requires i < |trajectory| && e1 <= e2
    ensures Advance(trajectory, i, e1) <= Advance(trajectory, i, e2)
    decreases |trajectory| - i
  {
    if i < |trajectory| - 1 && e1 >= trajectory[i + 1].time {
      AdvanceMonotone(trajectory, i + 1, e1, e2);
    }
  }

  /** In a time-ordered list, a point is no earlier than any point before it. */
  lemma {:induction false} OrderedPair(trajectory: seq<TrajectoryPoint>, i: nat, j: nat)
    requires TimeOrdered(trajectory) && i <= j < |trajectory|
    ensures trajectory[i].time <= trajectory[j].time
    decreases j - i
  {
    if i < j {
      OrderedPair(trajectory, i, j - 1);
    }
  }

  /**
   * On a time-ordered list the cursor lands on the latest point that is due:
   * no point after it is due, and it is itself due whenever the point it
   * started from was.
   */
  lemma CursorAtLatestDuePoint(trajectory: seq<TrajectoryPoint>, i: nat, elapsed: real)
    requires TimeOrdered(trajectory) && i < |trajectory|
    ensures var r := Advance(trajectory, i, elapsed);
      && (forall j :: r < j < |trajectory| ==> trajectory[j].time > elapsed)
      && (trajectory[i].time <= elapsed ==> trajectory[r].time <= elapsed)
  {
    var r := Advance(trajectory, i, elapsed);
    AdvanceStops(trajectory, i, elapsed);
    forall j | r < j < |trajectory|
      ensures trajectory[j].time > elapsed
    {
      OrderedPair(trajectory, r + 1, j);
    }
  }

  /**
   * Playing a generated move: from any point before the last, the cursor
   * reaches the terminal point exactly when the elapsed time has reached the
   * move's total time.
   */
  lemma PlaybackFinishesAtTotalTime(parameters: Option<TrajectoryParams>, distance: real, peak: real, i: nat, elapsed: real)
    requires Moving(parameters, distance, peak)
    requires i < |Trajectory(parameters, distance, peak)| - 1
    ensures var r := Trajectory(parameters, distance, peak);
      Advance(r, i, elapsed) == |r| - 1 <==> elapsed >= Sizing(parameters.value, distance, peak).totalTime
  {
    var r := Trajectory(parameters, distance, peak);
    var total := Sizing(parameters.value, distance, peak).totalTime;
    SampleTimesOnGrid(parameters, distance, peak);
    AdvanceStops(r, i, elapsed);
  }

  // ---------------------------------------------------------------------
  // The component

  class UnityTrajectory {
    /** The inspector-configured parameters; `None` is a missing object. */
    var trajectoryParams: Option<TrajectoryParams>
    /** The generated points; a list never generated is empty. */
    var trajectory: seq<TrajectoryPoint>
    var currentPointIndex: int
    var startTime: real
    var isAnimating: bool
    /** The animated object's `transform.position`. */
    var position: Vec3

    /** While animating, the cursor points into a non-empty trajectory. */
    predicate Valid()
      reads this
    {
      && 0 <= currentPointIndex
      && (isAnimating ==> currentPointIndex < |trajectory|)
    }

    /** A fresh component: default parameters, nothing generated, idle. */
    constructor(position: Vec3)
      ensures Valid()
      ensures trajectoryParams == Some(Default())
      ensures trajectory == [] && currentPointIndex == 0 && startTime == 0.0
      ensures !isAnimating && this.position == position
    {
      trajectoryParams := Some(Default());
      trajectory := [];
      currentPointIndex := 0;
      startTime := 0.0;
      isAnimating := false;
      this.position := position;
    }

    /**
     * Generates the trajectory for the configured parameters.  An empty
     * result (rejected parameters) leaves the component idle; otherwise the
     * cursor, the clock and the object are reset to the first point.
     */
    method StartTrajectory(now: real, distance: real, peak: real)
      requires Valid()
      modifies this
      ensures Valid()
      ensures trajectoryParams == old(trajectoryParams)
      ensures trajectory == Trajectory(trajectoryParams, distance, peak)
      ensures isAnimating <==> ValidateParameters(trajectoryParams).Pass?
      ensures !isAnimating ==>
        && currentPointIndex == old(currentPointIndex)
        && startTime == old(startTime)
        && position == old(position)
      ensures isAnimating ==>
        && currentPointIndex == 0
        && startTime == now
        && position == trajectory[0].position
    {
      var report;
      trajectory, report := GenerateTrajectory(trajectoryParams, distance, peak);
      EmptyIffInvalid(trajectoryParams, distance, peak);
      if |trajectory| == 0 {
        isAnimating := false;
        return;
      }
      currentPointIndex := 0;
      startTime := now;
      isAnimating := true;
      position := trajectory[0].position;
    }

    /**
     * One frame at clock `now`: moves the cursor past every point that is
     * due, then either finishes on the last point or shows the cursor's point.
     * An idle component is left as it is.
     */
    method Update(now: real)
      requires Valid()
      modifies this
      ensures Valid()
      ensures trajectoryParams == old(trajectoryParams) && trajectory == old(trajectory)
      ensures startTime == old(startTime)
      ensures old(currentPointIndex) <= currentPointIndex
      ensures !old(isAnimating) ==>
        && currentPointIndex == old(currentPointIndex)
        && isAnimating == old(isAnimating)
        && position == old(position)
      ensures old(isAnimating) ==>
        var elapsed := now - startTime;
        && currentPointIndex == Advance(trajectory, old(currentPointIndex), elapsed)
        && (forall j :: old(currentPointIndex) < j <= currentPointIndex ==> trajectory[j].time <= elapsed)
        && (isAnimating <==> currentPointIndex < |trajectory| - 1)
        && (isAnimating ==> trajectory[currentPointIndex + 1].time > elapsed)
        && (isAnimating ==> position == trajectory[currentPointIndex].position)
        && (!isAnimating ==> position == trajectory[|trajectory| - 1].position)
    {
      if isAnimating {
        var elapsed := now - startTime;
        AdvanceStops(trajectory, currentPointIndex, elapsed);
        while currentPointIndex < |trajectory| - 1 && elapsed >= trajectory[currentPointIndex + 1].time
          modifies this`currentPointIndex
          invariant old(currentPointIndex) <= currentPointIndex < |trajectory|
          invariant Advance(trajectory, currentPointIndex, elapsed)
                 == Advance(trajectory, old(currentPointIndex), elapsed)
          decreases |trajectory| - currentPointIndex
        {
          currentPointIndex := currentPointIndex + 1;
        }
        if currentPointIndex >= |trajectory| - 1 {
          // complete
          position := trajectory[|trajectory| - 1].position;
          isAnimating := false;
          return;
        }
        position := trajectory[currentPointIndex].position;
      }
    }

    /** Stops the animation where it is; nothing else changes. */
    method StopTrajectory()
      requires Valid()
      modifies this`isAnimating
      ensures Valid() && !isAnimating
      ensures currentPointIndex == old(currentPointIndex) && position == old(position)
      ensures trajectory == old(trajectory) && startTime == old(startTime)
    {
      isAnimating := false;
    }
  }
}
