/** One sample of a trajectory (`TrajectoryPoint` with its phase tag). */
module Points {
  import opened Geometry

  /** The closed set of phase tags the calculators write into `type`. */
  datatype Phase = Accel | Constant | Decel | End

  /** The tag string the source stores for each phase. */
  function Name(phase: Phase): string {
    match phase
    case Accel => "accel"
    case Constant => "constant"
    case Decel => "decel"
    case End => "end"
  }

  /** Position of a phase in the order accel, constant, decel, end. */
  function Rank(phase: Phase): nat {
    match phase
    case Accel => 0
    case Constant => 1
    case Decel => 2
    case End => 3
  }

  /**
   * Distinct phases have distinct tag strings, so comparing the source's
   * strings (`point.type == "constant"`) is comparing phases.
   */
  lemma NameInjective(p: Phase, q: Phase)
    ensures Name(p) == Name(q) <==> p == q
  {
  }

  /**
   * The 4-argument struct constructor is the datatype constructor: it stores
   * each argument in the field of the same name.  The source's field `type`
   * is called `phase` here (`type` is a keyword).
   */
  datatype TrajectoryPoint = TrajectoryPoint(position: Vec3, velocity: real, time: real, phase: Phase)

  /** Times never go backwards along the sequence. */
  predicate TimeOrdered(trajectory: seq<TrajectoryPoint>) {
    forall i :: 0 <= i < |trajectory| - 1 ==> trajectory[i].time <= trajectory[i + 1].time
  }
}
