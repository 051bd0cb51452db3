/**
 * `DoublePendulum`: one pendulum's state, updated in place by the animation frame
 * (`update`) and by the pointer (`dragTo`).
 */
module Pendulum {
  import opened JsMath
  import opened Angles
  import opened Kinematics
  import Trace
  import opened DragSolver

  /**
   * What one call of update makes of a pendulum's motion and trace: frozen in place with
   * zero velocities while dragged, otherwise one Euler step after which the new bob-2
   * position enters the bounded trace.
   */
  function Advance(s: Motion, trace: seq<Point>, dragging: bool, origin: Point, b: Body, m: MathFns): (r: (Motion, seq<Point>))
    requires Physical(b) && Lawful(m)
    ensures |trace| <= Trace.Capacity ==> |r.1| <= Trace.Capacity
    ensures dragging ==> r.0.omega1 == 0.0 && r.0.omega2 == 0.0
    ensures !dragging ==> |r.1| > 0 && r.1[|r.1| - 1] == Bob2At(origin, b.L1, b.L2, r.0.theta1, r.0.theta2, m)
  {
    if dragging then
      (Motion(s.theta1, s.theta2, 0.0, 0.0), trace)
    else
      var n := EulerStep(s, b, m);
      (n, Trace.Push(trace, Bob2At(origin, b.L1, b.L2, n.theta1, n.theta2, m)))
  }

  class DoublePendulum {
    /** The anchor, moved only by the layout. */
    var origin: Point
    /** Link lengths (metres) and bob masses; never reassigned after construction. */
    const L1: real
    const L2: real
    const m1: real
    const m2: real
    var theta1: real
    var theta2: real
    var omega1: real
    var omega2: real
    /** Render attributes, never read by the physics. */
    const color: string
    var letter: string
    /** Recent bob-2 positions, oldest first. */
    var trace: seq<Point>
    var isDragging: bool
    var isHovered: bool

    ghost predicate Valid()
      reads this`trace
    {
      Physical(Physique()) && |trace| <= Trace.Capacity
    }

    function Physique(): Body {
      Body(m1, m2, L1, L2)
    }

    function State(): Motion
      reads this`theta1, this`theta2, this`omega1, this`omega2
    {
      Motion(theta1, theta2, omega1, omega2)
    }

    function GetBob1(m: MathFns): Point
      reads this`origin, this`theta1
    {
      Bob1At(origin, L1, theta1, m)
    }

    function GetBob2(m: MathFns): Point
      reads this`origin, this`theta1, this`theta2
    {
      Bob2At(origin, L1, L2, theta1, theta2, m)
    }

    /** The pose dragTo leaves behind for the pointer at (x, y). */
    ghost predicate PosedAt(x: real, y: real, m: MathFns)
      reads this`origin, this`theta1, this`theta2, this`omega1, this`omega2, this`trace
      requires Valid() && Lawful(m)
    {
      && Pose(theta1, theta2) == DragPose(origin, L1, L2, x, y, m)
      && omega1 == 0.0 && omega2 == 0.0
    }

    /** The motion and trace are what update makes of the motion s0 and the trace t0. */
    ghost predicate AdvancedFrom(s0: Motion, t0: seq<Point>, m: MathFns)
      reads this`theta1, this`theta2, this`omega1, this`omega2, this`trace, this`isDragging, this`origin
      requires Physical(Physique()) && Lawful(m)
    {
      (State(), trace) == Advance(s0, t0, isDragging, origin, Physique(), m)
    }

    constructor (origin: Point, L1: real, L2: real, m1: real, m2: real, theta1: real, theta2: real, color: string)
      requires L1 > 0.0 && L2 > 0.0 && m1 > 0.0 && m2 > 0.0
      ensures Valid()
      ensures this.origin == origin && this.L1 == L1 && this.L2 == L2 && this.m1 == m1 && this.m2 == m2
      ensures this.theta1 == theta1 && this.theta2 == theta2 && omega1 == 0.0 && omega2 == 0.0
      ensures this.color == color && trace == [] && !isDragging && !isHovered
    {
      this.origin := origin;
      this.L1, this.L2 := L1, L2;
      this.m1, this.m2 := m1, m2;
      this.theta1, this.theta2 := theta1, theta2;
      this.omega1, this.omega2 := 0.0, 0.0;
      this.color := color;
      this.letter := "";
      this.trace := [];
      this.isDragging, this.isHovered := false, false;
    }

    /**
     * update: frozen with zero velocities while dragged; otherwise one Euler step with
     * damping, then the new bob-2 position enters the bounded trace.
     */
    method Update(m: MathFns)
      requires Valid() && Lawful(m)
      modifies this`theta1, this`theta2, this`omega1, this`omega2, this`trace
      ensures Valid()
      ensures AdvancedFrom(old(State()), old(trace), m)
      ensures old(isDragging) ==>
        theta1 == old(theta1) && theta2 == old(theta2) && omega1 == 0.0 && omega2 == 0.0 && trace == old(trace)
      ensures !old(isDragging) ==>
        State() == EulerStep(old(State()), Physique(), m) && trace == Trace.Push(old(trace), GetBob2(m))
    {
      ghost var s0 := State();
      if isDragging {
        omega1 := 0.0;
        omega2 := 0.0;
        return;
      }
      var (a1, a2) := Accelerations(State(), Physique(), m);
      omega1 := omega1 + a1 * Dt;
      omega2 := omega2 + a2 * Dt;
      theta1 := theta1 + omega1 * Dt;
      theta2 := theta2 + omega2 * Dt;
      omega1 := omega1 * Damping;
      omega2 := omega2 * Damping;
      assert State() == EulerStep(s0, Physique(), m);
      var bob2 := GetBob2(m);
      trace := trace + [bob2];
      if |trace| > Trace.Capacity {
        trace := trace[1..];
      }
    }

    /**
     * dragTo: re-pose the pendulum so that bob 2 is as close as the links allow to the
     * pointer (x, y), and stop it.
     */
    method DragTo(x: real, y: real, m: MathFns)
      requires Valid() && Lawful(m)
      modifies this`theta1, this`theta2, this`omega1, this`omega2
      ensures Valid() && PosedAt(x, y, m)
      ensures -Pi <= theta1 <= Pi && -Pi <= theta2 <= Pi
    {
      var pose := SolveDrag(origin, L1, L2, x, y, m);
      theta1 := pose.theta1;
      theta2 := pose.theta2;

      omega1 := 0.0;
      omega2 := 0.0;
    }
  }
}
