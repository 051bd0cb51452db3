/**
 * The double pendulum's physics, on values: the bob positions (`getBob1`, `getBob2`)
 * and one explicit-Euler step with damping (the non-dragging branch of `update`).
 * Lengths are in metres; positions are in canvas pixels.
 */
module Kinematics {
  import opened JsMath

  const G: real := 9.81
  const MetersToPixels: real := 200.0
  const Dt: real := 1.0 / 60.0
  /** The per-step velocity damping factor; it is applied once per call, not scaled by Dt. */
  const Damping: real := 0.999

  datatype Point = Point(x: real, y: real)

  /** The mutable part of a pendulum's physical state. */
  datatype Motion = Motion(theta1: real, theta2: real, omega1: real, omega2: real)

  /** The fixed part: masses and link lengths, all positive. */
  datatype Body = Body(m1: real, m2: real, L1: real, L2: real)

  ghost predicate Physical(b: Body) {
    b.m1 > 0.0 && b.m2 > 0.0 && b.L1 > 0.0 && b.L2 > 0.0
  }

  /** getBob1: the end of link 1, angles measured from the downward vertical. */
  function Bob1At(origin: Point, L1: real, theta1: real, m: MathFns): Point {
    Point(origin.x + L1 * MetersToPixels * m.sin(theta1),
          origin.y + L1 * MetersToPixels * m.cos(theta1))
  }

  /** getBob2: link 2 hangs from bob 1. */
  function Bob2At(origin: Point, L1: real, L2: real, theta1: real, theta2: real, m: MathFns): Point {
    var b1 := Bob1At(origin, L1, theta1, m);
    Point(b1.x + L2 * MetersToPixels * m.sin(theta2),
          b1.y + L2 * MetersToPixels * m.cos(theta2))
  }

  /** Bob 1 stays within L1 * MetersToPixels pixels of the origin along each axis, whatever the angle. */
  lemma {:induction false} Bob1WithinReach(origin: Point, L1: real, theta1: real, m: MathFns)
    requires L1 > 0.0 && Lawful(m)
    ensures var b := Bob1At(origin, L1, theta1, m);
      && Abs(b.x - origin.x) <= L1 * MetersToPixels
      && Abs(b.y - origin.y) <= L1 * MetersToPixels
  {
    ScaledBounded(L1 * MetersToPixels, m.sin(theta1));
    ScaledBounded(L1 * MetersToPixels, m.cos(theta1));
  }

  /**
   * Bob 2 stays within the square of half-side (L1 + L2) * MetersToPixels pixels around
   * the origin, whatever the angles.
   */
  lemma {:induction false} Bob2WithinReach(origin: Point, L1: real, L2: real, theta1: real, theta2: real, m: MathFns)
    requires L1 > 0.0 && L2 > 0.0 && Lawful(m)
    ensures var b := Bob2At(origin, L1, L2, theta1, theta2, m);
      && Abs(b.x - origin.x) <= (L1 + L2) * MetersToPixels
      && Abs(b.y - origin.y) <= (L1 + L2) * MetersToPixels
  {
    ScaledBounded(L1 * MetersToPixels, m.sin(theta1));
    ScaledBounded(L2 * MetersToPixels, m.sin(theta2));
    ScaledBounded(L1 * MetersToPixels, m.cos(theta1));
    ScaledBounded(L2 * MetersToPixels, m.cos(theta2));
  }

  lemma ScaledBounded(len: real, c: real)
    requires len > 0.0 && -1.0 <= c <= 1.0
    ensures -len <= len * c <= len
  {
  }

  /** The denominator shared by both angular accelerations. */
  function Den1(b: Body, delta: real, m: MathFns): (r: real)
    requires Physical(b) && Lawful(m)
    ensures r >= 2.0 * b.m1 > 0.0
  {
    var c := m.cos(2.0 * delta);
    assert b.m2 * c <= b.m2 by { ScaledBounded(b.m2, c); }
    2.0 * b.m1 + b.m2 - b.m2 * c
  }

  /** The angular accelerations (a1, a2) of the Lagrangian equations of motion. */
  function Accelerations(s: Motion, b: Body, m: MathFns): (real, real)
    requires Physical(b) && Lawful(m)
  {
    var delta := s.theta1 - s.theta2;
    var sinDelta := m.sin(delta);
    var cosDelta := m.cos(delta);
    var den1 := Den1(b, delta, m);
    var den2 := b.L2 * den1;
    var den1Full := b.L1 * den1;
    var a1 := (-G * (2.0 * b.m1 + b.m2) * m.sin(s.theta1)
               - b.m2 * G * m.sin(s.theta1 - 2.0 * s.theta2)
               - 2.0 * sinDelta * b.m2 * (s.omega2 * s.omega2 * b.L2 + s.omega1 * s.omega1 * b.L1 * cosDelta))
              / den1Full;
    var a2 := (2.0 * sinDelta * (s.omega1 * s.omega1 * b.L1 * (b.m1 + b.m2)
                                 + G * (b.m1 + b.m2) * m.cos(s.theta1)
                                 + s.omega2 * s.omega2 * b.L2 * b.m2 * cosDelta))
              / den2;
    (a1, a2)
  }

  /**
   * One step of `update` when not dragging: velocities first, then angles with the new
   * (still undamped) velocities, then damping.
   */
  function EulerStep(s: Motion, b: Body, m: MathFns): (r: Motion)
    requires Physical(b) && Lawful(m)
  {
    var (a1, a2) := Accelerations(s, b, m);
    var omega1 := s.omega1 + a1 * Dt;
    var omega2 := s.omega2 + a2 * Dt;
    var theta1 := s.theta1 + omega1 * Dt;
    var theta2 := s.theta2 + omega2 * Dt;
    Motion(theta1, theta2, omega1 * Damping, omega2 * Damping)
  }

  /**
   * The order of the updates: each angle moves by Dt times the velocity the step ends with
   * before damping, and that velocity is the old one plus Dt times the acceleration.
   */
  lemma {:induction false} EulerStepOrder(s: Motion, b: Body, m: MathFns)
    requires Physical(b) && Lawful(m)
    ensures var r := EulerStep(s, b, m);
      var (a1, a2) := Accelerations(s, b, m);
      && r.omega1 / Damping == s.omega1 + a1 * Dt
      && r.omega2 / Damping == s.omega2 + a2 * Dt
      && r.theta1 == s.theta1 + (r.omega1 / Damping) * Dt
      && r.theta2 == s.theta2 + (r.omega2 / Damping) * Dt
  {
  }

  /** Hanging straight down at rest, both angular accelerations are zero. */
  lemma {:induction false} AccelerationsAtRest(b: Body, m: MathFns)
    requires Physical(b) && Lawful(m)
    ensures Accelerations(Motion(0.0, 0.0, 0.0, 0.0), b, m) == (0.0, 0.0)
  {
    var s := Motion(0.0, 0.0, 0.0, 0.0);
    assert s.theta1 - 2.0 * s.theta2 == 0.0;
  }

  /** Hanging straight down at rest is an equilibrium of the step: nothing moves. */
  lemma {:induction false} RestingStateIsFixed(b: Body, m: MathFns)
    requires Physical(b) && Lawful(m)
    ensures EulerStep(Motion(0.0, 0.0, 0.0, 0.0), b, m) == Motion(0.0, 0.0, 0.0, 0.0)
  {
    AccelerationsAtRest(b, m);
  }
}
