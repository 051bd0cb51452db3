/**
 * `dragTo` as a function of the pendulum's geometry and the pointer: a two-link
 * law-of-cosines solve with a clamped reach, two elbow candidates and a
 * strictly-closer branch choice. Lengths are in metres; the pointer and the origin
 * are in canvas pixels.
 */
module DragSolver {
  import opened JsMath
  import opened Angles
  import opened Kinematics

  /** Slack kept between the reach limits and the clamped distance, in pixels. */
  const Epsilon: real := 0.01

  /** The joint angles dragTo assigns. */
  datatype Pose = Pose(theta1: real, theta2: real)

  /** What simulateBob2 returns: a candidate pose and where it puts bob 2. */
  datatype Candidate = Candidate(x: real, y: real, theta1: real, theta2: real)

  /**
   * The distance from the origin clamped to what two links can reach without a
   * degenerate triangle.
   */
  function ClampReach(dist: real, L1px: real, L2px: real): (d: real)
    ensures d >= Abs(L1px - L2px) + Epsilon
    ensures L1px >= Epsilon && L2px >= Epsilon ==> d <= L1px + L2px - Epsilon
    ensures Abs(L1px - L2px) + Epsilon <= dist <= L1px + L2px - Epsilon ==> d == dist
    ensures L1px >= Epsilon && L2px >= Epsilon && dist > L1px + L2px - Epsilon ==> d == L1px + L2px - Epsilon
    ensures dist < Abs(L1px - L2px) + Epsilon ==> d == Abs(L1px - L2px) + Epsilon
  {
    var d := Min(dist, L1px + L2px - Epsilon);
    Max(d, Abs(L1px - L2px) + Epsilon)
  }

  /** Math.min(1, Math.max(-1, c)): keeps an acos argument inside [-1, 1]. */
  function ClampUnit(c: real): (r: real)
    ensures -1.0 <= r <= 1.0
    ensures -1.0 <= c <= 1.0 ==> r == c
    ensures c > 1.0 ==> r == 1.0
    ensures c < -1.0 ==> r == -1.0
  {
    Min(1.0, Max(-1.0, c))
  }

  /** simulateBob2: the pose that puts link 1 at theta1 and where bob 2 then is. */
  function CandidateAt(origin: Point, L1px: real, L2px: real, theta2Offset: real, theta1: real, m: MathFns): (c: Candidate)
    ensures c.theta1 == theta1
    ensures -Pi <= c.theta2 <= Pi
  {
    var x1 := origin.x + L1px * m.sin(theta1);
    var y1 := origin.y + L1px * m.cos(theta1);
    var theta2 := Normalized(theta1 - theta2Offset);
    Candidate(x1 + L2px * m.sin(theta2), y1 + L2px * m.cos(theta2), theta1, theta2)
  }

  /** simulateBob2 as the source writes it, calling the loop version of normalizeAngle. */
  method SimulateBob2(origin: Point, L1px: real, L2px: real, theta2Offset: real, theta1: real, m: MathFns)
    returns (c: Candidate)
    ensures c == CandidateAt(origin, L1px, L2px, theta2Offset, theta1, m)
  {
    var x1 := origin.x + L1px * m.sin(theta1);
    var y1 := origin.y + L1px * m.cos(theta1);
    var theta2 := NormalizeAngle(theta1 - theta2Offset);
    assert theta2 == Normalized(theta1 - theta2Offset);
    c := Candidate(x1 + L2px * m.sin(theta2), y1 + L2px * m.cos(theta2), theta1, theta2);
  }

  /**
   * The candidate's bob 2 is exactly what getBob2 reports for the candidate's angles:
   * the solver's forward model is the renderer's.
   */
  lemma CandidateIsForwardModel(origin: Point, L1: real, L2: real, theta2Offset: real, theta1: real, m: MathFns)
    ensures var c := CandidateAt(origin, L1 * MetersToPixels, L2 * MetersToPixels, theta2Offset, theta1, m);
      Point(c.x, c.y) == Bob2At(origin, L1, L2, c.theta1, c.theta2, m)
  {
    var L1px, L2px := L1 * MetersToPixels, L2 * MetersToPixels;
    var c := CandidateAt(origin, L1px, L2px, theta2Offset, theta1, m);
    var theta2 := Normalized(theta1 - theta2Offset);
    assert c == Candidate(origin.x + L1px * m.sin(theta1) + L2px * m.sin(theta2),
                          origin.y + L1px * m.cos(theta1) + L2px * m.cos(theta2), theta1, theta2);
    assert Bob1At(origin, L1, theta1, m) == Point(origin.x + L1px * m.sin(theta1), origin.y + L1px * m.cos(theta1));
    assert Bob2At(origin, L1, L2, theta1, theta2, m) == Point(c.x, c.y);
  }

  /** Euclidean distance from a candidate's bob 2 to the pointer (Math.hypot). */
  function Miss(c: Candidate, x: real, y: real, m: MathFns): real {
    m.hypot(c.x - x, c.y - y)
  }

  /** `distA < distB ? solA : solB`. */
  function Choose(solA: Candidate, solB: Candidate, x: real, y: real, m: MathFns): (best: Candidate)
    ensures best == solA || best == solB
    ensures Miss(best, x, y, m) <= Miss(solA, x, y, m)
    ensures Miss(best, x, y, m) <= Miss(solB, x, y, m)
    ensures Miss(solA, x, y, m) == Miss(solB, x, y, m) ==> best == solB
  {
    if Miss(solA, x, y, m) < Miss(solB, x, y, m) then solA else solB
  }

  /** The cosine of the angle opposite side c in a triangle with sides a, b, c. */
  function LawOfCosines(a: real, b: real, c: real): real
    requires a > 0.0 && b > 0.0
  {
    (a * a + b * b - c * c) / (2.0 * a * b)
  }

  /** The law-of-cosines quantities for a target at clamped distance d. */
  datatype Triangle = Triangle(angleToMouse: real, angleA: real, angleB: real)

  function Solve(origin: Point, L1: real, L2: real, x: real, y: real, m: MathFns): (t: Triangle)
    requires L1 > 0.0 && L2 > 0.0 && Lawful(m)
  {
    var dx := x - origin.x;
    var dy := y - origin.y;
    SumOfSquaresNonNegative(dx, dy);
    var dist := m.sqrt(dx * dx + dy * dy);
    var L1px := L1 * MetersToPixels;
    var L2px := L2 * MetersToPixels;
    var dClamped := ClampReach(dist, L1px, L2px);
    var angleToMouse := m.atan2(dx, dy);
    var angleA := m.acos(ClampUnit(LawOfCosines(L1px, L2px, dClamped)));
    var angleB := m.acos(ClampUnit(LawOfCosines(L1px, dClamped, L2px)));
    Triangle(angleToMouse, angleA, angleB)
  }

  /**
   * In a triangle with sides a, b, c the law-of-cosines value is a cosine: it lies in
   * [-1, 1] exactly because |a - b| <= c <= a + b.
   */
  lemma TriangleCosine(a: real, b: real, c: real)
    requires a > 0.0 && b > 0.0 && Abs(a - b) <= c <= a + b
    ensures -1.0 <= LawOfCosines(a, b, c) <= 1.0
  {
    var num, den := a * a + b * b - c * c, 2.0 * a * b;
    assert den > 0.0;
    assert c * c >= (a - b) * (a - b) by {
      assert c >= Abs(a - b) >= 0.0;
      assert Abs(a - b) * Abs(a - b) == (a - b) * (a - b);
      MonotoneSquare(Abs(a - b), c);
    }
    assert c * c <= (a + b) * (a + b) by {
      MonotoneSquare(c, a + b);
    }
    assert (a - b) * (a - b) == a * a + b * b - den;
    assert (a + b) * (a + b) == a * a + b * b + den;
    assert -den <= num <= den;
    DividedByPositive(num, den);
  }

  lemma DividedByPositive(num: real, den: real)
    requires den > 0.0 && -den <= num <= den
    ensures -1.0 <= num / den <= 1.0
  {
    var q := num / den;
    assert q * den == num;
    assert (q - 1.0) * den <= 0.0 && (q + 1.0) * den >= 0.0;
  }

  lemma MonotoneSquare(u: real, v: real)
    requires 0.0 <= u <= v
    ensures u * u <= v * v
  {
    assert u * u <= u * v <= v * v;
  }

  /**
   * Once the reach is clamped, both law-of-cosines values already lie in [-1, 1], so the
   * extra clamps before acos never change them (for links of at least Epsilon pixels).
   */
  lemma ClampedCosinesInRange(dist: real, L1px: real, L2px: real)
    requires L1px >= Epsilon && L2px >= Epsilon
    ensures var d := ClampReach(dist, L1px, L2px);
      && ClampUnit(LawOfCosines(L1px, L2px, d)) == LawOfCosines(L1px, L2px, d)
      && ClampUnit(LawOfCosines(L1px, d, L2px)) == LawOfCosines(L1px, d, L2px)
  {
    var d := ClampReach(dist, L1px, L2px);
    TriangleCosine(L1px, L2px, d);
    TriangleCosine(L1px, d, L2px);
  }

  /** The two elbow candidates solA and solB. */
  function Branches(origin: Point, L1: real, L2: real, x: real, y: real, m: MathFns): (r: (Candidate, Candidate))
    requires L1 > 0.0 && L2 > 0.0 && Lawful(m)
    ensures var t := Solve(origin, L1, L2, x, y, m);
      && r.0.theta1 == t.angleToMouse + t.angleB
      && r.1.theta1 == t.angleToMouse - t.angleB
  {
    Elbows(origin, L1 * MetersToPixels, L2 * MetersToPixels, Solve(origin, L1, L2, x, y, m), m)
  }

  /** The elbow candidates for the triangle t: link 1 at angleToMouse plus and minus angleB. */
  function Elbows(origin: Point, L1px: real, L2px: real, t: Triangle, m: MathFns): (r: (Candidate, Candidate))
    ensures r.0.theta1 == t.angleToMouse + t.angleB && r.1.theta1 == t.angleToMouse - t.angleB
  {
    var theta2Offset := Pi - t.angleA;
    (CandidateAt(origin, L1px, L2px, theta2Offset, t.angleToMouse + t.angleB, m),
     CandidateAt(origin, L1px, L2px, theta2Offset, t.angleToMouse - t.angleB, m))
  }

  /**
   * The angles dragTo assigns: the candidate whose bob 2 is strictly closer to the
   * pointer, solB on a tie, both angles normalised into [-PI, PI].
   */
  function DragPose(origin: Point, L1: real, L2: real, x: real, y: real, m: MathFns): (p: Pose)
    requires L1 > 0.0 && L2 > 0.0 && Lawful(m)
    ensures -Pi <= p.theta1 <= Pi && -Pi <= p.theta2 <= Pi
    ensures var (solA, solB) := Branches(origin, L1, L2, x, y, m);
      var best := Choose(solA, solB, x, y, m);
      && p.theta1 == Normalized(best.theta1)
      && p.theta2 == best.theta2
  {
    var (solA, solB) := Branches(origin, L1, L2, x, y, m);
    var best := Choose(solA, solB, x, y, m);
    Pose(Normalized(best.theta1), Normalized(best.theta2))
  }

  /**
   * The body of dragTo up to the assignment of the angles: the solve, the two simulated
   * candidates, the strictly-closer choice and the final normalisation, with the
   * source's loop version of normalizeAngle.
   */
  method SolveDrag(origin: Point, L1: real, L2: real, x: real, y: real, m: MathFns) returns (pose: Pose)
    requires L1 > 0.0 && L2 > 0.0 && Lawful(m)
    ensures pose == DragPose(origin, L1, L2, x, y, m)
  {
    var t := Solve(origin, L1, L2, x, y, m);
    var solA, solB := SimulateBranches(origin, L1 * MetersToPixels, L2 * MetersToPixels, t, m);

    var distA := Miss(solA, x, y, m);
    var distB := Miss(solB, x, y, m);

    var best := if distA < distB then solA else solB;
    DragPoseOfChoice(origin, L1, L2, x, y, m, solA, solB, best);

    var theta1 := NormalizeAngle(best.theta1);
    var theta2 := NormalizeAngle(best.theta2);
    pose := Pose(theta1, theta2);
  }

  /** The two simulated elbow candidates for the solved triangle t. */
  method SimulateBranches(origin: Point, L1px: real, L2px: real, t: Triangle, m: MathFns)
    returns (solA: Candidate, solB: Candidate)
    ensures (solA, solB) == Elbows(origin, L1px, L2px, t, m)
  {
    var theta2Offset := Pi - t.angleA;

    var theta1a := t.angleToMouse + t.angleB;
    var theta1b := t.angleToMouse - t.angleB;

    solA := SimulateBob2(origin, L1px, L2px, theta2Offset, theta1a, m);
    solB := SimulateBob2(origin, L1px, L2px, theta2Offset, theta1b, m);
  }

  /** DragPose, read off the chosen candidate. */
  lemma DragPoseOfChoice(origin: Point, L1: real, L2: real, x: real, y: real, m: MathFns, solA: Candidate, solB: Candidate, best: Candidate)
    requires L1 > 0.0 && L2 > 0.0 && Lawful(m)
    requires (solA, solB) == Branches(origin, L1, L2, x, y, m)
    requires best == Choose(solA, solB, x, y, m)
    ensures DragPose(origin, L1, L2, x, y, m) == Pose(Normalized(best.theta1), Normalized(best.theta2))
  {
  }

  /** On a tie between the two candidates, dragTo takes solB (theta1 = angleToMouse - angleB). */
  lemma {:induction false} TieGoesToSecondBranch(origin: Point, L1: real, L2: real, x: real, y: real, m: MathFns)
    requires L1 > 0.0 && L2 > 0.0 && Lawful(m)
    requires var (solA, solB) := Branches(origin, L1, L2, x, y, m);
      Miss(solA, x, y, m) == Miss(solB, x, y, m)
    ensures var t := Solve(origin, L1, L2, x, y, m);
      DragPose(origin, L1, L2, x, y, m).theta1 == Normalized(t.angleToMouse - t.angleB)
  {
    var (solA, solB) := Branches(origin, L1, L2, x, y, m);
    assert Choose(solA, solB, x, y, m) == solB;
  }

  /** Links of 120 px and 40 px with the pointer 200 px away: the distance is pulled in to 160 - 0.01. */
  lemma {:induction false} ReachClampExample()
    ensures ClampReach(200.0, 120.0, 40.0) == 160.0 - Epsilon
  {
  }
}
