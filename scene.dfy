/**
 * The page-level state of the pendulum canvas: the array of pendulums built from the
 * letters of the two name groups, the pendulum being dragged, the layout, the
 * animation frame and the four mouse handlers. Pointer coordinates arrive already
 * translated into canvas pixels.
 */
module Scene {
  import opened JsMath
  import opened Kinematics
  import Trace
  import opened DragSolver
  import opened Pendulum

  datatype Option<T> = None | Some(value: T)

  const Group1: string := "noah"
  const Group2: string := "horne"
  const Spacing: real := 60.0
  const GroupGap: real := 130.0
  /** Radius for grabbing bob 2. */
  const DragRadius: real := 20.0
  /** Radius for hovering over bob 2; the same value, written separately in the handler. */
  const HoverRadius: real := 20.0
  /** Header height used when the page has no header element. */
  const DefaultHeaderHeight: real := 80.0

  /** The random draws of createPendulumsFromLetters for one letter. */
  datatype Draw = Draw(theta1: real, theta2: real, L2: real)

  /** The ranges Math.random() gives the draws: angles 0.1 * [0.05, 0.45), L2 in [0.2, 0.3). */
  ghost predicate InRange(d: Draw) {
    && 0.005 <= d.theta1 < 0.045
    && 0.005 <= d.theta2 < 0.045
    && 0.2 <= d.L2 < 0.3
  }

  /** The pointer is strictly within `radius` pixels of point b. */
  function Near(b: Point, px: real, py: real, radius: real, m: MathFns): (r: bool)
    requires Lawful(m)
    ensures r ==> radius > 0.0
  {
    var dx := px - b.x;
    var dy := py - b.y;
    SumOfSquaresNonNegative(dx, dy);
    m.sqrt(dx * dx + dy * dy) < radius
  }

  /** The index of the first bob, from `from` on, that the pointer is near; None when there is none. */
  function FirstNear(bobs: seq<Point>, from: nat, px: real, py: real, radius: real, m: MathFns): (k: Option<nat>)
    requires Lawful(m) && from <= |bobs|
    ensures k.Some? ==> from <= k.value < |bobs| && Near(bobs[k.value], px, py, radius, m)
    ensures k.Some? ==> forall j :: from <= j < k.value ==> !Near(bobs[j], px, py, radius, m)
    ensures k.None? ==> forall j :: from <= j < |bobs| ==> !Near(bobs[j], px, py, radius, m)
    decreases |bobs| - from
  {
    if from == |bobs| then None
    else if Near(bobs[from], px, py, radius, m) then Some(from)
    else FirstNear(bobs, from + 1, px, py, radius, m)
  }

  /** A bob the pointer is near, with none near before it, is the one FirstNear finds. */
  lemma FirstNearIsFirstHit(bobs: seq<Point>, px: real, py: real, radius: real, m: MathFns, k: nat)
    requires Lawful(m) && k < |bobs|
    requires Near(bobs[k], px, py, radius, m)
    requires forall j :: 0 <= j < k ==> !Near(bobs[j], px, py, radius, m)
    ensures FirstNear(bobs, 0, px, py, radius, m) == Some(k)
  {
  }

  /** The x coordinate alignPendulums gives the i-th pendulum. */
  function LayoutX(i: nat, canvasWidth: real): real {
    var group1Width := (|Group1| - 1) as real * Spacing;
    var group2Width := (|Group2| - 1) as real * Spacing;
    var totalWidth := group1Width + group2Width + GroupGap;
    var startX := canvasWidth / 2.0 - totalWidth / 2.0;
    if i < |Group1| then startX + i as real * Spacing
    else startX + group1Width + GroupGap + (i - |Group1|) as real * Spacing
  }

  /** The y coordinate of every origin: just below the header. */
  function OriginY(headerHeight: Option<real>): real {
    var h := match headerHeight case Some(v) => v case None => DefaultHeaderHeight;
    h + 12.0
  }

  /**
   * The layout is centred on the canvas, neighbours within a group are Spacing apart,
   * and the two groups are GroupGap apart.
   */
  lemma LayoutShape(canvasWidth: real)
    ensures (LayoutX(0, canvasWidth) + LayoutX(|Group1| + |Group2| - 1, canvasWidth)) / 2.0 == canvasWidth / 2.0
    ensures forall i :: 0 <= i < |Group1| + |Group2| - 1 && i != |Group1| - 1 ==>
      LayoutX(i + 1, canvasWidth) - LayoutX(i, canvasWidth) == Spacing
    ensures LayoutX(|Group1|, canvasWidth) - LayoutX(|Group1| - 1, canvasWidth) == GroupGap
  {
  }

  class Scene {
    const pendulums: seq<DoublePendulum>
    /** draggingPendulum; null when no drag is in progress. */
    var dragging: DoublePendulum?

    ghost predicate Valid()
      reads this, pendulums
    {
      && |pendulums| == |Group1| + |Group2|
      && (forall i, j :: 0 <= i < j < |pendulums| ==> pendulums[i] != pendulums[j])
      && (forall i :: 0 <= i < |pendulums| ==> pendulums[i].Valid())
      && (dragging != null ==> dragging in pendulums && dragging.isDragging)
    }

    /** Where every bob 2 is now, in array order. */
    function Bobs(m: MathFns): (bobs: seq<Point>)
      reads this, pendulums
      ensures |bobs| == |pendulums|
      ensures forall i :: 0 <= i < |pendulums| ==> bobs[i] == pendulums[i].GetBob2(m)
    {
      seq(|pendulums|, i reads pendulums requires 0 <= i < |pendulums| => pendulums[i].GetBob2(m))
    }

    /** The pendulum a press at (px, py) grabs: the first in array order, not the nearest. */
    function Grabbed(px: real, py: real, m: MathFns): Option<nat>
      reads this, pendulums
      requires Lawful(m)
    {
      FirstNear(Bobs(m), 0, px, py, DragRadius, m)
    }

    /**
     * The module-level set-up: one pendulum per letter of Group1 then Group2, anchored at
     * the placeholder origin (0, 140), with L1 = 0.6, unit masses and the drawn angles and
     * L2.
     */
    constructor (draws: seq<Draw>)
      requires |draws| == |Group1| + |Group2|
      requires forall i :: 0 <= i < |draws| ==> InRange(draws[i])
      ensures Valid() && dragging == null && fresh(pendulums)
      ensures forall i :: 0 <= i < |pendulums| ==>
        var p := pendulums[i];
        && p.origin == Point(0.0, 140.0) && p.L1 == 0.6 && p.L2 == draws[i].L2
        && p.m1 == 1.0 && p.m2 == 1.0
        && p.State() == Motion(draws[i].theta1, draws[i].theta2, 0.0, 0.0)
        && p.letter == [(Group1 + Group2)[i]]
        && p.trace == [] && !p.isDragging && !p.isHovered
    {
      var letters := Group1 + Group2;
      var ps: seq<DoublePendulum> := [];
      var i := 0;
      while i < |letters|
        invariant 0 <= i <= |letters| && |ps| == i
        invariant forall a, b :: 0 <= a < b < i ==> ps[a] != ps[b]
        invariant forall a :: 0 <= a < i ==> fresh(ps[a]) && ps[a].Valid()
        invariant forall a :: 0 <= a < i ==>
          var p := ps[a];
          && p.origin == Point(0.0, 140.0) && p.L1 == 0.6 && p.L2 == draws[a].L2
          && p.m1 == 1.0 && p.m2 == 1.0
          && p.State() == Motion(draws[a].theta1, draws[a].theta2, 0.0, 0.0)
          && p.letter == [letters[a]]
          && p.trace == [] && !p.isDragging && !p.isHovered
      {
        var dp := new DoublePendulum(Point(0.0, 140.0), 0.6, draws[i].L2, 1.0, 1.0,
                                     draws[i].theta1, draws[i].theta2, "#00000");
        dp.letter := [letters[i]];
        ps := ps + [dp];
        i := i + 1;
      }
      pendulums := ps;
      dragging := null;
    }

    /**
     * alignPendulums: lay the two groups out side by side, centred, just below the header,
     * and clear every trace. Only origins and traces change.
     */
    method Align(canvasWidth: real, headerHeight: Option<real>)
      requires Valid()
      modifies pendulums`origin, pendulums`trace
      ensures Valid()
      ensures forall i :: 0 <= i < |pendulums| ==>
        pendulums[i].origin == Point(LayoutX(i, canvasWidth), OriginY(headerHeight)) && pendulums[i].trace == []
    {
      var group1Width := (|Group1| - 1) as real * Spacing;
      var group2Width := (|Group2| - 1) as real * Spacing;
      var totalWidth := group1Width + group2Width + GroupGap;
      var startX := canvasWidth / 2.0 - totalWidth / 2.0;
      var originY := OriginY(headerHeight);

      var i := 0;
      while i < |Group1|
        invariant 0 <= i <= |Group1|
        invariant Valid()
        invariant forall k :: 0 <= k < i ==>
          pendulums[k].origin == Point(LayoutX(k, canvasWidth), originY) && pendulums[k].trace == []
      {
        assert startX + i as real * Spacing == LayoutX(i, canvasWidth);
        Place(pendulums[i], i, Point(startX + i as real * Spacing, originY));
        i := i + 1;
      }
      i := 0;
      while i < |Group2|
        invariant 0 <= i <= |Group2|
        invariant Valid()
        invariant forall k :: 0 <= k < |Group1| + i ==>
          pendulums[k].origin == Point(LayoutX(k, canvasWidth), originY) && pendulums[k].trace == []
      {
        assert startX + group1Width + GroupGap + i as real * Spacing == LayoutX(|Group1| + i, canvasWidth);
        Place(pendulums[|Group1| + i], |Group1| + i, Point(startX + group1Width + GroupGap + i as real * Spacing, originY));
        i := i + 1;
      }
    }

    /** The body of both layout loops: move p's origin and clear its trace. */
    method Place(p: DoublePendulum, ghost i: nat, origin: Point)
      requires Valid() && i < |pendulums| && p == pendulums[i]
      modifies p`origin, p`trace
      ensures Valid() && p.origin == origin && p.trace == []
    {
      p.origin := origin;
      p.trace := [];
    }

    /** One animation frame: update every pendulum once, in array order. */
    method Tick(m: MathFns)
      requires Valid() && Lawful(m)
      modifies pendulums`theta1, pendulums`theta2, pendulums`omega1, pendulums`omega2, pendulums`trace
      ensures Valid()
      ensures forall i :: 0 <= i < |pendulums| ==>
        pendulums[i].AdvancedFrom(old(pendulums[i].State()), old(pendulums[i].trace), m)
    {
      var i := 0;
      while i < |pendulums|
        invariant 0 <= i <= |pendulums|
        invariant Valid()
        invariant forall k :: 0 <= k < |pendulums| ==>
          if k < i then pendulums[k].AdvancedFrom(old(pendulums[k].State()), old(pendulums[k].trace), m)
          else pendulums[k].State() == old(pendulums[k].State()) && pendulums[k].trace == old(pendulums[k].trace)
      {
        UpdateAt(pendulums[i], i, m);
        i := i + 1;
      }
    }

    /** The body of the frame loop: p.update() for the i-th pendulum; the scene stays valid. */
    method UpdateAt(p: DoublePendulum, ghost i: nat, m: MathFns)
      requires Valid() && Lawful(m) && i < |pendulums| && p == pendulums[i]
      modifies p`theta1, p`theta2, p`omega1, p`omega2, p`trace
      ensures Valid()
      ensures p.AdvancedFrom(old(p.State()), old(p.trace), m)
    {
      p.Update(m);
    }

    /**
     * The mousedown hit branch for p: mark it dragged, clear its trace and re-pose it at the
     * pointer.
     */
    method Grab(p: DoublePendulum, px: real, py: real, m: MathFns)
      requires Valid() && Lawful(m) && p in pendulums
      modifies this`dragging, p`isDragging, p`trace, p`theta1, p`theta2, p`omega1, p`omega2
      ensures Valid() && dragging == p && p.isDragging && p.trace == [] && p.PosedAt(px, py, m)
    {
      dragging := p;
      p.isDragging := true;
      p.trace := [];
      p.DragTo(px, py, m);
    }

    /**
     * mousedown: grab the first pendulum in array order whose bob 2 is strictly within
     * DragRadius, clear its trace and re-pose it at the pointer. No hit, no change.
     */
    method MouseDown(px: real, py: real, m: MathFns)
      requires Valid() && Lawful(m)
      modifies this`dragging, pendulums`isDragging, pendulums`trace
      modifies pendulums`theta1, pendulums`theta2, pendulums`omega1, pendulums`omega2
      ensures Valid()
      ensures old(Grabbed(px, py, m)).None? ==>
        dragging == old(dragging) && forall i :: 0 <= i < |pendulums| ==> unchanged(pendulums[i])
      ensures old(Grabbed(px, py, m)).Some? ==>
        var k := old(Grabbed(px, py, m)).value;
        var p := pendulums[k];
        && dragging == p && p.isDragging && p.trace == [] && p.PosedAt(px, py, m)
        && forall i :: 0 <= i < |pendulums| && i != k ==> unchanged(pendulums[i])
    {
      ghost var bobs := Bobs(m);
      var i := 0;
      while i < |pendulums|
        invariant 0 <= i <= |pendulums|
        invariant forall j :: 0 <= j < i ==> !Near(bobs[j], px, py, DragRadius, m)
        invariant forall k :: 0 <= k < |pendulums| ==> unchanged(pendulums[k])
        invariant dragging == old(dragging)
      {
        var p := pendulums[i];
        if Near(p.GetBob2(m), px, py, DragRadius, m) {
          FirstNearIsFirstHit(bobs, px, py, DragRadius, m, i);
          Grab(p, px, py, m);
          return;
        }
        i := i + 1;
      }
    }

    /**
     * mousemove: the dragged pendulum (if any) follows the pointer, then every pendulum's
     * hover flag says whether the pointer is strictly within HoverRadius of its bob 2.
     */
    method MouseMove(px: real, py: real, m: MathFns)
      requires Valid() && Lawful(m)
      modifies pendulums`theta1, pendulums`theta2, pendulums`omega1, pendulums`omega2, pendulums`isHovered
      ensures Valid()
      ensures dragging != null ==> dragging.PosedAt(px, py, m)
      ensures forall i :: 0 <= i < |pendulums| ==>
        && pendulums[i].isHovered == Near(pendulums[i].GetBob2(m), px, py, HoverRadius, m)
        && (pendulums[i] != dragging ==> pendulums[i].State() == old(pendulums[i].State()))
    {
      if dragging != null {
        dragging.DragTo(px, py, m);
      }
      UpdateHover(px, py, m);
    }

    /** The hover loop of mousemove; only the hover flags change. */
    method UpdateHover(px: real, py: real, m: MathFns)
      requires Valid() && Lawful(m)
      modifies pendulums`isHovered
      ensures Valid()
      ensures forall i :: 0 <= i < |pendulums| ==>
        pendulums[i].isHovered == Near(pendulums[i].GetBob2(m), px, py, HoverRadius, m)
    {
      var i := 0;
      while i < |pendulums|
        invariant 0 <= i <= |pendulums|
        invariant Valid()
        invariant forall k :: 0 <= k < i ==>
          pendulums[k].isHovered == Near(pendulums[k].GetBob2(m), px, py, HoverRadius, m)
      {
        var p := pendulums[i];
        p.isHovered := Near(p.GetBob2(m), px, py, HoverRadius, m);
        i := i + 1;
      }
    }

    /** mouseup: end the drag, if one is in progress. */
    method MouseUp()
      requires Valid()
      modifies this`dragging, pendulums`isDragging
      ensures Valid() && dragging == null
      ensures old(dragging) != null ==> !old(dragging).isDragging
      ensures forall i :: 0 <= i < |pendulums| && pendulums[i] != old(dragging) ==>
        pendulums[i].isDragging == old(pendulums[i].isDragging)
    {
      if dragging != null {
        dragging.isDragging := false;
        dragging := null;
      }
    }

    /** mouseleave: end the drag, if one is in progress, and clear every hover flag. */
    method MouseLeave()
      requires Valid()
      modifies this`dragging, pendulums`isDragging, pendulums`isHovered
      ensures Valid() && dragging == null
      ensures old(dragging) != null ==> !old(dragging).isDragging
      ensures forall i :: 0 <= i < |pendulums| ==>
        && !pendulums[i].isHovered
        && (pendulums[i] != old(dragging) ==> pendulums[i].isDragging == old(pendulums[i].isDragging))
    {
      if dragging != null {
        dragging.isDragging := false;
        dragging := null;
      }
      var i := 0;
      while i < |pendulums|
        invariant 0 <= i <= |pendulums|
        invariant Valid() && dragging == null
        invariant old(dragging) != null ==> !old(dragging).isDragging
        invariant forall k :: 0 <= k < i ==> !pendulums[k].isHovered
        invariant forall k :: 0 <= k < |pendulums| && pendulums[k] != old(dragging) ==>
          pendulums[k].isDragging == old(pendulums[k].isDragging)
      {
        pendulums[i].isHovered := false;
        i := i + 1;
      }
    }
  }
}
