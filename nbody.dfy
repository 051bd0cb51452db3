/**
 * The N-body background animation: one `update` is a velocity pass over every unordered
 * pair of particles (mutual gravity with equal and opposite momentum changes), followed by
 * a position pass that moves each particle by its velocity and wraps it around the canvas.
 *
 * The particles live in an array of values; the method `Update` works on it in place and
 * is proved to compute `Step`, the same update stated pair by pair on sequences.
 */
module NBody {
  import opened JsMath

  /** The gravity constant. */
  const G: real := 1.0
  /** Added to the distance (not to the squared distance) before normalising the direction. */
  const Softening: real := 0.1

  datatype Particle = Particle(x: real, y: real, vx: real, vy: real, mass: real)

  /** Where each particle is. */
  function Positions(s: seq<Particle>): (r: seq<(real, real)>)
    ensures |r| == |s|
  {
    seq(|s|, k requires 0 <= k < |s| => (s[k].x, s[k].y))
  }

  /** The mass of each particle. */
  function Masses(s: seq<Particle>): (r: seq<real>)
    ensures |r| == |s|
  {
    seq(|s|, k requires 0 <= k < |s| => s[k].mass)
  }

  ghost predicate AllPositive(ms: seq<real>) {
    forall k :: 0 <= k < |ms| ==> ms[k] > 0.0
  }

  ghost predicate Distinct<T>(xs: seq<T>) {
    forall a, b :: 0 <= a < b < |xs| ==> xs[a] != xs[b]
  }

  /** Every mass is positive (the source draws them from [10, 20)). */
  ghost predicate Massive(s: seq<Particle>) {
    AllPositive(Masses(s))
  }

  /** No two particles share a position, so every squared distance is nonzero. */
  ghost predicate Separated(s: seq<Particle>) {
    Distinct(Positions(s))
  }

  /** What the velocity pass needs of the particles. */
  ghost predicate Ready(s: seq<Particle>) {
    Massive(s) && Separated(s)
  }

  /** Same positions and same masses: what the velocity pass leaves alone. */
  ghost predicate SameBodies(s: seq<Particle>, t: seq<Particle>) {
    Positions(s) == Positions(t) && Masses(s) == Masses(t)
  }

  /** Particles i < j can pull on each other: positive masses at distinct positions. */
  predicate Pullable(s: seq<Particle>, i: nat, j: nat) {
    && i < j < |s|
    && s[i].mass > 0.0 && s[j].mass > 0.0
    && (s[i].x != s[j].x || s[i].y != s[j].y)
  }

  /** Any two particles of a ready sequence can pull on each other. */
  lemma PullableWhenReady(s: seq<Particle>, i: nat, j: nat)
    requires Ready(s) && i < j < |s|
    ensures Pullable(s, i, j)
  {
    assert Positions(s)[i] != Positions(s)[j];
    assert Masses(s)[i] > 0.0 && Masses(s)[j] > 0.0;
  }

  lemma SumOfSquaresPositive(dx: real, dy: real)
    requires dx != 0.0 || dy != 0.0
    ensures dx * dx + dy * dy > 0.0
  {
    SumOfSquaresNonNegative(dx, dy);
    if dx != 0.0 {
      if dx < 0.0 {
        assert dx * dx == (-dx) * (-dx);
      }
      assert dx * dx > 0.0;
    } else {
      if dy < 0.0 {
        assert dy * dy == (-dy) * (-dy);
      }
      assert dy * dy > 0.0;
    }
  }

  /**
   * The velocity changes one pair contributes: (aix, aiy) to particle i and (ajx, ajy) to
   * particle j (the source's ax, ay, bx and by).
   */
  datatype Impulse = Impulse(aix: real, aiy: real, ajx: real, ajy: real)

  /**
   * The gravity between pi and pj. The momentum changes are equal and opposite, and each
   * particle is pulled towards the other: aix has the sign of dx = pj.x - pi.x, ajx the
   * opposite sign, and likewise along y.
   */
  function PairImpulse(pi: Particle, pj: Particle, m: MathFns): (r: Impulse)
    requires SqrtLawful(m) && pi.mass > 0.0 && pj.mass > 0.0
    requires pi.x != pj.x || pi.y != pj.y
    ensures pi.mass * r.aix + pj.mass * r.ajx == 0.0
    ensures pi.mass * r.aiy + pj.mass * r.ajy == 0.0
    ensures var dx := pj.x - pi.x;
      && (dx > 0.0 ==> r.aix > 0.0 && r.ajx < 0.0)
      && (dx < 0.0 ==> r.aix < 0.0 && r.ajx > 0.0)
      && (dx == 0.0 ==> r.aix == 0.0 && r.ajx == 0.0)
    ensures var dy := pj.y - pi.y;
      && (dy > 0.0 ==> r.aiy > 0.0 && r.ajy < 0.0)
      && (dy < 0.0 ==> r.aiy < 0.0 && r.ajy > 0.0)
      && (dy == 0.0 ==> r.aiy == 0.0 && r.ajy == 0.0)
  {
    var dx := pj.x - pi.x;
    var dy := pj.y - pi.y;
    var distSq := dx * dx + dy * dy;
    calc {
      distSq;
    ==
      dx * dx + dy * dy;
    > { SumOfSquaresPositive(dx, dy); }
      0.0;
    }
    var dist := m.sqrt(distSq) + Softening;
    var force := (G * pi.mass * pj.mass) / distSq;
    ForcePositive(pi.mass, pj.mass, distSq);
    PullTowards(force, dx, dist, pi.mass, pj.mass);
    PullTowards(force, dy, dist, pi.mass, pj.mass);
    Impulse(force * dx / dist / pi.mass, force * dy / dist / pi.mass,
            -force * dx / dist / pj.mass, -force * dy / dist / pj.mass)
  }

  lemma ForcePositive(mi: real, mj: real, distSq: real)
    requires mi > 0.0 && mj > 0.0 && distSq > 0.0
    ensures (G * mi * mj) / distSq > 0.0
  {
    assert mi * mj > 0.0;
  }

  /** One axis of PairImpulse: opposite momentum changes, each pointing along d or against it. */
  lemma PullTowards(force: real, d: real, dist: real, mi: real, mj: real)
    requires force > 0.0 && dist > 0.0 && mi > 0.0 && mj > 0.0
    ensures mi * (force * d / dist / mi) + mj * (-force * d / dist / mj) == 0.0
    ensures d > 0.0 ==> force * d / dist / mi > 0.0 && -force * d / dist / mj < 0.0
    ensures d < 0.0 ==> force * d / dist / mi < 0.0 && -force * d / dist / mj > 0.0
    ensures d == 0.0 ==> force * d / dist / mi == 0.0 && -force * d / dist / mj == 0.0
  {
    var q := force * d / dist;
    assert -force * d / dist == -q;
    assert mi * (q / mi) == q;
    assert mj * (-q / mj) == -q;
    if d > 0.0 {
      assert force * d > 0.0;
    } else if d < 0.0 {
      assert force * (-d) > 0.0;
    }
  }

  /** The velocity pass for the pair (i, j): both velocities change, nothing else does. */
  function KickPair(s: seq<Particle>, i: nat, j: nat, m: MathFns): (r: seq<Particle>)
    requires SqrtLawful(m) && Pullable(s, i, j)
    ensures |r| == |s|
  {
    var pi := s[i];
    var pj := s[j];
    var imp := PairImpulse(pi, pj, m);
    s[i := pi.(vx := pi.vx + imp.aix, vy := pi.vy + imp.aiy)]
     [j := pj.(vx := pj.vx + imp.ajx, vy := pj.vy + imp.ajy)]
  }

  /**
   * One pull changes particles i and j only, and of those only the velocities; each
   * velocity changes by the pair's impulse.
   */
  lemma KickPairTouchesOnlyPair(s: seq<Particle>, i: nat, j: nat, m: MathFns)
    requires SqrtLawful(m) && Pullable(s, i, j)
    ensures var r := KickPair(s, i, j, m);
      && (forall k :: 0 <= k < |s| && k != i && k != j ==> r[k] == s[k])
      && r[i].x == s[i].x && r[i].y == s[i].y && r[i].mass == s[i].mass
      && r[j].x == s[j].x && r[j].y == s[j].y && r[j].mass == s[j].mass
      && var imp := PairImpulse(s[i], s[j], m);
      && r[i].vx == s[i].vx + imp.aix && r[i].vy == s[i].vy + imp.aiy
      && r[j].vx == s[j].vx + imp.ajx && r[j].vy == s[j].vy + imp.ajy
  {
  }

  /**
   * The pair (i, j) when it can pull; otherwise nothing changes. The source would divide by
   * a zero distance there; under Ready that never happens (ReadyPairsAlwaysPull).
   */
  function KickIfPullable(s: seq<Particle>, i: nat, j: nat, m: MathFns): (r: seq<Particle>)
    requires SqrtLawful(m)
    ensures |r| == |s|
  {
    if Pullable(s, i, j) then KickPair(s, i, j, m) else s
  }

  /** The velocity pass over the given pairs, in order. */
  function KickAll(s: seq<Particle>, pairs: seq<(nat, nat)>, m: MathFns): (r: seq<Particle>)
    requires SqrtLawful(m)
    ensures |r| == |s|
    decreases |pairs|
  {
    if pairs == [] then s
    else
      var (i, j) := pairs[|pairs| - 1];
      KickIfPullable(KickAll(s, pairs[..|pairs| - 1], m), i, j, m)
  }

  /** The pairs (i, i + 1), ..., (i, j - 1): the inner loop for particle i stopped before j. */
  function RowTo(i: nat, j: nat): (r: seq<(nat, nat)>)
    ensures |r| == if j <= i + 1 then 0 else j - i - 1
    ensures forall k :: 0 <= k < |r| ==> r[k] == (i, i + 1 + k)
  {
    if j <= i + 1 then [] else RowTo(i, j - 1) + [(i, j - 1)]
  }

  /** The pairs the outer loop has visited once particles 0 .. i - 1 are done. */
  function Rows(i: nat, n: nat): (r: seq<(nat, nat)>)
    ensures forall k :: 0 <= k < |r| ==> r[k].0 < i && r[k].0 < r[k].1 < n
  {
    if i == 0 then [] else Rows(i - 1, n) + RowTo(i - 1, n)
  }

  /** The pairs one update visits, in visiting order. */
  function Pairs(n: nat): seq<(nat, nat)> {
    Rows(n, n)
  }

  /** p comes before q: by first index, then by second. */
  predicate Before(p: (nat, nat), q: (nat, nat)) {
    p.0 < q.0 || (p.0 == q.0 && p.1 < q.1)
  }

  lemma {:induction false} RowsLength(i: nat, n: nat)
    requires i <= n
    ensures 2 * |Rows(i, n)| == i * (2 * n - i - 1)
  {
    if i > 0 {
      RowsLength(i - 1, n);
      var front := Rows(i - 1, n);
      assert |Rows(i, n)| == |front| + (n - i);
      calc {
        2 * |Rows(i, n)|;
      ==
        2 * |front| + 2 * (n - i);
      ==
        (i - 1) * (2 * n - (i - 1) - 1) + 2 * (n - i);
      ==
        i * (2 * n - i - 1);
      }
    }
  }

  lemma {:induction false} RowsInOrder(i: nat, n: nat)
    ensures forall k, l :: 0 <= k < l < |Rows(i, n)| ==> Before(Rows(i, n)[k], Rows(i, n)[l])
  {
    if i > 0 {
      RowsInOrder(i - 1, n);
      var front, row := Rows(i - 1, n), RowTo(i - 1, n);
      var r := Rows(i, n);
      forall k, l | 0 <= k < l < |r|
        ensures Before(r[k], r[l])
      {
        if l < |front| {
          assert r[k] == front[k] && r[l] == front[l];
        } else if k < |front| {
          assert r[k] == front[k] && r[l] == row[l - |front|];
        } else {
          assert r[k] == row[k - |front|] && r[l] == row[l - |front|];
        }
      }
    }
  }

  lemma {:induction false} RowsComplete(i: nat, n: nat)
    ensures forall a: nat, b: nat :: a < i && a < b < n ==> (a, b) in Rows(i, n)
  {
    if i > 0 {
      RowsComplete(i - 1, n);
      var front, row := Rows(i - 1, n), RowTo(i - 1, n);
      var r := Rows(i, n);
      forall a: nat, b: nat | a < i && a < b < n
        ensures (a, b) in r
      {
        if a < i - 1 {
          assert (a, b) in front;
        } else {
          assert row[b - i] == (a, b);
        }
      }
    }
  }

  /**
   * One update visits exactly the unordered pairs i < j < n, each once and in increasing
   * order, n * (n - 1) / 2 of them; no pair (i, i) is visited.
   */
  lemma {:induction false} PairsVisitedOnce(n: nat)
    ensures forall a: nat, b: nat :: (a, b) in Pairs(n) <==> a < b < n
    ensures forall k, l :: 0 <= k < l < |Pairs(n)| ==> Before(Pairs(n)[k], Pairs(n)[l])
    ensures forall k, l :: 0 <= k < l < |Pairs(n)| ==> Pairs(n)[k] != Pairs(n)[l]
    ensures 2 * |Pairs(n)| == n * (n - 1)
  {
    RowsLength(n, n);
    RowsInOrder(n, n);
    RowsComplete(n, n);
  }

  /**
   * The wrap of one coordinate into [0, w]: add w when below 0, then subtract w when
   * above w (the second test sees the result of the first). For a canvas of size w >= 0,
   * the result is inside [0, w] exactly when the coordinate was inside [-w, 2w].
   */
  function Wrap(x: real, w: real): (r: real)
    ensures r == x || r == x + w || r == x - w
    ensures 0.0 <= x <= w ==> r == x
    ensures 0.0 <= w ==> (-w <= x <= 2.0 * w <==> 0.0 <= r <= w)
  {
    var shifted := if x < 0.0 then x + w else x;
    if shifted > w then shifted - w else shifted
  }

  /** The position pass for one particle. */
  function Move(p: Particle, width: real, height: real): (r: Particle)
    ensures r.vx == p.vx && r.vy == p.vy && r.mass == p.mass
  {
    p.(x := Wrap(p.x + p.vx, width), y := Wrap(p.y + p.vy, height))
  }

  function MoveAll(s: seq<Particle>, width: real, height: real): (r: seq<Particle>)
    ensures |r| == |s| && Masses(r) == Masses(s)
    ensures forall k :: 0 <= k < |s| ==> r[k] == Move(s[k], width, height)
  {
    var r := seq(|s|, k requires 0 <= k < |s| => Move(s[k], width, height));
    assert Masses(r) == Masses(s);
    r
  }

  /** One update: every velocity change first, in pair order, then every move. */
  function Step(s: seq<Particle>, width: real, height: real, m: MathFns): (r: seq<Particle>)
    requires SqrtLawful(m)
    ensures |r| == |s| && Masses(r) == Masses(s)
  {
    KickAllKeepsBodies(s, Pairs(|s|), m);
    MoveAll(KickAll(s, Pairs(|s|), m), width, height)
  }

  /** One pull leaves every position and every mass as it was. */
  lemma KickIfPullableKeepsBodies(s: seq<Particle>, i: nat, j: nat, m: MathFns)
    requires SqrtLawful(m)
    ensures SameBodies(s, KickIfPullable(s, i, j, m))
  {
    var r := KickIfPullable(s, i, j, m);
    assert Positions(r) == Positions(s);
    assert Masses(r) == Masses(s);
  }

  /** The velocity pass leaves every position and every mass as it was. */
  lemma {:induction false} KickAllKeepsBodies(s: seq<Particle>, pairs: seq<(nat, nat)>, m: MathFns)
    requires SqrtLawful(m)
    ensures SameBodies(s, KickAll(s, pairs, m))
    decreases |pairs|
  {
    if pairs != [] {
      var front := pairs[..|pairs| - 1];
      KickAllKeepsBodies(s, front, m);
      var (i, j) := pairs[|pairs| - 1];
      KickIfPullableKeepsBodies(KickAll(s, front, m), i, j, m);
    }
  }

  /**
   * From particles with positive masses at distinct positions, however many pairs have
   * pulled already, every pair i < j can still pull: the guard of KickIfPullable never
   * skips a pair of an update.
   */
  lemma ReadyPairsAlwaysPull(s: seq<Particle>, pairs: seq<(nat, nat)>, i: nat, j: nat, m: MathFns)
    requires SqrtLawful(m) && Ready(s) && i < j < |s|
    ensures Pullable(KickAll(s, pairs, m), i, j)
  {
    var t := KickAll(s, pairs, m);
    KickAllKeepsBodies(s, pairs, m);
    assert Ready(t);
    PullableWhenReady(t, i, j);
  }

  /** Kicking along pairs + [(i, j)] is kicking along pairs, then the pair (i, j). */
  lemma KickAllSnoc(s: seq<Particle>, pairs: seq<(nat, nat)>, i: nat, j: nat, m: MathFns)
    requires SqrtLawful(m)
    ensures KickAll(s, pairs + [(i, j)], m) == KickIfPullable(KickAll(s, pairs, m), i, j, m)
  {
    assert (pairs + [(i, j)])[..|pairs|] == pairs;
  }

  /** Kicking along A + B is kicking along A, then along B. */
  lemma {:induction false} KickAllAppend(s: seq<Particle>, a: seq<(nat, nat)>, b: seq<(nat, nat)>, m: MathFns)
    requires SqrtLawful(m)
    ensures KickAll(s, a + b, m) == KickAll(KickAll(s, a, m), b, m)
    decreases |b|
  {
    if b == [] {
      assert a + b == a;
    } else {
      var front := b[..|b| - 1];
      KickAllAppend(s, a, front, m);
      assert (a + b)[..|a + b| - 1] == a + front;
    }
  }

  /** The inner loop for particle i run up to (not including) j: the pairs (i, i + 1), ..., (i, j - 1). */
  function KickRowTo(s: seq<Particle>, i: nat, j: nat, m: MathFns): (r: seq<Particle>)
    requires SqrtLawful(m)
    ensures |r| == |s|
    decreases j
  {
    if j <= i + 1 then s else KickIfPullable(KickRowTo(s, i, j - 1, m), i, j - 1, m)
  }

  /** The outer loop run for particles 0 .. i - 1, each inner loop to the end. */
  function KickRows(s: seq<Particle>, i: nat, m: MathFns): (r: seq<Particle>)
    requires SqrtLawful(m)
    ensures |r| == |s|
  {
    if i == 0 then s else KickRowTo(KickRows(s, i - 1, m), i - 1, |s|, m)
  }

  /** The inner loop visits exactly the pairs of RowTo, in order. */
  lemma {:induction false} KickRowToVisitsRow(s: seq<Particle>, i: nat, j: nat, m: MathFns)
    requires SqrtLawful(m)
    ensures KickRowTo(s, i, j, m) == KickAll(s, RowTo(i, j), m)
    decreases j
  {
    if j > i + 1 {
      KickRowToVisitsRow(s, i, j - 1, m);
      KickAllSnoc(s, RowTo(i, j - 1), i, j - 1, m);
    }
  }

  /** The nested loops visit exactly the pairs of Rows, in order. */
  lemma {:induction false} KickRowsVisitsRows(s: seq<Particle>, i: nat, m: MathFns)
    requires SqrtLawful(m)
    ensures KickRows(s, i, m) == KickAll(s, Rows(i, |s|), m)
  {
    if i > 0 {
      var k: nat := i - 1;
      KickRowsVisitsRows(s, k, m);
      var t := KickRows(s, k, m);
      KickRowToVisitsRow(t, k, |s|, m);
      KickAllAppend(s, Rows(k, |s|), RowTo(k, |s|), m);
    }
  }

  /**
   * update, on the particle array in place: the nested loop over the pairs, then the loop
   * that moves every particle.
   */
  method Update(particles: array<Particle>, width: real, height: real, m: MathFns)
    requires SqrtLawful(m) && Ready(particles[..])
    modifies particles
    ensures particles[..] == Step(old(particles[..]), width, height, m)
  {
    ghost var s0 := particles[..];
    var n := particles.Length;
    var i := 0;
    while i < n
      invariant 0 <= i <= n
      invariant particles[..] == KickRows(s0, i, m)
      invariant Ready(particles[..])
    {
      AttractRow(particles, i, m);
      i := i + 1;
    }
    KickRowsVisitsRows(s0, n, m);
    MoveEvery(particles, width, height);
  }

  /** The inner loop of update for particle i: the pairs (i, i + 1), ..., (i, n - 1). */
  method AttractRow(particles: array<Particle>, i: nat, m: MathFns)
    requires SqrtLawful(m) && Ready(particles[..])
    requires i < particles.Length
    modifies particles
    ensures particles[..] == KickRowTo(old(particles[..]), i, particles.Length, m)
    ensures Ready(particles[..])
  {
    ghost var s0 := particles[..];
    var j := i + 1;
    while j < particles.Length
      invariant i + 1 <= j <= particles.Length
      invariant particles[..] == KickRowTo(s0, i, j, m)
      invariant Ready(particles[..])
    {
      Attract(particles, i, j, m);
      j := j + 1;
    }
  }

  /**
   * The body of the inner loop: the pair (i, j) pull on each other; the arithmetic is
   * PairImpulse's.
   */
  method Attract(particles: array<Particle>, i: nat, j: nat, m: MathFns)
    requires SqrtLawful(m) && Ready(particles[..])
    requires i < j < particles.Length
    modifies particles
    ensures particles[..] == KickIfPullable(old(particles[..]), i, j, m)
    ensures Ready(particles[..])
  {
    PullableWhenReady(particles[..], i, j);
    KickIfPullableKeepsBodies(particles[..], i, j, m);
    var pi := particles[i];
    var pj := particles[j];
    var imp := PairImpulse(pi, pj, m);
    particles[i] := pi.(vx := pi.vx + imp.aix, vy := pi.vy + imp.aiy);
    particles[j] := pj.(vx := pj.vx + imp.ajx, vy := pj.vy + imp.ajy);
  }

  /** The second loop of update: move every particle and wrap it around the canvas. */
  method MoveEvery(particles: array<Particle>, width: real, height: real)
    modifies particles
    ensures particles[..] == MoveAll(old(particles[..]), width, height)
  {
    var k := 0;
    while k < particles.Length
      invariant 0 <= k <= particles.Length
      invariant forall q :: 0 <= q < k ==> particles[q] == Move(old(particles[q]), width, height)
      invariant forall q :: k <= q < particles.Length ==> particles[q] == old(particles[q])
    {
      var p := particles[k];
      var x := p.x + p.vx;
      var y := p.y + p.vy;
      if x < 0.0 { x := x + width; }
      if x > width { x := x - width; }
      if y < 0.0 { y := y + height; }
      if y > height { y := y - height; }
      particles[k] := p.(x := x, y := y);
      k := k + 1;
    }
  }

  /** Total momentum along x and along y: the sums of mass times velocity. */
  function MomentumX(s: seq<Particle>): real {
    if s == [] then 0.0 else MomentumX(s[..|s| - 1]) + s[|s| - 1].mass * s[|s| - 1].vx
  }

  function MomentumY(s: seq<Particle>): real {
    if s == [] then 0.0 else MomentumY(s[..|s| - 1]) + s[|s| - 1].mass * s[|s| - 1].vy
  }

  /** Replacing one particle changes each momentum sum by that particle's difference. */
  lemma {:induction false} MomentumOfReplace(s: seq<Particle>, i: nat, p: Particle)
    requires i < |s|
    ensures MomentumX(s[i := p]) == MomentumX(s) - s[i].mass * s[i].vx + p.mass * p.vx
    ensures MomentumY(s[i := p]) == MomentumY(s) - s[i].mass * s[i].vy + p.mass * p.vy
  {
    var t := s[i := p];
    if i < |s| - 1 {
      MomentumOfReplace(s[..|s| - 1], i, p);
      assert t[..|t| - 1] == s[..|s| - 1][i := p];
    } else {
      assert t[..|t| - 1] == s[..|s| - 1];
    }
  }

  /** The momentum sums see only masses and velocities. */
  lemma {:induction false} MomentumOfVelocities(s: seq<Particle>, t: seq<Particle>)
    requires |s| == |t|
    requires forall k :: 0 <= k < |s| ==> s[k].mass == t[k].mass && s[k].vx == t[k].vx && s[k].vy == t[k].vy
    ensures MomentumX(s) == MomentumX(t) && MomentumY(s) == MomentumY(t)
  {
    if s != [] {
      MomentumOfVelocities(s[..|s| - 1], t[..|t| - 1]);
    }
  }

  /**
   * Replacing particles i and j by two of the same masses whose momenta add up to what
   * theirs did leaves both momentum sums as they were.
   */
  lemma ExchangeKeepsMomentum(s: seq<Particle>, i: nat, j: nat, p: Particle, q: Particle)
    requires i < j < |s|
    requires p.mass * p.vx + q.mass * q.vx == s[i].mass * s[i].vx + s[j].mass * s[j].vx
    requires p.mass * p.vy + q.mass * q.vy == s[i].mass * s[i].vy + s[j].mass * s[j].vy
    ensures MomentumX(s[i := p][j := q]) == MomentumX(s)
    ensures MomentumY(s[i := p][j := q]) == MomentumY(s)
  {
    var t := s[i := p];
    MomentumOfReplace(s, i, p);
    MomentumOfReplace(t, j, q);
    assert t[j] == s[j];
  }

  /** One pair's velocity change leaves both momentum sums as they were. */
  lemma {:induction false} KickPairKeepsMomentum(s: seq<Particle>, i: nat, j: nat, m: MathFns)
    requires SqrtLawful(m) && Pullable(s, i, j)
    ensures MomentumX(KickPair(s, i, j, m)) == MomentumX(s)
    ensures MomentumY(KickPair(s, i, j, m)) == MomentumY(s)
  {
    var pi, pj := s[i], s[j];
    var imp := PairImpulse(pi, pj, m);
    var pi' := pi.(vx := pi.vx + imp.aix, vy := pi.vy + imp.aiy);
    var pj' := pj.(vx := pj.vx + imp.ajx, vy := pj.vy + imp.ajy);
    Distribute(pi.mass, pi.vx, imp.aix);
    Distribute(pj.mass, pj.vx, imp.ajx);
    Distribute(pi.mass, pi.vy, imp.aiy);
    Distribute(pj.mass, pj.vy, imp.ajy);
    ExchangeKeepsMomentum(s, i, j, pi', pj');
  }

  lemma Distribute(a: real, b: real, c: real)
    ensures a * (b + c) == a * b + a * c
  {
  }

  lemma {:induction false} KickAllKeepsMomentum(s: seq<Particle>, pairs: seq<(nat, nat)>, m: MathFns)
    requires SqrtLawful(m)
    ensures MomentumX(KickAll(s, pairs, m)) == MomentumX(s)
    ensures MomentumY(KickAll(s, pairs, m)) == MomentumY(s)
    decreases |pairs|
  {
    if pairs != [] {
      var front := pairs[..|pairs| - 1];
      KickAllKeepsMomentum(s, front, m);
      var t := KickAll(s, front, m);
      var (i, j) := pairs[|pairs| - 1];
      if Pullable(t, i, j) {
        KickPairKeepsMomentum(t, i, j, m);
      }
    }
  }

  /**
   * An update leaves the total momentum unchanged: the velocity pass moves momentum only
   * between the two particles of a pair, and the position pass does not touch velocities
   * or masses.
   */
  lemma {:induction false} StepKeepsMomentum(s: seq<Particle>, width: real, height: real, m: MathFns)
    requires SqrtLawful(m)
    ensures MomentumX(Step(s, width, height, m)) == MomentumX(s)
    ensures MomentumY(Step(s, width, height, m)) == MomentumY(s)
  {
    var kicked := KickAll(s, Pairs(|s|), m);
    KickAllKeepsMomentum(s, Pairs(|s|), m);
    MomentumOfVelocities(MoveAll(kicked, width, height), kicked);
  }

  /** Every particle lies inside the canvas box [0, width] x [0, height]. */
  ghost predicate InBox(s: seq<Particle>, width: real, height: real) {
    forall k :: 0 <= k < |s| ==> 0.0 <= s[k].x <= width && 0.0 <= s[k].y <= height
  }

  /**
   * A particle inside the box that moves by at most one canvas size per axis is inside the
   * box again after the position pass.
   */
  lemma {:induction false} MoveAllKeepsInBox(s: seq<Particle>, width: real, height: real)
    requires InBox(s, width, height)
    requires forall k :: 0 <= k < |s| ==> Abs(s[k].vx) <= width && Abs(s[k].vy) <= height
    ensures InBox(MoveAll(s, width, height), width, height)
  {
    var r := MoveAll(s, width, height);
    forall k | 0 <= k < |s|
      ensures 0.0 <= r[k].x <= width && 0.0 <= r[k].y <= height
    {
      assert -width <= s[k].x + s[k].vx <= 2.0 * width;
      assert -height <= s[k].y + s[k].vy <= 2.0 * height;
    }
  }

}
