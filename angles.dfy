/**
 * `normalizeAngle`, the helper inside `dragTo`: two `while` loops that bring an angle
 * into [-PI, PI] by adding or removing whole turns. The loop version is proved equal to
 * a closed form.
 */
module Angles {
  import opened JsMath

  /** The least integer not below x. */
  function Ceil(x: real): (k: int)
    ensures x <= k as real < x + 1.0
  {
    -((-x).Floor)
  }

  /**
   * The number of whole turns normalizeAngle adds to a (negative when it removes turns):
   * an angle above PI loses just enough turns to land in (-PI, PI], an angle below -PI
   * gains just enough to land in [-PI, PI), and an angle already in [-PI, PI] keeps 0.
   */
  function Turns(a: real): (k: int)
    ensures -Pi <= a + TwoPi * k as real <= Pi
    ensures a > Pi ==> k < 0 && -Pi < a + TwoPi * k as real
    ensures a < -Pi ==> k > 0 && a + TwoPi * k as real < Pi
    ensures -Pi <= a <= Pi ==> k == 0
  {
    if a > Pi then -Ceil((a - Pi) / TwoPi)
    else if a < -Pi then Ceil((-Pi - a) / TwoPi)
    else 0
  }

  /**
   * For an angle outside [-PI, PI], only one turn count lands it in the half-open
   * interval that Turns promises.
   */
  lemma TurnsUnique(a: real, k: int)
    requires a > Pi ==> -Pi < a + TwoPi * k as real <= Pi
    requires a < -Pi ==> -Pi <= a + TwoPi * k as real < Pi
    requires a > Pi || a < -Pi
    ensures k == Turns(a)
  {
    var t := Turns(a);
  }

  /** The closed form of normalizeAngle. */
  function Normalized(a: real): (r: real)
    ensures -Pi <= r <= Pi
    ensures -Pi <= a <= Pi ==> r == a
    ensures a > Pi ==> -Pi < r < a
    ensures a < -Pi ==> a < r < Pi
  {
    a + TwoPi * Turns(a) as real
  }

  /** normalizeAngle, with the source's two loops. */
  method NormalizeAngle(a0: real) returns (a: real)
    ensures a == Normalized(a0)
  {
    a := a0;
    ghost var k: int := 0;
    while a > Pi
      invariant a == a0 + TwoPi * k as real
      invariant a0 > Pi ==> -Pi < a
      invariant a0 <= Pi ==> a == a0
      decreases Ceil((a - Pi) / TwoPi)
    {
      a, k := a - TwoPi, k - 1;
    }
    while a < -Pi
      invariant a == a0 + TwoPi * k as real
      invariant a <= Pi
      invariant a0 > Pi ==> -Pi < a
      invariant a0 < -Pi ==> a < Pi
      invariant -Pi <= a0 <= Pi ==> a == a0
      decreases Ceil((-Pi - a) / TwoPi)
    {
      a, k := a + TwoPi, k + 1;
    }
    if a0 > Pi || a0 < -Pi {
      TurnsUnique(a0, k);
    }
  }

  /** Normalising twice is the same as normalising once. */
  lemma NormalizedIdempotent(a: real)
    ensures Normalized(Normalized(a)) == Normalized(a)
  {
  }
}
