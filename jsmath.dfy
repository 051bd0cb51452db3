/**
 * The host's `Math` library, as seen by both simulations.
 *
 * The trigonometric functions, `sqrt` and `hypot` are left uninterpreted: they are
 * fields of a `MathFns` value that every operation receives as a parameter. `Lawful`
 * lists the only facts the model relies on. `acos` and `sqrt` are partial arrows, so
 * every call site has to show that its argument lies in the function's domain.
 */
module JsMath {

  /** Math.PI as the exact rational value of its IEEE-754 double. */
  const Pi: real := 3.141592653589793
  const TwoPi: real := 6.283185307179586  // 2 * Pi, exactly

  datatype MathFns = MathFns(
    sin: real -> real,
    cos: real -> real,
    acos: real --> real,
    atan2: (real, real) -> real,
    sqrt: real --> real,
    hypot: (real, real) -> real)

  /** The facts about the host library that the model uses, and nothing more. */
  ghost predicate Lawful(m: MathFns) {
    && m.sin(0.0) == 0.0
    && (forall x :: -1.0 <= m.sin(x) <= 1.0)
    && (forall x :: -1.0 <= m.cos(x) <= 1.0)
    && (forall x :: -1.0 <= x <= 1.0 ==> m.acos.requires(x))
    && SqrtLawful(m)
  }

  /** The part of Lawful about sqrt: defined and non-negative on every non-negative number. */
  ghost predicate SqrtLawful(m: MathFns) {
    && (forall x :: 0.0 <= x ==> m.sqrt.requires(x))
    && (forall x :: 0.0 <= x ==> 0.0 <= m.sqrt(x))
  }

  /** Math.min and Math.max on two finite numbers. */
  function Min(a: real, b: real): (r: real)
    ensures r <= a && r <= b && (r == a || r == b)
  {
    if a <= b then a else b
  }

  function Max(a: real, b: real): (r: real)
    ensures r >= a && r >= b && (r == a || r == b)
  {
    if a >= b then a else b
  }

  /** Math.abs. */
  function Abs(a: real): (r: real)
    ensures r >= 0.0 && (r == a || r == -a)
  {
    if a < 0.0 then -a else a
  }

  /** A square is never negative, so `sqrt` of a sum of squares is always defined. */
  lemma SumOfSquaresNonNegative(dx: real, dy: real)
    ensures dx * dx + dy * dy >= 0.0
  {
    if dx < 0.0 {
      assert dx * dx == (-dx) * (-dx);
    }
    if dy < 0.0 {
      assert dy * dy == (-dy) * (-dy);
    }
  }

  /** The facts in `Lawful` are consistent: a library of constant functions meets them. */
  lemma LawfulIsSatisfiable()
    ensures exists m :: Lawful(m)
  {
    var m := MathFns(
      x => 0.0,
      x => 0.0,
      x requires -1.0 <= x <= 1.0 => 0.0,
      (y, x) => 0.0,
      x requires 0.0 <= x => 0.0,
      (a, b) => 0.0);
    assert Lawful(m);
  }
}
