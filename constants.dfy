/** Game-wide constants (Constants.java, Boat.java), with `float` literals written as exact reals. */
module Constants {

  /** Fixed simulation step: 1 / 60 seconds. */
  const TIME_STEP: real := 1.0 / 60.0

  /** Longest frame time folded into the accumulator (named MIN_TIME_STEP in the game). */
  const MIN_TIME_STEP: real := 0.25

  const VIEWPORT_HEIGHT: real := 12.0

  /** 16 / 9 * VIEWPORT_HEIGHT. */
  const VIEWPORT_WIDTH: real := 16.0 / 9.0 * VIEWPORT_HEIGHT

  const BOAT_HEIGHT: real := 5.0

  const BOAT_ASPECT_RATIO: real := 1.07

  const BOAT_WIDTH: real := BOAT_ASPECT_RATIO * BOAT_HEIGHT

  /** libGDX's two-component vector. */
  datatype Vector2 = Vector2(x: real, y: real)
}

/** libGDX's `MathUtils.random` with the generator's draw passed in: a float draw is
    `start + u * (end - start)` for a uniform `u` in `[0, 1)`, an int draw is
    `start + k` for `k` in `0 .. end - start`. */
module Randomness {

  function RandomFloat(start: real, end: real, unit: real): (r: real)
    requires 0.0 <= unit < 1.0
    ensures start <= end ==> start <= r <= end
    ensures start < end ==> r < end
    ensures end < start ==> end < r <= start
  {
    var offset := Scaled(unit, end - start);
    start + offset
  }

  /** A draw from `[0, 1)` scales a span to a part of it. */
  function Scaled(unit: real, span: real): (r: real)
    requires 0.0 <= unit < 1.0
    ensures span >= 0.0 ==> 0.0 <= r <= span
    ensures span > 0.0 ==> r < span
    ensures span < 0.0 ==> span < r <= 0.0
  {
    if span < 0.0 then
      NegativeTimesPositive(span, 1.0 - unit);
      assert unit * span - span == -(span * (1.0 - unit));
      unit * span
    else
      unit * span
  }

  lemma NegativeTimesPositive(a: real, b: real)
    requires a < 0.0 && b > 0.0
    ensures a * b < 0.0
  {
  }

  function RandomInt(start: int, end: int, offset: int): (r: int)
    requires 0 <= offset <= end - start
    ensures start <= r <= end
  {
    start + offset
  }
}

/** Java's conversions and remainder on floating-point values, over the reals. */
module JavaMath {

  /** Java's cast of a real quotient to an integer: truncation toward zero. */
  function Truncate(q: real): (t: int)
    ensures q >= 0.0 ==> 0.0 <= t as real <= q < t as real + 1.0
    ensures q < 0.0 ==> t as real - 1.0 < q <= t as real <= 0.0
  {
    if q >= 0.0 then q.Floor else -((-q).Floor)
  }

  /** Java's `%` on doubles: the remainder keeps the sign of the dividend. */
  function JavaRemainder(a: real, m: real): (r: real)
    requires m > 0.0
    ensures a >= 0.0 ==> 0.0 <= r < m
    ensures a < 0.0 ==> -m < r <= 0.0
  {
    var t := Truncate(a / m);
    QuotientParts(a, m, t);
    a - m * (t as real)
  }

  lemma QuotientParts(a: real, m: real, t: int)
    requires m > 0.0 && t == Truncate(a / m)
    ensures a >= 0.0 ==> 0.0 <= a - m * (t as real) < m
    ensures a < 0.0 ==> -m < a - m * (t as real) <= 0.0
  {
    var q := a / m;
    var f := q - t as real;
    var r := a - m * (t as real);
    assert r == f * m;
    if a >= 0.0 {
      assert 0.0 <= f < 1.0;
      FractionScaled(r, f, m);
    } else {
      assert -1.0 < f <= 0.0;
      assert -r == (-f) * m;
      FractionScaled(-r, -f, m);
    }
  }

  /** A fraction of a positive `m` stays below `m`. */
  lemma FractionScaled(r: real, f: real, m: real)
    requires m > 0.0 && 0.0 <= f < 1.0 && r == f * m
    ensures 0.0 <= r < m
  {
  }
}
