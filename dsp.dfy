/**
 * The transcendental functions the synthesiser calls (`Math.sin`,
 * `Math.exp`, `Math.tanh`, `2 ** x`) are not modelled numerically: a song is
 * rendered against an `Oscillators` record of them, and only the ranges
 * stated by `Valid` are assumed of it.  Everything else (note choice,
 * indices, buffer bounds, draw order, fades) is exact.
 */
module Dsp {

  /** `Math.PI`. */
  const Pi: real := 3.141592653589793

  datatype Oscillators = Oscillators(
    sin: real -> real,
    exp: real -> real,
    tanh: real -> real,
    pow2: real -> real)

  /** The ranges of the real functions the record stands for. */
  ghost predicate Valid(d: Oscillators)
  {
    && (forall x :: -1.0 <= d.sin(x) <= 1.0)
    && (forall x :: 0.0 < d.exp(x))
    && (forall x :: x <= 0.0 ==> d.exp(x) <= 1.0)
    && (forall x :: -1.0 < d.tanh(x) < 1.0)
    && (forall x :: 0.0 < d.pow2(x))
  }

  /**
   * `x * k`.  Products of reals are written with it: a bound proved on an
   * inner product then carries over to the outer one by congruence, without
   * the solver multiplying out the product.
   */
  function Scale(x: real, k: real): real
  {
    x * k
  }

  /** `midiToFreq(m)`: 440 * 2^((m - 69) / 12), equal temperament at A4 = 440 Hz. */
  function MidiToFreq(d: Oscillators, midi: int): real
  {
    440.0 * d.pow2((midi - 69) as real / 12.0)
  }

  /**
   * JavaScript's `y % 1`: the remainder of `y` by 1, which keeps the sign of
   * `y`, taken by stepping `y` towards zero one unit at a time.  The
   * sources also take `t % p` for a period p > 0 and divide by p, which for
   * t >= 0 is `Frac(t / p)`.
   */
  function Frac(y: real): (r: real)
    ensures -1.0 < r < 1.0
    ensures y >= 0.0 ==> r >= 0.0
    ensures y <= 0.0 ==> r <= 0.0
    decreases if y >= 0.0 then y.Floor else (-y).Floor
  {
    if -1.0 < y < 1.0 then y
    else if y >= 1.0 then Frac(y - 1.0)
    else Frac(y + 1.0)
  }

  /**
   * The remainder differs from `y` by a whole number: it is `y - floor(y)`
   * for y >= 0 and `y + floor(-y)` below zero.
   */
  lemma {:induction false} FracIsFractionalPart(y: real)
    ensures y >= 0.0 ==> Frac(y) == y - y.Floor as real
    ensures y < 0.0 ==> Frac(y) == y + (-y).Floor as real
    decreases if y >= 0.0 then y.Floor else (-y).Floor
  {
    if y >= 1.0 {
      FracIsFractionalPart(y - 1.0);
      assert (y - 1.0).Floor == y.Floor - 1;
    } else if y <= -1.0 {
      FracIsFractionalPart(y + 1.0);
      if y + 1.0 < 0.0 {
        assert (-(y + 1.0)).Floor == (-y).Floor - 1;
      }
    }
  }

  /** `Math.abs(x)`. */
  function Abs(x: real): (r: real)
    ensures r >= 0.0 && (r == x || r == -x)
  {
    if x < 0.0 then -x else x
  }

  /** `Math.max(a, b)` of two reals. */
  function Max(a: real, b: real): (r: real)
    ensures r >= a && r >= b && (r == a || r == b)
  {
    if a >= b then a else b
  }

  /** `Math.min(a, b)` of two reals. */
  function Min(a: real, b: real): (r: real)
    ensures r <= a && r <= b && (r == a || r == b)
  {
    if a <= b then a else b
  }
}
