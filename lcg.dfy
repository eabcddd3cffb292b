/**
 * The 32-bit linear congruential generator shared by every song generator:
 * state := (1664525 * state + 1013904223) mod 2^32, and each draw yields
 * state / 2^32 in [0, 1).  A draw is kept here as the integer state `u`;
 * the floating-point value it stands for is `ToUnit(u)`.
 */
module Lcg {
  import Arith

  const Modulus: nat := 0x1_0000_0000
  const Multiplier: nat := 1664525
  const Increment: nat := 1013904223

  /** An unsigned 32-bit integer (the result of JavaScript's `x >>> 0`). */
  type Word = x: nat | x < 0x1_0000_0000

  /** `x >>> 0`: JavaScript's ToUint32, reduction modulo 2^32. */
  function ToUint32(x: int): (w: Word)
    ensures 0 <= x < Modulus ==> w == x
    ensures (w - x) % Modulus == 0
  {
    x % Modulus
  }

  /** One step of the generator. */
  function Next(s: Word): Word
  {
    (Multiplier * s + Increment) % Modulus
  }

  /** The value in [0, 1) a draw stands for: state / 2^32, exact in a double. */
  function ToUnit(u: Word): (r: real)
    ensures 0.0 <= r < 1.0
  {
    u as real / Modulus as real
  }

  /** `rnd() < p / 100`, stated on the integer state. */
  predicate Below(u: Word, percent: nat)
  {
    u * 100 < percent * Modulus
  }

  /** `rnd() > p / 100`, stated on the integer state. */
  predicate Above(u: Word, percent: nat)
  {
    u * 100 > percent * Modulus
  }

  /** `Math.floor(rnd() * n)`: the product has at most 35 significant bits, so it is exact. */
  function Pick(u: Word, n: nat): (k: nat)
    ensures n > 0 ==> k < n
  {
    u * n / Modulus
  }

  /** The integer test `Below(u, p)` is the comparison `rnd() < p / 100` on the value the draw stands for. */
  lemma BelowMeans(u: Word, p: nat)
    ensures Below(u, p) <==> ToUnit(u) < p as real / 100.0
  {
    var x := u as real / Modulus as real;
    assert x * Modulus as real == u as real;
  }

  /** The integer test `Above(u, p)` is the comparison `rnd() > p / 100`. */
  lemma AboveMeans(u: Word, p: nat)
    ensures Above(u, p) <==> ToUnit(u) > p as real / 100.0
  {
    var x := u as real / Modulus as real;
    assert x * Modulus as real == u as real;
  }

  /** `Pick(u, n)` is `Math.floor(rnd() * n)` on the value the draw stands for. */
  lemma PickMeans(u: Word, n: nat)
    ensures Pick(u, n) == (ToUnit(u) * n as real).Floor
  {
    var k := Pick(u, n);
    var y := ToUnit(u) * n as real;
    assert y == (u * n) as real / Modulus as real;
    assert k * Modulus <= u * n < (k + 1) * Modulus;
    assert (k * Modulus) as real <= (u * n) as real;
    assert k as real <= y;
    assert y < (k + 1) as real;
  }

  /**
   * `Math.floor(lo + rnd() * (hi - lo))`, the generators' tempo draw: an
   * integer in [lo, hi), every one of which some draw reaches.
   */
  function InRange(u: Word, lo: nat, hi: nat): (r: nat)
    requires lo < hi
    ensures lo <= r < hi
  {
    lo + Pick(u, hi - lo)
  }

  /**
   * `InRange` is the floor of `lo + rnd() * (hi - lo)` on the value the draw
   * stands for; `lo` is whole, so it moves through the floor unchanged.
   */
  lemma InRangeMeans(u: Word, lo: nat, hi: nat)
    requires lo < hi
    ensures InRange(u, lo, hi) == (lo as real + ToUnit(u) * (hi - lo) as real).Floor
  {
    PickMeans(u, hi - lo);
    var y := ToUnit(u) * (hi - lo) as real;
    var k := y.Floor;
    assert k as real <= y < k as real + 1.0;
    assert (lo + k) as real <= lo as real + y < (lo + k) as real + 1.0;
  }

  /** The state `ceil(j * 2^32 / n)` draws `lo + j`: no value of a range of at most 2^32 is missed. */
  lemma InRangeOnto(lo: nat, hi: nat, j: nat)
    requires lo < hi <= lo + Modulus && j < hi - lo
    ensures var n := hi - lo;
            var u := (j * Modulus + n - 1) / n;
            u < Modulus && InRange(u, lo, hi) == lo + j
  {
    var n := hi - lo;
    var u := (j * Modulus + n - 1) / n;
    var r := (j * Modulus + n - 1) % n;
    assert j * Modulus + n - 1 == u * n + r;
    assert u * n >= j * Modulus;
    assert u * n < (j + 1) * Modulus by {
      assert u * n <= j * Modulus + n - 1;
    }
    assert u < Modulus by {
      assert u * n < n * Modulus by {
        Arith.MulAtLeast(n - j, Modulus);
        assert (j + 1) * Modulus <= n * Modulus;
      }
      MulMonotone(u, Modulus, n);
    }
    Arith.DivModUnique(u * n, Modulus, j, u * n - j * Modulus);
  }

  /** Products by the same positive factor keep the order of the other factors. */
  lemma MulMonotone(a: nat, b: nat, n: nat)
    requires n > 0 && a * n < b * n
    ensures a < b
  {
  }

  /** The state after `k` draws from state `s`. */
  function Advance(s: Word, k: nat): Word
  {
    if k == 0 then s else Next(Advance(s, k - 1))
  }

  /** The first `k` values drawn from a generator whose state is `s`. */
  function Stream(s: Word, k: nat): (r: seq<Word>)
    ensures |r| == k
    ensures forall j :: 0 <= j < k ==> r[j] == Advance(s, j + 1)
  {
    if k == 0 then [] else Stream(s, k - 1) + [Advance(s, k)]
  }

  /** Drawing j and then k values is drawing j + k values. */
  lemma {:induction false} AdvanceAdd(s: Word, j: nat, k: nat)
    ensures Advance(Advance(s, j), k) == Advance(s, j + k)
    decreases k
  {
    if k > 0 {
      AdvanceAdd(s, j, k - 1);
    }
  }

  /** The stream of j + k draws is the stream of j draws followed by the next k. */
  lemma StreamSplit(s: Word, j: nat, k: nat)
    ensures Stream(s, j + k) == Stream(s, j) + Stream(Advance(s, j), k)
  {
    var lhs, rhs := Stream(s, j + k), Stream(s, j) + Stream(Advance(s, j), k);
    forall i | j <= i < j + k
      ensures lhs[i] == rhs[i]
    {
      AdvanceAdd(s, j, i - j + 1);
    }
  }

  /**
   * The multiplier and the increment are both odd, so every step flips the
   * low bit of the state: the generator never stalls on a fixed point, and
   * its draws alternate between even and odd states.
   */
  lemma NextFlipsLowBit(s: Word)
    ensures Next(s) % 2 != s % 2
    ensures Next(s) != s
  {
    var v := Multiplier * s + Increment;
    var q, n := v / Modulus, Next(s);
    assert v == q * Modulus + n;
    Arith.ModShift(n, q * 0x8000_0000, 2);
    assert v == n + (q * 0x8000_0000) * 2;
    Arith.ModShift(s + 1, 832262 * s + 506952111, 2);
    assert v == s + 1 + (832262 * s + 506952111) * 2;
  }

  /** A seeded generator; the closures returned by `createRng`, `makeRng` and `rng`. */
  class Rng {
    var state: Word
    /** The seed the generator started from, after any remapping. */
    ghost var Seed: Word
    /** Every value drawn so far, oldest first. */
    ghost var Drawn: seq<Word>

    ghost predicate Valid()
      reads this
    {
      state == Advance(Seed, |Drawn|) && Drawn == Stream(Seed, |Drawn|)
    }

    /** `makeRng(seed)` / `rng(seed)`: the state starts at `seed >>> 0`. */
    constructor FromSeed(seed: int)
      ensures Valid() && Drawn == []
      ensures Seed == ToUint32(seed) && state == Seed
    {
      state := ToUint32(seed);
      Seed := ToUint32(seed);
      Drawn := [];
    }

    /** `createRng(seed)`: `seed || 1`, so a zero seed starts from state 1. */
    constructor FromSeedOrOne(seed: Word)
      ensures Valid() && Drawn == []
      ensures Seed == (if seed == 0 then 1 else seed) && state == Seed
      ensures state != 0
    {
      state := if seed == 0 then 1 else seed;
      Seed := if seed == 0 then 1 else seed;
      Drawn := [];
    }

    /** One call of the generator closure; returns the new state (value `ToUnit(u)`). */
    method Draw() returns (u: Word)
      requires Valid()
      modifies this
      ensures Valid() && Seed == old(Seed)
      ensures state == Next(old(state)) && u == state
      ensures Drawn == old(Drawn) + [u]
    {
      state := Next(state);
      Drawn := Drawn + [state];
      u := state;
    }
  }

  /**
   * Two generators built from the same seed that have been called equally
   * often have produced the same values: the draws depend on the seed alone.
   */
  lemma SameSeedSameDraws(a: Rng, b: Rng)
    requires a.Valid() && b.Valid()
    requires a.Seed == b.Seed && |a.Drawn| == |b.Drawn|
    ensures a.Drawn == b.Drawn && a.state == b.state
  {
  }
}
