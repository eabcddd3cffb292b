/**
 * The mastering pass over the finished mix: soft clipping with `tanh`, an
 * output gain, an optional linear fade-in from silence and a linear
 * fade-out to silence over the last samples.
 */
module Mastering {
  import opened Dsp
  import opened Wrappers

  /**
   * `Math.tanh(x * drive) * gain * fadeIn * fadeOut`; `fadeIn` is the
   * length of the fade-in in samples, if there is one, and `fadeOut` the
   * length of the fade-out.
   */
  datatype Master = Master(drive: real, gain: real, fadeIn: Option<nat>, fadeOut: nat)

  predicate ValidMaster(m: Master)
  {
    m.gain > 0.0 && m.fadeOut > 0 && (m.fadeIn.Some? ==> m.fadeIn.value > 0)
  }

  /** `Math.min(1, i / fadeInLength)`, or 1 without a fade-in. */
  function FadeIn(m: Master, i: nat): (f: real)
    requires ValidMaster(m)
    ensures 0.0 <= f <= 1.0
  {
    match m.fadeIn
    case None => 1.0
    case Some(len) => Min(1.0, i as real / len as real)
  }

  /** `i > total - len ? (total - i) / len : 1`. */
  function FadeOut(m: Master, total: nat, i: nat): (f: real)
    requires ValidMaster(m) && i < total
    ensures 0.0 < f <= 1.0
  {
    if i > total - m.fadeOut then (total - i) as real / m.fadeOut as real else 1.0
  }

  /** A mixed value `x` soft-clipped, scaled by the gain and by the two fade factors. */
  function Shaped(d: Oscillators, m: Master, x: real, fadeIn: real, fadeOut: real): real
  {
    Scale(Scale(Scale(d.tanh(Scale(x, m.drive)), m.gain), fadeIn), fadeOut)
  }

  /** Sample `i` of `total` after mastering, from its mixed value `x`. */
  function Mastered(d: Oscillators, m: Master, total: nat, i: nat, x: real): real
    requires ValidMaster(m) && i < total
  {
    Shaped(d, m, x, FadeIn(m, i), FadeOut(m, total, i))
  }

  /** The mastered buffer: whatever the mix, every sample lies strictly inside (-gain, gain). */
  function MasterAll(d: Oscillators, m: Master, buf: seq<real>): (r: seq<real>)
    requires ValidMaster(m)
    ensures |r| == |buf|
    ensures Valid(d) ==> forall i :: 0 <= i < |r| ==> -m.gain < r[i] < m.gain
  {
    var r := seq(|buf|, i requires 0 <= i < |buf| => Mastered(d, m, |buf|, i, buf[i]));
    assert Valid(d) ==> forall i :: 0 <= i < |r| ==> -m.gain < r[i] < m.gain by {
      if Valid(d) {
        forall i | 0 <= i < |r|
          ensures -m.gain < r[i] < m.gain
        {
          MasteredBound(d, m, |buf|, i, buf[i]);
        }
      }
    }
    r
  }

  lemma PosMul(x: real, y: real)
    requires x > 0.0 && y >= 0.0
    ensures x * y >= 0.0
  {
  }

  lemma PosMulStrict(x: real, y: real)
    requires x > 0.0 && y > 0.0
    ensures x * y > 0.0
  {
  }

  lemma MulLess(a: real, b: real, c: real)
    requires a < c && b > 0.0
    ensures a * b < c * b
  {
    PosMulStrict(c - a, b);
    assert c * b - a * b == (c - a) * b;
  }

  /** A value inside (-1, 1) scaled by `g > 0` lies inside (-g, g). */
  lemma ScaleBound(a: real, g: real)
    requires -1.0 < a < 1.0 && g > 0.0
    ensures -g < Scale(a, g) < g
  {
    PosMulStrict(g, 1.0 - a);
    assert g - a * g == g * (1.0 - a);
    PosMulStrict(g, a + 1.0);
    assert a * g + g == g * (a + 1.0);
  }

  /** Scaling by a factor in [0, 1] keeps a value inside (-g, g). */
  lemma ShrinkBound(a: real, b: real, g: real)
    requires -g < a < g && 0.0 <= b <= 1.0
    ensures -g < Scale(a, b) < g
  {
    if b == 0.0 {
      assert a * b == 0.0;
    } else {
      PosMulStrict(g - a, b);
      PosMul(g, 1.0 - b);
      assert g - a * b == (g - a) * b + g * (1.0 - b);
      PosMulStrict(a + g, b);
      assert a * b + g == (a + g) * b + g * (1.0 - b);
    }
  }

  /**
   * Whatever the mix, a mastered sample lies strictly inside (-gain, gain):
   * `tanh` stays inside (-1, 1) and both fades inside [0, 1].
   */
  lemma MasteredBound(d: Oscillators, m: Master, total: nat, i: nat, x: real)
    requires Valid(d) && ValidMaster(m) && i < total
    ensures -m.gain < Mastered(d, m, total, i, x) < m.gain
  {
    ShapedBound(d, m, x, FadeIn(m, i), FadeOut(m, total, i));
  }

  lemma ShapedBound(d: Oscillators, m: Master, x: real, fi: real, fo: real)
    requires Valid(d) && m.gain > 0.0 && 0.0 <= fi <= 1.0 && 0.0 <= fo <= 1.0
    ensures -m.gain < Shaped(d, m, x, fi, fo) < m.gain
  {
    TanhBound(d, Scale(x, m.drive));
    ProductBound(d.tanh(Scale(x, m.drive)), m.gain, fi, fo);
  }

  lemma TanhBound(d: Oscillators, y: real)
    requires Valid(d)
    ensures -1.0 < d.tanh(y) < 1.0
  {
  }

  /** The bound of `MasteredBound`, on the four factors. */
  lemma ProductBound(t: real, g: real, fi: real, fo: real)
    requires -1.0 < t < 1.0 && g > 0.0 && 0.0 <= fi <= 1.0 && 0.0 <= fo <= 1.0
    ensures -g < Scale(Scale(Scale(t, g), fi), fo) < g
  {
    ScaleBound(t, g);
    ShrinkBound(Scale(t, g), fi, g);
    ShrinkBound(Scale(Scale(t, g), fi), fo, g);
  }

  /** With a fade-in, the first sample is exact silence. */
  lemma FirstSampleSilent(d: Oscillators, m: Master, total: nat, x: real)
    requires ValidMaster(m) && m.fadeIn.Some? && total > 0
    ensures Mastered(d, m, total, 0, x) == 0.0
  {
    assert FadeIn(m, 0) == 0.0;
  }

  /** The fade-in never falls and reaches 1 once its length has passed. */
  lemma FadeInRises(m: Master, i: nat, j: nat)
    requires ValidMaster(m) && i <= j
    ensures FadeIn(m, i) <= FadeIn(m, j)
    ensures m.fadeIn.Some? && j >= m.fadeIn.value ==> FadeIn(m, j) == 1.0
  {
    if m.fadeIn.Some? {
      var len := m.fadeIn.value as real;
      assert i as real / len <= j as real / len by {
        DivMonotone(i as real, j as real, len);
      }
      if j >= m.fadeIn.value {
        assert j as real / len >= 1.0 by {
          DivMonotone(len, j as real, len);
        }
      }
    }
  }

  lemma DivMonotone(a: real, b: real, c: real)
    requires a <= b && c > 0.0
    ensures a / c <= b / c
  {
    var x, y := a / c, b / c;
    assert x * c == a && y * c == b;
    if x > y {
      MulLess(y, c, x);
    }
  }

  /**
   * The fade-out never rises: it is 1 until the last `fadeOut` samples and
   * then falls linearly, reaching 1 / fadeOut on the last sample.
   */
  lemma FadeOutFalls(m: Master, total: nat, i: nat, j: nat)
    requires ValidMaster(m) && i <= j < total
    ensures FadeOut(m, total, j) <= FadeOut(m, total, i)
    ensures FadeOut(m, total, total - 1) == 1.0 / m.fadeOut as real
  {
    var len := m.fadeOut as real;
    if j > total - m.fadeOut {
      if i > total - m.fadeOut {
        DivMonotone((total - j) as real, (total - i) as real, len);
      } else {
        DivMonotone((total - j) as real, len, len);
      }
    }
  }

  /** The mastering loop, in place. */
  method MasterInPlace(d: Oscillators, m: Master, mix: array<real>)
    requires ValidMaster(m)
    modifies mix
    ensures mix[..] == MasterAll(d, m, old(mix[..]))
  {
    for i := 0 to mix.Length
      invariant forall k :: 0 <= k < i ==> mix[k] == Mastered(d, m, mix.Length, k, old(mix[k]))
      invariant forall k :: i <= k < mix.Length ==> mix[k] == old(mix[k])
    {
      mix[i] := Mastered(d, m, mix.Length, i, mix[i]);
    }
  }
}
