/**
 * The beat grid every generator lays over its samples: at 22050 samples a
 * second and `bpm` beats a minute, sample `i` lies `t / beatSec` beats into
 * the song, with `t = i / sampleRate` and `beatSec = 60 / bpm`.  The bar,
 * the eighth-note step and the beat are floors of that position; here they
 * are integer quotients, and `GridMeans` shows they are the floors of the
 * exact real position.
 */
module Grid {

  const SampleRate: nat := 22050

  /** `60 / bpm`, the length of a beat in seconds. */
  function BeatSec(bpm: nat): (r: real)
    requires bpm > 0
    ensures r > 0.0
  {
    var x := 60.0 / bpm as real;
    assert x * bpm as real == 60.0;
    x
  }

  /** `t / beatSec`, the position of sample `i` in beats, as the single quotient it is in exact arithmetic. */
  function Beat(bpm: nat, i: nat): real
  {
    (i * bpm) as real / (60 * SampleRate) as real
  }

  /** `Math.floor(b / 4)`, the bar of sample `i`. */
  function Bar(bpm: nat, i: nat): nat
  {
    i * bpm / (240 * SampleRate)
  }

  /** `Math.floor(b * 2)`: the lead plays eighth notes. */
  function Step(bpm: nat, i: nat): nat
  {
    i * bpm / (30 * SampleRate)
  }

  /** `Math.floor(b)`, the beat sample `i` falls in. */
  function BeatIndex(bpm: nat, i: nat): nat
  {
    i * bpm / (60 * SampleRate)
  }

  /** `(a / b).Floor` of two naturals is their integer quotient. */
  lemma FloorRatio(a: nat, b: nat)
    requires b > 0
    ensures (a as real / b as real).Floor == a / b
  {
    var q, r := a / b, a % b;
    var x := a as real / b as real;
    assert x * b as real == a as real;
    assert a as real == q as real * b as real + r as real;
    var f := x - q as real;
    assert f * b as real == r as real;
    assert 0.0 <= f < 1.0 by {
      if f < 0.0 {
        assert false;
      } else if f >= 1.0 {
        assert false;
      }
    }
    assert q as real <= x < q as real + 1.0;
  }

  /** The position `t / beatSec`, scaled by `k / m`, is `i * bpm * k / (60 * sampleRate * m)`. */
  lemma BeatRatio(bpm: nat, i: nat, k: nat, m: nat)
    requires bpm > 0 && k > 0 && m > 0
    ensures (i as real / SampleRate as real) / BeatSec(bpm) * (k as real / m as real)
            == (i * bpm * k) as real / (60 * SampleRate * m) as real
  {
    var t := i as real / SampleRate as real;
    var s := BeatSec(bpm);
    var b := t / s;
    var y := b * (k as real / m as real);
    assert t * SampleRate as real == i as real;
    assert s * bpm as real == 60.0;
    assert b * s == t;
    assert (k as real / m as real) * m as real == k as real;
    calc {
      y * (60 * SampleRate * m) as real;
      b * (k as real / m as real) * (60.0 * SampleRate as real * m as real);
      (b * s) * bpm as real * SampleRate as real * ((k as real / m as real) * m as real);
      (i * bpm * k) as real;
    }
  }

  /**
   * In exact arithmetic the grid positions are the sources' floors: the
   * beat is `t / beatSec`, and bar, eighth-note step and beat are
   * `Math.floor(b / 4)`, `Math.floor(b * 2)` and `Math.floor(b)`.
   */
  lemma GridMeans(bpm: nat, i: nat)
    requires bpm > 0
    ensures var beat := (i as real / SampleRate as real) / BeatSec(bpm);
            && Beat(bpm, i) == beat
            && Bar(bpm, i) == (beat / 4.0).Floor
            && Step(bpm, i) == (beat * 2.0).Floor
            && BeatIndex(bpm, i) == beat.Floor
  {
    var beat := (i as real / SampleRate as real) / BeatSec(bpm);
    BeatRatio(bpm, i, 1, 1);
    assert beat == beat * (1 as real / 1 as real);
    FloorRatio(i * bpm, 60 * SampleRate);
    BeatRatio(bpm, i, 1, 4);
    assert beat / 4.0 == beat * (1 as real / 4 as real);
    assert (i * bpm * 1) as real / (60 * SampleRate * 4) as real == (i * bpm) as real / (240 * SampleRate) as real;
    FloorRatio(i * bpm, 240 * SampleRate);
    BeatRatio(bpm, i, 2, 1);
    assert (i * bpm * 2) as real / (60 * SampleRate * 1) as real == (i * bpm) as real / (30 * SampleRate) as real;
    FloorRatio(i * bpm, 30 * SampleRate);
  }

  /**
   * A piece of `seconds` seconds holds `Math.floor(seconds / (beatSec / 2))`
   * eighth-note steps and `Math.floor(seconds / beatSec)` beats.
   */
  lemma LengthsIn(seconds: nat, bpm: nat)
    requires bpm > 0
    ensures (seconds as real / (BeatSec(bpm) / 2.0)).Floor == seconds * bpm / 30
    ensures (seconds as real / BeatSec(bpm)).Floor == seconds * bpm / 60
  {
    var s := BeatSec(bpm);
    assert s * bpm as real == 60.0;
    var n := seconds as real / s;
    assert n * s == seconds as real;
    assert n * 60.0 == seconds as real * bpm as real;
    assert n == (seconds * bpm) as real / 60 as real;
    FloorRatio(seconds * bpm, 60);
    var n2 := seconds as real / (s / 2.0);
    assert n2 * (s / 2.0) == seconds as real;
    assert n2 == (seconds * bpm) as real / 30 as real;
    FloorRatio(seconds * bpm, 30);
  }
}
