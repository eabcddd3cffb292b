/**
 * The percussion pass: on every beat a kick, on beats 1 and 3 of each bar of
 * four a snare, and two hats, each a burst of samples added into the
 * fixed-length mix buffer.  Writes past the end of the buffer are dropped.
 * The snare and hat samples are noise, one generator draw per sample.
 */
module Drums {
  import opened Lcg
  import opened Dsp
  import Arith

  datatype Voice = Kick | Snare | Hat

  /** A percussion hit: which voice, on which beat, from which sample on. */
  datatype Hit = Hit(voice: Voice, beat: nat, start: nat)

  /**
   * The constants of one generator's drum kit.  `drawsWhenDropped` is the
   * server's behaviour: its noise sample (and so its draw) is computed
   * before `addAt` tests the index, whereas the scripts test the index
   * first and draw only for samples inside the buffer.
   */
  datatype Kit = Kit(
    sampleRate: nat,
    kickLen: nat, snareLen: nat, hatLen: nat,
    kickStartHz: real, kickSweep: real, kickDecay: real, kickGain: real,
    snareDecay: real, snareGain: real,
    hatDecay: real, hatGain: real,
    drawsWhenDropped: bool)

  /** The number of samples in a burst of `v`. */
  function Length(kit: Kit, v: Voice): nat
  {
    match v
    case Kick => kit.kickLen
    case Snare => kit.snareLen
    case Hat => kit.hatLen
  }

  /** Snare and hat are noise: each of their samples takes a draw. */
  predicate Noisy(v: Voice)
  {
    v != Kick
  }

  /**
   * Sample `n` of a burst of `v`: a falling sine sweep under an exponential
   * envelope for the kick, and `rnd() * 2 - 1` under an exponential
   * envelope for the noise voices, where `u` is the draw (the kick ignores it).
   */
  function Tone(d: Oscillators, kit: Kit, v: Voice, n: nat, u: Word): real
    requires kit.sampleRate > 0
  {
    var tt := n as real / kit.sampleRate as real;
    match v
    case Kick =>
      d.sin(2.0 * Pi * (kit.kickStartHz - tt * kit.kickSweep) * tt) * d.exp(-tt * kit.kickDecay) * kit.kickGain
    case Snare => (ToUnit(u) * 2.0 - 1.0) * d.exp(-tt * kit.snareDecay) * kit.snareGain
    case Hat => (ToUnit(u) * 2.0 - 1.0) * d.exp(-tt * kit.hatDecay) * kit.hatGain
  }

  /** The mix buffer together with the generator state. */
  datatype Mix = Mix(buf: seq<real>, rng: Word)

  /** Adding sample `n` of hit `h`, if its index lies inside the buffer. */
  function AddSample(d: Oscillators, kit: Kit, h: Hit, n: nat, m: Mix): (m': Mix)
    requires kit.sampleRate > 0
    ensures |m'.buf| == |m.buf|
  {
    var idx := h.start + n;
    if kit.drawsWhenDropped || idx < |m.buf| then
      var u := if Noisy(h.voice) then Next(m.rng) else m.rng;
      Mix(if idx < |m.buf| then m.buf[idx := m.buf[idx] + Tone(d, kit, h.voice, n, u)] else m.buf, u)
    else
      m
  }

  /** The first `n` samples of hit `h`. */
  function Burst(d: Oscillators, kit: Kit, h: Hit, n: nat, m: Mix): (m': Mix)
    requires kit.sampleRate > 0
    ensures |m'.buf| == |m.buf|
  {
    if n == 0 then m else AddSample(d, kit, h, n - 1, Burst(d, kit, h, n - 1, m))
  }

  function ApplyHit(d: Oscillators, kit: Kit, h: Hit, m: Mix): Mix
    requires kit.sampleRate > 0
  {
    Burst(d, kit, h, Length(kit, h.voice), m)
  }

  /** The hits of `hs`, first hit first. */
  function ApplyHits(d: Oscillators, kit: Kit, hs: seq<Hit>, m: Mix): (m': Mix)
    requires kit.sampleRate > 0
    ensures |m'.buf| == |m.buf|
  {
    if hs == [] then m else ApplyHit(d, kit, hs[|hs| - 1], ApplyHits(d, kit, hs[..|hs| - 1], m))
  }

  /** The number of draws the first `n` samples of hit `h` take in a buffer of `size` samples. */
  function Draws(kit: Kit, h: Hit, n: nat, size: nat): nat
  {
    if !Noisy(h.voice) then 0
    else if kit.drawsWhenDropped then n
    else if h.start >= size then 0
    else if n <= size - h.start then n
    else size - h.start
  }

  /**
   * A burst takes one draw per noise sample; in the scripts only for the
   * samples that fall inside the buffer.
   */
  lemma {:induction false} BurstDraws(d: Oscillators, kit: Kit, h: Hit, n: nat, m: Mix)
    requires kit.sampleRate > 0
    ensures Burst(d, kit, h, n, m).rng == Advance(m.rng, Draws(kit, h, n, |m.buf|))
    decreases n
  {
    if n > 0 {
      BurstDraws(d, kit, h, n - 1, m);
    }
  }

  /** The draw sample `k` of a burst of `v` uses: the `(k + 1)`-th for noise; the kick uses none. */
  function DrawAt(v: Voice, rng: Word, k: nat): Word
  {
    if Noisy(v) then Advance(rng, k + 1) else rng
  }

  /**
   * What a burst does to the buffer: inside its window and the buffer, the
   * sample at `j` gains the burst's sample `j - start`, whose noise is the
   * `(j - start + 1)`-th draw; everything else is unchanged, and nothing is
   * written past the end.
   */
  lemma {:induction false} BurstEffect(d: Oscillators, kit: Kit, h: Hit, n: nat, m: Mix, j: nat)
    requires kit.sampleRate > 0 && j < |m.buf|
    ensures Burst(d, kit, h, n, m).buf[j] ==
              if h.start <= j < h.start + n
              then m.buf[j] + Tone(d, kit, h.voice, j - h.start, DrawAt(h.voice, m.rng, j - h.start))
              else m.buf[j]
    decreases n
  {
    if n > 0 {
      var prev := Burst(d, kit, h, n - 1, m);
      var idx := h.start + n - 1;
      assert prev.buf[j] ==
               if h.start <= j < h.start + n - 1
               then m.buf[j] + Tone(d, kit, h.voice, j - h.start, DrawAt(h.voice, m.rng, j - h.start))
               else m.buf[j] by {
        BurstEffect(d, kit, h, n - 1, m, j);
      }
      if j == idx {
        BurstLast(d, kit, h, n, m);
      } else {
        assert Burst(d, kit, h, n, m).buf[j] == prev.buf[j];
      }
    }
  }

  /** The last sample of a burst inside the buffer adds its tone, on the `n`-th draw for noise. */
  lemma BurstLast(d: Oscillators, kit: Kit, h: Hit, n: nat, m: Mix)
    requires kit.sampleRate > 0 && n > 0 && h.start + n - 1 < |m.buf|
    ensures var idx := h.start + n - 1;
            Burst(d, kit, h, n, m).buf[idx]
              == Burst(d, kit, h, n - 1, m).buf[idx] + Tone(d, kit, h.voice, n - 1, DrawAt(h.voice, m.rng, n - 1))
  {
    var prev := Burst(d, kit, h, n - 1, m);
    var u := if Noisy(h.voice) then Next(prev.rng) else prev.rng;
    assert u == DrawAt(h.voice, m.rng, n - 1) by {
      BurstDraws(d, kit, h, n - 1, m);
      assert prev.rng == Advance(m.rng, if Noisy(h.voice) then n - 1 else 0);
    }
  }

  /** Hits apply one after another: a schedule can be split anywhere. */
  lemma {:induction false} ApplyHitsAppend(d: Oscillators, kit: Kit, a: seq<Hit>, b: seq<Hit>, m: Mix)
    requires kit.sampleRate > 0
    ensures ApplyHits(d, kit, a + b, m) == ApplyHits(d, kit, b, ApplyHits(d, kit, a, m))
    decreases |b|
  {
    if b == [] {
      assert a + b == a;
    } else {
      var ab := a + b;
      assert ab[..|ab| - 1] == a + b[..|b| - 1];
      assert ab[|ab| - 1] == b[|b| - 1];
      ApplyHitsAppend(d, kit, a, b[..|b| - 1], m);
    }
  }

  /** `Math.floor(b * beatSec * sampleRate)` with `beatSec = 60 / bpm`, in exact arithmetic. */
  function BeatStart(sampleRate: nat, bpm: nat, b: nat): nat
    requires bpm > 0
  {
    b * 60 * sampleRate / bpm
  }

  /** `beatStart + Math.floor(hh * beatSec * 0.5 * sampleRate)`, the start of hat `hh` of beat `b`. */
  function HatStart(sampleRate: nat, bpm: nat, b: nat, hh: nat): nat
    requires bpm > 0
  {
    BeatStart(sampleRate, bpm, b) + hh * 30 * sampleRate / bpm
  }

  /** Beats 1 and 3 of each bar of four carry a snare. */
  predicate HasSnare(b: nat)
  {
    b % 4 == 1 || b % 4 == 3
  }

  /** The hits of beat `b`, in the order they are added. */
  function BeatHits(sampleRate: nat, bpm: nat, b: nat): seq<Hit>
    requires bpm > 0
  {
    var s := BeatStart(sampleRate, bpm, b);
    [Hit(Kick, b, s)]
    + (if HasSnare(b) then [Hit(Snare, b, s)] else [])
    + [Hit(Hat, b, HatStart(sampleRate, bpm, b, 0))]
    + [Hit(Hat, b, HatStart(sampleRate, bpm, b, 1))]
  }

  /** The kick of beat `b` and, on beats 1 and 3 of the bar, its snare. */
  function FrontHits(sampleRate: nat, bpm: nat, b: nat): seq<Hit>
    requires bpm > 0
  {
    var s := BeatStart(sampleRate, bpm, b);
    [Hit(Kick, b, s)] + (if HasSnare(b) then [Hit(Snare, b, s)] else [])
  }

  /** The two hats of beat `b`, on the beat and half a beat later. */
  function HatHits(sampleRate: nat, bpm: nat, b: nat): seq<Hit>
    requires bpm > 0
  {
    [Hit(Hat, b, HatStart(sampleRate, bpm, b, 0)), Hit(Hat, b, HatStart(sampleRate, bpm, b, 1))]
  }

  lemma BeatHitsSplit(sampleRate: nat, bpm: nat, b: nat)
    requires bpm > 0
    ensures BeatHits(sampleRate, bpm, b) == FrontHits(sampleRate, bpm, b) + HatHits(sampleRate, bpm, b)
  {
  }

  /**
   * The hits of beats 0 .. n - 1: every hit belongs to one of those beats,
   * starts on its beat or (a hat) half a beat later, and only a beat with a
   * snare has a snare hit.
   */
  function Schedule(sampleRate: nat, bpm: nat, n: nat): (hs: seq<Hit>)
    requires bpm > 0
    ensures forall k :: 0 <= k < |hs| ==> hs[k].beat < n
    ensures forall k :: 0 <= k < |hs| && hs[k].voice == Snare ==> HasSnare(hs[k].beat)
    ensures forall k :: 0 <= k < |hs| ==>
              hs[k].start == BeatStart(sampleRate, bpm, hs[k].beat)
              || (hs[k].voice == Hat && hs[k].start == HatStart(sampleRate, bpm, hs[k].beat, 1))
  {
    if n == 0 then []
    else
      BeatHitsShape(sampleRate, bpm, n - 1);
      Schedule(sampleRate, bpm, n - 1) + BeatHits(sampleRate, bpm, n - 1)
  }

  /** Every hit of beat `b` is on beat `b`, a snare only where the beat has one, starting on the beat or (a hat) half a beat later. */
  lemma BeatHitsShape(sampleRate: nat, bpm: nat, b: nat)
    requires bpm > 0
    ensures var hs := BeatHits(sampleRate, bpm, b);
            forall k :: 0 <= k < |hs| ==>
              && hs[k].beat == b
              && (hs[k].voice == Snare ==> HasSnare(b))
              && (hs[k].start == BeatStart(sampleRate, bpm, b)
                  || (hs[k].voice == Hat && hs[k].start == HatStart(sampleRate, bpm, b, 1)))
  {
    assert HatStart(sampleRate, bpm, b, 0) == BeatStart(sampleRate, bpm, b);
  }

  /** The number of hits of voice `v` in `hs`. */
  function CountVoice(hs: seq<Hit>, v: Voice): nat
  {
    if hs == [] then 0
    else CountVoice(hs[..|hs| - 1], v) + (if hs[|hs| - 1].voice == v then 1 else 0)
  }

  lemma {:induction false} CountVoiceAppend(a: seq<Hit>, b: seq<Hit>, v: Voice)
    ensures CountVoice(a + b, v) == CountVoice(a, v) + CountVoice(b, v)
    decreases |b|
  {
    if b == [] {
      assert a + b == a;
    } else {
      var ab := a + b;
      assert ab[..|ab| - 1] == a + b[..|b| - 1];
      CountVoiceAppend(a, b[..|b| - 1], v);
    }
  }

  lemma CountOne(h: Hit, v: Voice)
    ensures CountVoice([h], v) == if h.voice == v then 1 else 0
  {
    assert [h][..0] == [];
  }

  /** One beat: one kick, a snare on beats 1 and 3 of the bar, two hats. */
  lemma BeatCounts(sampleRate: nat, bpm: nat, b: nat, v: Voice)
    requires bpm > 0
    ensures CountVoice(BeatHits(sampleRate, bpm, b), v) ==
              match v
              case Kick => 1
              case Snare => if HasSnare(b) then 1 else 0
              case Hat => 2
  {
    var s := BeatStart(sampleRate, bpm, b);
    var kick := [Hit(Kick, b, s)];
    var snare: seq<Hit> := if HasSnare(b) then [Hit(Snare, b, s)] else [];
    var hat0 := [Hit(Hat, b, HatStart(sampleRate, bpm, b, 0))];
    var hat1 := [Hit(Hat, b, HatStart(sampleRate, bpm, b, 1))];
    CountVoiceAppend(kick + snare + hat0, hat1, v);
    CountVoiceAppend(kick + snare, hat0, v);
    CountVoiceAppend(kick, snare, v);
    CountOne(kick[0], v);
    CountOne(hat0[0], v);
    CountOne(hat1[0], v);
    if HasSnare(b) {
      CountOne(snare[0], v);
    }
  }

  lemma HalfStep(n: nat)
    requires n > 0
    ensures n / 2 == (n - 1) / 2 + (if (n - 1) % 2 == 1 then 1 else 0)
  {
    var q, r := (n - 1) / 2, (n - 1) % 2;
    if r == 1 {
      Arith.DivModUnique(n, 2, q + 1, 0);
    } else {
      Arith.DivModUnique(n, 2, q, 1);
    }
  }

  /** Beats 1 and 3 of a bar of four are the odd beats. */
  lemma SnareOnOddBeats(b: nat)
    ensures HasSnare(b) <==> b % 2 == 1
  {
    var q, r := b / 4, b % 4;
    assert b == 2 * (2 * q + r / 2) + r % 2;
    Arith.DivModUnique(b, 2, 2 * q + r / 2, r % 2);
  }

  /** Over `n` beats: `n` kicks, `n / 2` snares (every odd beat) and `2 n` hats. */
  lemma {:induction false} ScheduleCounts(sampleRate: nat, bpm: nat, n: nat)
    requires bpm > 0
    ensures CountVoice(Schedule(sampleRate, bpm, n), Kick) == n
    ensures CountVoice(Schedule(sampleRate, bpm, n), Snare) == n / 2
    ensures CountVoice(Schedule(sampleRate, bpm, n), Hat) == 2 * n
    decreases n
  {
    if n > 0 {
      var hs := Schedule(sampleRate, bpm, n);
      ScheduleCounts(sampleRate, bpm, n - 1);
      assert CountVoice(hs, Kick) == n by {
        ScheduleCountStep(sampleRate, bpm, n, Kick);
      }
      assert CountVoice(hs, Snare) == n / 2 by {
        ScheduleCountStep(sampleRate, bpm, n, Snare);
        SnareOnOddBeats(n - 1);
        HalfStep(n);
      }
      assert CountVoice(hs, Hat) == 2 * n by {
        ScheduleCountStep(sampleRate, bpm, n, Hat);
      }
    }
  }

  /** Beat `n - 1` adds its own hits of voice `v` to the count. */
  lemma ScheduleCountStep(sampleRate: nat, bpm: nat, n: nat, v: Voice)
    requires bpm > 0 && n > 0
    ensures CountVoice(Schedule(sampleRate, bpm, n), v) ==
              CountVoice(Schedule(sampleRate, bpm, n - 1), v) +
              match v
              case Kick => 1
              case Snare => if HasSnare(n - 1) then 1 else 0
              case Hat => 2
  {
    var before := Schedule(sampleRate, bpm, n - 1);
    var beat := BeatHits(sampleRate, bpm, n - 1);
    assert Schedule(sampleRate, bpm, n) == before + beat;
    BeatCounts(sampleRate, bpm, n - 1, v);
    CountVoiceAppend(before, beat, v);
  }

  /** A beat below `n` has a snare hit in the schedule exactly when it is beat 1 or 3 of its bar. */
  lemma ScheduleSnares(sampleRate: nat, bpm: nat, n: nat, b: nat)
    requires bpm > 0
    ensures Hit(Snare, b, BeatStart(sampleRate, bpm, b)) in Schedule(sampleRate, bpm, n) <==> b < n && HasSnare(b)
  {
    var hs := Schedule(sampleRate, bpm, n);
    var h := Hit(Snare, b, BeatStart(sampleRate, bpm, b));
    if h in hs {
      var k :| 0 <= k < |hs| && hs[k] == h;
      assert hs[k].voice == Snare && hs[k].beat == b;
    }
    if b < n && HasSnare(b) {
      SnaresScheduled(sampleRate, bpm, n, b);
    }
  }

  /** Every snare beat below `n` has its snare hit in the schedule. */
  lemma {:induction false} SnaresScheduled(sampleRate: nat, bpm: nat, n: nat, b: nat)
    requires bpm > 0 && b < n && HasSnare(b)
    ensures Hit(Snare, b, BeatStart(sampleRate, bpm, b)) in Schedule(sampleRate, bpm, n)
    decreases n
  {
    var h := Hit(Snare, b, BeatStart(sampleRate, bpm, b));
    var before := Schedule(sampleRate, bpm, n - 1);
    var beat := BeatHits(sampleRate, bpm, n - 1);
    assert Schedule(sampleRate, bpm, n) == before + beat;
    if b == n - 1 {
      assert beat[1] == h;
    } else {
      SnaresScheduled(sampleRate, bpm, n - 1, b);
    }
  }

  /** The draws of a whole schedule when every noise sample draws, as in the server. */
  function NoiseDraws(kit: Kit, hs: seq<Hit>): nat
  {
    if hs == [] then 0
    else NoiseDraws(kit, hs[..|hs| - 1]) + (if Noisy(hs[|hs| - 1].voice) then Length(kit, hs[|hs| - 1].voice) else 0)
  }

  lemma {:induction false} ApplyHitsDraws(d: Oscillators, kit: Kit, hs: seq<Hit>, m: Mix)
    requires kit.sampleRate > 0 && kit.drawsWhenDropped
    ensures ApplyHits(d, kit, hs, m).rng == Advance(m.rng, NoiseDraws(kit, hs))
    decreases |hs|
  {
    if hs != [] {
      var h := hs[|hs| - 1];
      var before := ApplyHits(d, kit, hs[..|hs| - 1], m);
      ApplyHitsDraws(d, kit, hs[..|hs| - 1], m);
      BurstDraws(d, kit, h, Length(kit, h.voice), before);
      AdvanceAdd(m.rng, NoiseDraws(kit, hs[..|hs| - 1]), Draws(kit, h, Length(kit, h.voice), |before.buf|));
    }
  }

  /**
   * In the server the drums draw a fixed number of values, whatever the
   * tempo does to the beat positions: one per snare sample on every odd
   * beat and one per hat sample, two hats a beat.
   */
  lemma {:induction false} ScheduleDraws(kit: Kit, sampleRate: nat, bpm: nat, n: nat)
    requires bpm > 0
    ensures NoiseDraws(kit, Schedule(sampleRate, bpm, n)) == (n / 2) * kit.snareLen + 2 * n * kit.hatLen
    decreases n
  {
    if n > 0 {
      ScheduleDraws(kit, sampleRate, bpm, n - 1);
      var before := Schedule(sampleRate, bpm, n - 1);
      var beat := BeatHits(sampleRate, bpm, n - 1);
      assert Schedule(sampleRate, bpm, n) == before + beat;
      NoiseDrawsAppend(kit, before, beat);
      BeatDraws(kit, sampleRate, bpm, n - 1);
      SnareOnOddBeats(n - 1);
      HalfStep(n);
      ScheduleDrawsStep(n, (n - 1) / 2, kit.snareLen, kit.hatLen, HasSnare(n - 1));
    }
  }

  lemma NoiseOne(kit: Kit, h: Hit)
    ensures NoiseDraws(kit, [h]) == if Noisy(h.voice) then Length(kit, h.voice) else 0
  {
    assert [h][..0] == [];
  }

  /** One beat draws for its snare, if any, and its two hats. */
  lemma BeatDraws(kit: Kit, sampleRate: nat, bpm: nat, b: nat)
    requires bpm > 0
    ensures NoiseDraws(kit, BeatHits(sampleRate, bpm, b)) == (if HasSnare(b) then kit.snareLen else 0) + 2 * kit.hatLen
  {
    var s := BeatStart(sampleRate, bpm, b);
    var kick := [Hit(Kick, b, s)];
    var snare: seq<Hit> := if HasSnare(b) then [Hit(Snare, b, s)] else [];
    var hat0 := [Hit(Hat, b, HatStart(sampleRate, bpm, b, 0))];
    var hat1 := [Hit(Hat, b, HatStart(sampleRate, bpm, b, 1))];
    NoiseDrawsAppend(kit, kick + snare + hat0, hat1);
    NoiseDrawsAppend(kit, kick + snare, hat0);
    NoiseDrawsAppend(kit, kick, snare);
    NoiseOne(kit, kick[0]);
    NoiseOne(kit, hat0[0]);
    NoiseOne(kit, hat1[0]);
    if HasSnare(b) {
      NoiseOne(kit, snare[0]);
    }
  }

  lemma ScheduleDrawsStep(n: nat, h: nat, snareLen: nat, hatLen: nat, snare: bool)
    requires n > 0
    requires n / 2 == h + (if snare then 1 else 0)
    ensures (n / 2) * snareLen + 2 * n * hatLen
            == h * snareLen + 2 * (n - 1) * hatLen + (if snare then snareLen else 0) + 2 * hatLen
  {
    assert 2 * n * hatLen == 2 * (n - 1) * hatLen + 2 * hatLen;
    if snare {
      assert (h + 1) * snareLen == h * snareLen + snareLen;
    }
  }

  lemma {:induction false} NoiseDrawsAppend(kit: Kit, a: seq<Hit>, b: seq<Hit>)
    ensures NoiseDraws(kit, a + b) == NoiseDraws(kit, a) + NoiseDraws(kit, b)
    decreases |b|
  {
    if b == [] {
      assert a + b == a;
    } else {
      var ab := a + b;
      assert ab[..|ab| - 1] == a + b[..|b| - 1];
      NoiseDrawsAppend(kit, a, b[..|b| - 1]);
    }
  }

  /** `addAt(sampleIndex, value)`: add only inside the buffer. */
  method AddAt(mix: array<real>, index: int, value: real)
    modifies mix
    ensures 0 <= index < mix.Length ==> mix[..] == old(mix[..])[index := old(mix[index]) + value]
    ensures !(0 <= index < mix.Length) ==> mix[..] == old(mix[..])
  {
    if index >= 0 && index < mix.Length {
      mix[index] := mix[index] + value;
    }
  }

  /** One burst loop: `for (n = 0; n < len; n++)` adding the voice's samples from `h.start` on. */
  method AddBurst(d: Oscillators, kit: Kit, mix: array<real>, rng: Rng, h: Hit)
    requires rng.Valid() && kit.sampleRate > 0
    modifies mix, rng
    ensures rng.Valid() && rng.Seed == old(rng.Seed)
    ensures Mix(mix[..], rng.state) == ApplyHit(d, kit, h, Mix(old(mix[..]), old(rng.state)))
  {
    ghost var m0 := Mix(mix[..], rng.state);
    for n := 0 to Length(kit, h.voice)
      invariant rng.Valid() && rng.Seed == old(rng.Seed)
      invariant Mix(mix[..], rng.state) == Burst(d, kit, h, n, m0)
    {
      AddBurstSample(d, kit, mix, rng, h, n);
    }
  }

  /** The loop body: sample `n` of the burst, drawn first for noise, added through `addAt`. */
  method AddBurstSample(d: Oscillators, kit: Kit, mix: array<real>, rng: Rng, h: Hit, n: nat)
    requires rng.Valid() && kit.sampleRate > 0
    modifies mix, rng
    ensures rng.Valid() && rng.Seed == old(rng.Seed)
    ensures Mix(mix[..], rng.state) == AddSample(d, kit, h, n, Mix(old(mix[..]), old(rng.state)))
  {
    var idx := h.start + n;
    if kit.drawsWhenDropped || idx < mix.Length {
      var u := rng.state;
      if Noisy(h.voice) {
        u := rng.Draw();
      }
      AddAt(mix, idx, Tone(d, kit, h.voice, n, u));
    }
  }

  /** The drum loop over `beats` beats. */
  method RenderDrums(d: Oscillators, kit: Kit, bpm: nat, beats: nat, mix: array<real>, rng: Rng)
    requires rng.Valid() && kit.sampleRate > 0 && bpm > 0
    modifies mix, rng
    ensures rng.Valid() && rng.Seed == old(rng.Seed)
    ensures Mix(mix[..], rng.state)
            == ApplyHits(d, kit, Schedule(kit.sampleRate, bpm, beats), Mix(old(mix[..]), old(rng.state)))
  {
    ghost var m0 := Mix(mix[..], rng.state);
    for b := 0 to beats
      invariant rng.Valid() && rng.Seed == old(rng.Seed)
      invariant Mix(mix[..], rng.state) == ApplyHits(d, kit, Schedule(kit.sampleRate, bpm, b), m0)
    {
      RenderBeat(d, kit, bpm, b, mix, rng);
      ApplyHitsAppend(d, kit, Schedule(kit.sampleRate, bpm, b), BeatHits(kit.sampleRate, bpm, b), m0);
    }
  }

  /** The body of the drum loop for beat `b`: kick, snare on beats 1 and 3 of the bar, two hats. */
  method RenderBeat(d: Oscillators, kit: Kit, bpm: nat, b: nat, mix: array<real>, rng: Rng)
    requires rng.Valid() && kit.sampleRate > 0 && bpm > 0
    modifies mix, rng
    ensures rng.Valid() && rng.Seed == old(rng.Seed)
    ensures Mix(mix[..], rng.state)
            == ApplyHits(d, kit, BeatHits(kit.sampleRate, bpm, b), Mix(old(mix[..]), old(rng.state)))
  {
    ghost var m0 := Mix(mix[..], rng.state);
    var beatStart := BeatStart(kit.sampleRate, bpm, b);
    AddBurst(d, kit, mix, rng, Hit(Kick, b, beatStart));
    ApplyHitsSnoc(d, kit, [], Hit(Kick, b, beatStart), m0);
    if b % 4 == 1 || b % 4 == 3 {
      AddBurst(d, kit, mix, rng, Hit(Snare, b, beatStart));
      ApplyHitsSnoc(d, kit, [Hit(Kick, b, beatStart)], Hit(Snare, b, beatStart), m0);
    }
    assert Mix(mix[..], rng.state) == ApplyHits(d, kit, FrontHits(kit.sampleRate, bpm, b), m0);
    RenderHats(d, kit, bpm, b, mix, rng);
    ApplyHitsAppend(d, kit, FrontHits(kit.sampleRate, bpm, b), HatHits(kit.sampleRate, bpm, b), m0);
    BeatHitsSplit(kit.sampleRate, bpm, b);
  }

  /** The loop over the two hats of beat `b`. */
  method RenderHats(d: Oscillators, kit: Kit, bpm: nat, b: nat, mix: array<real>, rng: Rng)
    requires rng.Valid() && kit.sampleRate > 0 && bpm > 0
    modifies mix, rng
    ensures rng.Valid() && rng.Seed == old(rng.Seed)
    ensures Mix(mix[..], rng.state)
            == ApplyHits(d, kit, HatHits(kit.sampleRate, bpm, b), Mix(old(mix[..]), old(rng.state)))
  {
    ghost var m0 := Mix(mix[..], rng.state);
    ghost var hats := HatHits(kit.sampleRate, bpm, b);
    for hh := 0 to 2
      invariant rng.Valid() && rng.Seed == old(rng.Seed)
      invariant Mix(mix[..], rng.state) == ApplyHits(d, kit, hats[..hh], m0)
    {
      var hatStart := HatStart(kit.sampleRate, bpm, b, hh);
      AddBurst(d, kit, mix, rng, Hit(Hat, b, hatStart));
      assert hats[..hh + 1] == hats[..hh] + [Hit(Hat, b, hatStart)];
      ApplyHitsSnoc(d, kit, hats[..hh], Hit(Hat, b, hatStart), m0);
    }
    assert hats[..2] == hats;
  }

  lemma ApplyHitsSnoc(d: Oscillators, kit: Kit, hs: seq<Hit>, h: Hit, m: Mix)
    requires kit.sampleRate > 0
    ensures ApplyHits(d, kit, hs + [h], m) == ApplyHit(d, kit, h, ApplyHits(d, kit, hs, m))
  {
    assert (hs + [h])[..|hs|] == hs;
  }
}
