/**
 * The server's procedural fallback song (`renderProceduralSong`): a 45 s
 * mono song at 22050 Hz whose every random choice comes from an LCG seeded
 * with the FNV-1a hash of `genre|bpm|prompt`.  Four draws may lift the
 * genre's chord roots by a whole tone, one draw picks the scale, one the
 * phrase shift of the progression; the melody is a random walk over the
 * scale; bass, lead and a formant "vocal" are summed per sample, then the
 * drums are added and the mix is mastered and encoded as a WAV file.
 */
module Orchestrate {
  import opened Wrappers
  import opened Lcg
  import opened Dsp
  import opened Melody
  import opened Drums
  import opened Mastering
  import opened Grid
  import Fnv
  import Text
  import Wav
  import Arith

  const FallbackSeconds: nat := 45
  /** `SAMPLE_RATE * seconds`, the length of the song in samples. */
  const Total: nat := 992250

  /**
   * `Math.max(80, Math.min(170, bpm || 120))`: a missing or zero tempo
   * means 120, and the tempo is clamped to [80, 170].
   */
  function EffectiveBpm(bpm: Option<int>): (r: nat)
    ensures 80 <= r <= 170
    ensures (bpm.None? || bpm == Some(0)) ==> r == 120
    ensures bpm.Some? && bpm.value != 0 && 80 <= bpm.value <= 170 ==> r == bpm.value
    ensures bpm.Some? && bpm.value != 0 && bpm.value < 80 ==> r == 80
    ensures bpm.Some? && bpm.value > 170 ==> r == 170
  {
    var b := if bpm.None? || bpm.value == 0 then 120 else bpm.value;
    if b < 80 then 80 else if b > 170 then 170 else b
  }

  /** `Math.floor(beat * 1.5)`: the vocal moves on dotted quarter notes. */
  function VocalStep(bpm: nat, i: nat): nat
  {
    i * bpm / (40 * SampleRate)
  }

  /** `Math.floor((seconds / beatSec) * 2)`: the length of the melody. */
  function Steps(bpm: nat): nat
  {
    3 * bpm / 2
  }

  /** `Math.floor(seconds / beatSec)`: the number of drum beats. */
  function Beats(bpm: nat): nat
  {
    3 * bpm / 4
  }

  /** In exact arithmetic the vocal step is the source's `Math.floor(beat * 1.5)`. */
  lemma VocalStepMeans(bpm: nat, i: nat)
    requires bpm > 0
    ensures VocalStep(bpm, i) == ((i as real / SampleRate as real) / BeatSec(bpm) * 1.5).Floor
  {
    var beat := (i as real / SampleRate as real) / BeatSec(bpm);
    BeatRatio(bpm, i, 3, 2);
    assert beat * 1.5 == beat * (3 as real / 2 as real);
    assert (i * bpm * 3) as real / (60 * SampleRate * 2) as real == (i * bpm) as real / (40 * SampleRate) as real;
    FloorRatio(i * bpm, 40 * SampleRate);
  }

  /**
   * Over the 45 seconds the melody has `Math.floor((45 / beatSec) * 2)`
   * steps and the drums play `Math.floor(45 / beatSec)` beats.
   */
  lemma LengthsMean(bpm: nat)
    requires bpm > 0
    ensures Steps(bpm) == ((FallbackSeconds as real / BeatSec(bpm)) * 2.0).Floor
    ensures Beats(bpm) == (FallbackSeconds as real / BeatSec(bpm)).Floor
  {
    var s := BeatSec(bpm);
    assert s * bpm as real == 60.0;
    var n := FallbackSeconds as real / s;
    assert n * s == 45.0;
    assert n * 60.0 == 45.0 * bpm as real;
    assert n == (3 * bpm) as real / 4 as real;
    FloorRatio(3 * bpm, 4);
    assert n * 2.0 == (3 * bpm) as real / 2 as real;
    FloorRatio(3 * bpm, 2);
  }

  /**
   * The names every object literal inherits from `Object.prototype`.  For
   * these `progressionByGenre[genre]` is a function (or, for `__proto__`,
   * the prototype itself): truthy, so `|| defaultRoots` is not taken, and
   * without a `map`, so the lookup throws a `TypeError`.
   */
  const InheritedNames: seq<string> := [
    "constructor", "__proto__", "__defineGetter__", "__defineSetter__",
    "__lookupGetter__", "__lookupSetter__", "hasOwnProperty", "isPrototypeOf",
    "propertyIsEnumerable", "toLocaleString", "toString", "valueOf"]

  /** `name` is one of `names`. */
  predicate Listed(name: string, names: seq<string>)
    decreases |names|
  {
    |names| > 0 && (names[0] == name || Listed(name, names[1..]))
  }

  predicate Inherited(genre: Option<string>)
  {
    genre.Some? && Listed(genre.value, InheritedNames)
  }

  /** The roots of a genre that is not an inherited name: its own entry, or the default roots. */
  function Progression(genre: Option<string>): (r: seq<int>)
    ensures |r| == 4
  {
    if genre == Some("Jazz") then [60, 65, 67, 62]
    else if genre == Some("Rock") then [52, 55, 57, 50]
    else if genre == Some("Hip-hop") then [45, 48, 43, 41]
    else if genre == Some("K-Pop") then [57, 62, 64, 55]
    else if genre == Some("Lullaby") then [53, 57, 60, 55]
    else [60, 57, 65, 62]
  }

  /** `progressionByGenre[genre] || defaultRoots`, which fails exactly on the inherited names. */
  function RootTable(genre: Option<string>): (r: Option<seq<int>>)
    ensures r.None? <==> Inherited(genre)
    ensures r.Some? ==> |r.value| == 4
  {
    if Inherited(genre) then None else Some(Progression(genre))
  }

  /** A genre that is neither one of the five nor an inherited name gets the default roots. */
  lemma UnknownGenreDefaults(genre: Option<string>)
    requires !Inherited(genre)
    requires genre !in {Some("Jazz"), Some("Rock"), Some("Hip-hop"), Some("K-Pop"), Some("Lullaby")}
    ensures RootTable(genre) == Some([60, 57, 65, 62])
  {
  }

  /** The three scales, as semitone offsets from the root. */
  const Scales: seq<seq<nat>> := [
    [0, 2, 3, 5, 7, 10, 12],
    [0, 2, 4, 5, 7, 9, 12],
    [0, 3, 5, 7, 10, 12]]

  /** The walk of the server: +2 below 0.2, +1 below 0.45, -1 below 0.7, -2 below 0.82, re-drawn every 16 steps. */
  const SongWalk: WalkRule := WalkRule(20, 45, 70, 82, Some(16))

  /** The text hashed for the seed: `${genre}|${bpm}|${prompt || ""}`. */
  function SeedText(genre: Option<string>, bpm: Option<int>, prompt: Option<string>): string
  {
    Text.Show(genre) + "|" + Text.ShowInt(bpm) + "|" + Text.OrElse(prompt, "")
  }

  /** The state the generator starts from: the hash of the seed text, or 1 for a zero hash. */
  function StartState(genre: Option<string>, bpm: Option<int>, prompt: Option<string>): (g: Word)
    ensures g != 0
  {
    var seed := Fnv.Fnv1a(Fnv.Utf16(SeedText(genre, bpm, prompt))) as nat;
    if seed == 0 then 1 else seed
  }

  /** The musical choices of a song: roots, scale, shift of the progression, melody degrees. */
  datatype Song = Song(roots: seq<int>, scale: seq<nat>, phraseShift: nat, melody: seq<nat>)

  predicate ValidSong(s: Song)
  {
    && |s.roots| == 4
    && |s.scale| > 0
    && |s.melody| > 0
    && (forall k :: 0 <= k < |s.melody| ==> s.melody[k] < |s.scale|)
  }

  /** The song's choices together with the generator state they leave behind. */
  datatype Plan = Plan(song: Song, rng: Word)

  /** Root `k`, lifted by two semitones when its draw `u` exceeds 0.7. */
  function Lifted(base: int, u: Word): int
  {
    base + (if Above(u, 70) then 2 else 0)
  }

  /** The four roots, each lifted by the draw after `g` that belongs to it. */
  function LiftRoots(base: seq<int>, g: Word): (roots: seq<int>)
    requires |base| == 4
    ensures |roots| == 4
    ensures forall k :: 0 <= k < 4 ==> roots[k] == Lifted(base[k], Advance(g, k + 1))
  {
    seq(4, k requires 0 <= k < 4 => Lifted(base[k], Advance(g, k + 1)))
  }

  /**
   * The draws before the mix: four for the roots, one for the scale, one
   * for the phrase shift, then the melody walk.
   */
  function PlanSong(base: seq<int>, bpm: nat, g: Word): (p: Plan)
    requires |base| == 4 && bpm >= 80
    ensures ValidSong(p.song)
  {
    var roots := LiftRoots(base, g);
    var scale := Scales[Pick(Advance(g, 5), 3)];
    var shift := Pick(Advance(g, 6), 4);
    var w := Walk(|scale|, SongWalk, Steps(bpm), Advance(g, 6));
    Plan(Song(roots, scale, shift, w.melody), w.rng)
  }

  /** `roots[(bar + phraseShift) % roots.length]`, the chord root under sample `i`. */
  function RootAt(s: Song, bpm: nat, i: nat): int
    requires ValidSong(s) && bpm > 0
  {
    s.roots[(Bar(bpm, i) + s.phraseShift) % |s.roots|]
  }

  /** `rootMidi + scale[melodySteps[step % stepsTotal]]`. */
  function LeadMidi(s: Song, bpm: nat, i: nat): int
    requires ValidSong(s) && bpm > 0
  {
    RootAt(s, bpm, i) + s.scale[s.melody[Step(bpm, i) % |s.melody|]]
  }

  /** `rootMidi + 12 + scale[(melodySteps[vocalStep % stepsTotal] + 1) % scale.length]`. */
  function VocalMidi(s: Song, bpm: nat, i: nat): int
    requires ValidSong(s) && bpm > 0
  {
    RootAt(s, bpm, i) + 12 + s.scale[(s.melody[VocalStep(bpm, i) % |s.melody|] + 1) % |s.scale|]
  }

  /** The bass: a sine an octave below the root, under a slow 0.22 Hz tremolo. */
  function Bass(d: Oscillators, rootMidi: int, t: real): real
  {
    var freq := MidiToFreq(d, rootMidi - 12);
    var lfo := 0.95 + d.sin(2.0 * Pi * 0.22 * t) * 0.05;
    Scale(d.sin(2.0 * Pi * Scale(freq, t)) * 0.17, lfo)
  }

  /** The lead: 70% saw and 30% triangle, accented on even steps. */
  function Lead(d: Oscillators, leadMidi: int, step: nat, t: real): real
  {
    var freq := MidiToFreq(d, leadMidi);
    var saw := Frac(Scale(t, freq)) * 2.0 - 1.0;
    var tri := 2.0 * Abs(2.0 * Frac(Scale(t, freq / 2.0)) - 1.0) - 1.0;
    var gate := (if step % 2 == 0 then 1.0 else 0.55) * 0.09;
    Scale(0.7 * saw + 0.3 * tri, gate)
  }

  /**
   * The vocal: a vibrato carrier with two formant partials, shaped by a
   * half-sine syllable envelope once per beat.  The source's phrase
   * position `(t % (beatSec * 4)) / (beatSec * 4)` is `Frac(beat / 4)`.
   */
  function Vocal(d: Oscillators, vocalMidi: int, beat: real, t: real): real
  {
    var vibrato := d.sin(2.0 * Pi * 5.3 * t) * 0.012;
    var freq := Scale(MidiToFreq(d, vocalMidi), 1.0 + vibrato);
    var phrasePos := Frac(beat / 4.0);
    var syllable := Max(0.0, d.sin(Pi * Min(1.0, Frac(phrasePos * 4.0))));
    var carrier := d.sin(2.0 * Pi * Scale(freq, t));
    var f1 := d.sin(2.0 * Pi * Scale(freq * 2.2, t)) * 0.35;
    var f2 := d.sin(2.0 * Pi * Scale(freq * 3.1, t)) * 0.2;
    Scale(carrier + f1 + f2, syllable) * 0.05
  }

  /** Sample `i` of the mix before the drums: bass, lead and vocal. */
  function Layered(d: Oscillators, s: Song, bpm: nat, i: nat): real
    requires ValidSong(s) && bpm > 0
  {
    var t := i as real / SampleRate as real;
    Bass(d, RootAt(s, bpm, i), t)
    + Lead(d, LeadMidi(s, bpm, i), Step(bpm, i), t)
    + Vocal(d, VocalMidi(s, bpm, i), Beat(bpm, i), t)
  }

  /** The first `n` samples of the mix before the drums. */
  function LayeredPrefix(d: Oscillators, s: Song, bpm: nat, n: nat): (r: seq<real>)
    requires ValidSong(s) && bpm > 0
    ensures |r| == n
  {
    if n == 0 then [] else LayeredPrefix(d, s, bpm, n - 1) + [Layered(d, s, bpm, n - 1)]
  }

  /** Sample `k` of every long enough prefix is the layered sample `k`. */
  lemma {:induction false} LayeredPrefixAt(d: Oscillators, s: Song, bpm: nat, n: nat, k: nat)
    requires ValidSong(s) && bpm > 0 && k < n
    ensures LayeredPrefix(d, s, bpm, n)[k] == Layered(d, s, bpm, k)
    decreases n
  {
    if k < n - 1 {
      LayeredPrefixAt(d, s, bpm, n - 1, k);
    }
  }

  /** The server's drum kit: 0.18 s kicks, 0.16 s snares, 0.03 s hats; noise drawn even past the end. */
  const SongKit: Kit := Kit(SampleRate, 3969, 3528, 661, 120.0, 80.0, 20.0, 0.7, 28.0, 0.35, 120.0, 0.11, true)

  /** `Math.tanh(x * 1.4) * 0.65`, faded out over the last second. */
  const SongMaster: Master := Master(1.4, 0.65, None, SampleRate)

  /** The choices of the song for the request's genre, tempo and prompt; none when the roots lookup fails. */
  function SongPlan(genre: Option<string>, bpm: Option<int>, prompt: Option<string>): (p: Option<Plan>)
    ensures p.None? <==> Inherited(genre)
    ensures p.Some? ==> ValidSong(p.value.song)
  {
    match RootTable(genre)
    case None => None
    case Some(base) => Some(PlanSong(base, EffectiveBpm(bpm), StartState(genre, bpm, prompt)))
  }

  /** The mix once the drums are in: bass, lead and vocal, then the drum schedule over them. */
  function Drummed(d: Oscillators, bpm: nat, p: Plan): (r: seq<real>)
    requires ValidSong(p.song) && bpm > 0
    ensures |r| == Total
  {
    ApplyHits(d, SongKit, Schedule(SampleRate, bpm, Beats(bpm)),
              Drums.Mix(LayeredPrefix(d, p.song, bpm, Total), p.rng)).buf
  }

  /**
   * The samples of the fallback song for the request's genre, tempo and
   * prompt; none for an inherited genre name, where the source throws.
   */
  function ProceduralSong(d: Oscillators, genre: Option<string>, bpm: Option<int>, prompt: Option<string>): (r: Option<seq<real>>)
    ensures r.None? <==> Inherited(genre)
    ensures r.Some? ==> |r.value| == Total
    ensures r.Some? && Valid(d) ==> forall i :: 0 <= i < Total ==> -0.65 < r.value[i] < 0.65
  {
    match SongPlan(genre, bpm, prompt)
    case None => None
    case Some(p) => Some(MasterAll(d, SongMaster, Drummed(d, EffectiveBpm(bpm), p)))
  }

  /** Once the request's plan is known, the song is the mastered, drummed mix of that plan. */
  lemma SongFromPlan(d: Oscillators, genre: Option<string>, bpm: Option<int>, prompt: Option<string>, p: Plan)
    requires SongPlan(genre, bpm, prompt) == Some(p)
    ensures ValidSong(p.song)
    ensures ProceduralSong(d, genre, bpm, prompt) == Some(MasterAll(d, SongMaster, Drummed(d, EffectiveBpm(bpm), p)))
  {
  }

  /**
   * Every root is the genre's root or a whole tone above it, lifted exactly
   * when its draw exceeds 0.7; the scale is one of the three, and the
   * melody holds one degree of it per eighth-note step.
   */
  lemma PlanChoices(base: seq<int>, bpm: nat, g: Word)
    requires |base| == 4 && bpm >= 80
    ensures forall k :: 0 <= k < 4 ==>
              (PlanSong(base, bpm, g).song.roots[k] == base[k] + 2 <==> Above(Advance(g, k + 1), 70))
    ensures forall k :: 0 <= k < 4 ==>
              PlanSong(base, bpm, g).song.roots[k] in {base[k], base[k] + 2}
    ensures PlanSong(base, bpm, g).song.scale in Scales
    ensures PlanSong(base, bpm, g).song.phraseShift < 4
    ensures |PlanSong(base, bpm, g).song.melody| == 3 * bpm / 2
  {
  }

  /**
   * The choices take a fixed number of draws for a given tempo: six before
   * the walk, one for the starting degree, one per step and one at each of
   * the ceil(steps / 16) phrase starts.
   */
  lemma PlanDraws(base: seq<int>, bpm: nat, g: Word)
    requires |base| == 4 && bpm >= 80
    ensures var steps := 3 * bpm / 2;
            PlanSong(base, bpm, g).rng == Advance(g, 7 + steps + (steps + 15) / 16)
  {
    var scale := Scales[Pick(Advance(g, 5), 3)];
    var steps := 3 * bpm / 2;
    SongWalkDraws(|scale|, steps, Advance(g, 6));
    AdvanceAdd(g, 6, 1 + steps + (steps + 15) / 16);
  }

  /** The song's walk over `steps` steps draws once to start, once per step and once per reset. */
  lemma SongWalkDraws(len: nat, steps: nat, h: Word)
    requires len > 0
    ensures Walk(len, SongWalk, steps, h).rng == Advance(h, 1 + steps + (steps + 15) / 16)
  {
    WalkDraws(len, SongWalk, steps, h);
    ResetsCount(SongWalk, steps);
  }

  /** Every offset of the three scales lies within an octave. */
  lemma ScaleOffsets(sc: seq<nat>)
    requires sc in Scales
    ensures forall k :: 0 <= k < |sc| ==> sc[k] <= 12
  {
  }

  /**
   * Under every sample the lead plays a note of the song's scale between
   * the chord root and the octave above it, and the vocal one scale degree
   * higher, an octave up.
   */
  lemma NotesInRange(s: Song, bpm: nat, i: nat)
    requires ValidSong(s) && s.scale in Scales && bpm > 0
    ensures var root := RootAt(s, bpm, i);
            && root in s.roots
            && LeadMidi(s, bpm, i) - root in s.scale
            && root <= LeadMidi(s, bpm, i) <= root + 12
            && VocalMidi(s, bpm, i) - root - 12 in s.scale
            && root + 12 <= VocalMidi(s, bpm, i) <= root + 24
  {
    ScaleOffsets(s.scale);
  }

  /**
   * The vocal never runs past the melody, whereas the lead's eighth-note
   * step reaches the melody's length, and wraps to its first degree, only
   * in the last samples of a song at an odd tempo.
   */
  lemma MelodyIndices(bpm: nat, i: nat)
    requires 80 <= bpm && i < Total
    ensures VocalStep(bpm, i) < 3 * bpm / 2
    ensures Step(bpm, i) <= 3 * bpm / 2
    ensures bpm % 2 == 0 ==> Step(bpm, i) < 3 * bpm / 2
  {
    var x := i * bpm;
    assert x <= 992249 * bpm by {
      Arith.MulAtLeast(bpm, (Total - 1) - i);
    }
    assert Step(bpm, i) == x / 661500;
    assert VocalStep(bpm, i) == x / 882000;
    StepBelow(x, bpm);
    VocalStepBelow(x, bpm);
    Halves(x / 661500, x / 882000, bpm);
  }

  lemma Halves(s: nat, v: nat, bpm: nat)
    requires 2 * s < 3 * bpm && 8 * v < 9 * bpm && bpm >= 80
    ensures s <= 3 * bpm / 2 && v < 3 * bpm / 2
    ensures bpm % 2 == 0 ==> s < 3 * bpm / 2
  {
  }

  /** Before the song's end, `x = i * bpm < 992250 * bpm`, so twice the eighth-note step stays below `3 * bpm`. */
  lemma StepBelow(x: nat, bpm: nat)
    requires bpm > 0 && x <= 992249 * bpm
    ensures 2 * (x / 661500) < 3 * bpm
  {
    var q, r := x / 661500, x % 661500;
    assert x == q * 661500 + r && r >= 0;
    if 2 * q >= 3 * bpm {
      assert false;
    }
  }

  /** Likewise eight vocal steps stay below `9 * bpm`. */
  lemma VocalStepBelow(x: nat, bpm: nat)
    requires bpm > 0 && x <= 992249 * bpm
    ensures 8 * (x / 882000) < 9 * bpm
  {
    var q, r := x / 882000, x % 882000;
    assert x == q * 882000 + r && r >= 0;
    if 8 * q >= 9 * bpm {
      assert false;
    }
  }

  /** The bass, lead and vocal loop, writing into a zeroed buffer. */
  method RenderLayers(d: Oscillators, s: Song, bpm: nat, mix: array<real>)
    requires ValidSong(s) && bpm > 0
    requires mix.Length == Total && forall k :: 0 <= k < Total ==> mix[k] == 0.0
    modifies mix
    ensures mix[..] == LayeredPrefix(d, s, bpm, Total)
  {
    for i := 0 to Total
      invariant forall k :: 0 <= k < i ==> mix[k] == LayeredPrefix(d, s, bpm, Total)[k]
      invariant forall k :: i <= k < Total ==> mix[k] == 0.0
    {
      RenderSample(d, s, bpm, mix, i);
    }
  }

  /** Sample `i` of the zeroed buffer becomes its layered value; no other sample changes. */
  method RenderSample(d: Oscillators, s: Song, bpm: nat, mix: array<real>, i: nat)
    requires ValidSong(s) && bpm > 0
    requires mix.Length == Total && i < Total && mix[i] == 0.0
    modifies mix
    ensures mix[i] == LayeredPrefix(d, s, bpm, Total)[i]
    ensures forall k :: 0 <= k < Total && k != i ==> mix[k] == old(mix[k])
  {
    mix[i] := AddLayers(d, s, bpm, i, mix[i]);
    LayeredPrefixAt(d, s, bpm, Total, i);
  }

  /** The loop body for sample `i`: `mix[i] += bass; mix[i] += lead; mix[i] += vocal`. */
  method AddLayers(d: Oscillators, s: Song, bpm: nat, i: nat, before: real) returns (sample: real)
    requires ValidSong(s) && bpm > 0
    ensures sample == before + Layered(d, s, bpm, i)
  {
    var t := i as real / SampleRate as real;
    var rootMidi := RootAt(s, bpm, i);
    var step := Step(bpm, i);
    var leadMidi := rootMidi + s.scale[s.melody[step % |s.melody|]];
    var vocalMidi := VocalMidi(s, bpm, i);
    sample := before;
    sample := sample + Bass(d, rootMidi, t);
    sample := sample + Lead(d, leadMidi, step, t);
    sample := sample + Vocal(d, vocalMidi, Beat(bpm, i), t);
  }

  /** The draws before the mix, as the server makes them, from the genre's roots. */
  method ChooseSong(base: seq<int>, bpm: nat, rng: Rng) returns (s: Song)
    requires |base| == 4 && rng.Valid() && bpm >= 80
    modifies rng
    ensures rng.Valid() && rng.Seed == old(rng.Seed)
    ensures PlanSong(base, bpm, old(rng.state)) == Plan(s, rng.state)
  {
    ghost var g := rng.state;
    var roots: seq<int> := [];
    for k := 0 to 4
      invariant rng.Valid() && rng.Seed == old(rng.Seed)
      invariant rng.state == Advance(g, k)
      invariant roots == seq(k, j requires 0 <= j < k => Lifted(base[j], Advance(g, j + 1)))
    {
      var u := rng.Draw();
      roots := roots + [base[k] + (if Above(u, 70) then 2 else 0)];
    }
    var u := rng.Draw();
    var scale := Scales[Pick(u, |Scales|)];
    u := rng.Draw();
    var phraseShift := Pick(u, 4);
    var melody := RandomWalk(rng, |scale|, Steps(bpm), SongWalk);
    s := Song(roots, scale, phraseShift, melody[..]);
  }

  /** Seeding, the roots lookup, and the draws before the mix; no song when the lookup throws. */
  method StartSong(genre: Option<string>, bpm: Option<int>, prompt: Option<string>) returns (rng: Rng, song: Option<Song>)
    ensures fresh(rng) && rng.Valid()
    ensures song.None? <==> Inherited(genre)
    ensures song.Some? ==> SongPlan(genre, bpm, prompt) == Some(Plan(song.value, rng.state))
  {
    var seed := Fnv.HashStringToSeed(Fnv.Utf16(SeedText(genre, bpm, prompt)));
    ghost var g := StartState(genre, bpm, prompt);
    assert g == if seed == 0 then 1 else seed;
    rng := new Rng.FromSeedOrOne(seed);
    var base := RootTable(genre);
    if base.None? {
      return rng, None;
    }
    var s := ChooseSong(base.value, EffectiveBpm(bpm), rng);
    assert Plan(s, rng.state) == PlanSong(base.value, EffectiveBpm(bpm), g);
    song := Some(s);
  }

  /** The mix up to the mastering: the layers, then the drums, drawing on from the plan's generator. */
  method MixSong(d: Oscillators, song: Song, bpm: nat, rng: Rng) returns (mix: array<real>)
    requires ValidSong(song) && bpm > 0 && rng.Valid()
    modifies rng
    ensures fresh(mix)
    ensures mix[..] == Drummed(d, bpm, Plan(song, old(rng.state)))
  {
    mix := new real[Total](_ => 0.0);
    RenderLayers(d, song, bpm, mix);
    RenderDrums(d, SongKit, bpm, Beats(bpm), mix, rng);
  }

  /**
   * `renderProceduralSong({ genre, bpm, prompt })` up to the WAV bytes
   * (the data URL wraps them in base64); none where the roots lookup throws.
   */
  method RenderProceduralSong(d: Oscillators, genre: Option<string>, bpm: Option<int>, prompt: Option<string>)
      returns (wav: Option<array<Wav.Byte>>)
    ensures wav.None? <==> Inherited(genre)
    ensures wav.Some? ==> ProceduralSong(d, genre, bpm, prompt).Some?
                          && wav.value[..] == Wav.WavBytes(ProceduralSong(d, genre, bpm, prompt).value, SampleRate)
  {
    var rng, song := StartSong(genre, bpm, prompt);
    if song.None? {
      return None;
    }
    ghost var p := Plan(song.value, rng.state);
    var bytes := RenderPlan(d, song.value, EffectiveBpm(bpm), rng);
    SongFromPlan(d, genre, bpm, prompt, p);
    wav := Some(bytes);
  }

  /** The mix, the mastering and the WAV encoding of a chosen song. */
  method RenderPlan(d: Oscillators, song: Song, bpm: nat, rng: Rng) returns (bytes: array<Wav.Byte>)
    requires ValidSong(song) && bpm > 0 && rng.Valid()
    modifies rng
    ensures fresh(bytes)
    ensures bytes[..] == Wav.WavBytes(MasterAll(d, SongMaster, Drummed(d, bpm, Plan(song, old(rng.state)))), SampleRate)
  {
    var mix := MixSong(d, song, bpm, rng);
    MasterInPlace(d, SongMaster, mix);
    bytes := Wav.BuildWav(mix, SampleRate);
  }
}
