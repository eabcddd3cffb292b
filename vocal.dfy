/**
 * The vocal-asset generator (`generate_vocal_assets.js`): five themes,
 * twenty 10-second mono tracks each at 22050 Hz, with a sung line over the
 * backing.  The engine is the batch generator's (a seeded 32-bit LCG with
 * no zero remap, a tempo draw, a melodic walk, the drum pass, the mastering
 * and the WAV writer) with its own constants: other seed multipliers, a
 * walk that climbs two degrees below 0.22, and a voice that sings a fifth
 * above the chord root, through three vowel formants, in syllables.
 */
module VocalAssets {
  import opened Wrappers
  import opened Lcg
  import opened Dsp
  import opened Grid
  import opened Melody
  import opened Drums
  import opened Mastering
  import Decimal
  import Wav
  import Arith

  const DurationSec: nat := 10
  /** `sampleRate * durationSec`, the length of a track in samples. */
  const Total: nat := 220500
  /** The number of tracks per theme. */
  const PerTheme: nat := 20

  /**
   * A theme: its id, its tempo range `bpm: [bpmMin, bpmMax]` (the maximum
   * itself is never drawn), its chord roots, its scale as semitone offsets,
   * its drive level and the three formant frequencies of its vowel.
   */
  datatype Theme = Theme(id: string, bpmMin: nat, bpmMax: nat, roots: seq<int>, scale: seq<nat>, drive: real, vowel: seq<real>)

  /** Enough beats a minute for a melody of at least one step, something to play, three formants. */
  predicate ValidTheme(th: Theme)
  {
    3 <= th.bpmMin < th.bpmMax && |th.roots| > 0 && |th.scale| > 0 && |th.vowel| == 3
  }

  const Themes: seq<Theme> := [
    Theme("rock", 118, 146, [40, 43, 45, 38], [0, 2, 3, 5, 7, 10, 12], 0.9, [700.0, 1200.0, 2600.0]),
    Theme("hiphop", 76, 98, [33, 36, 31, 29], [0, 3, 5, 7, 10, 12], 0.75, [500.0, 1100.0, 2300.0]),
    Theme("kpop", 104, 132, [48, 53, 55, 46], [0, 2, 4, 5, 7, 9, 11, 12], 0.82, [800.0, 1400.0, 2900.0]),
    Theme("lullaby", 66, 86, [45, 48, 50, 43], [0, 2, 4, 7, 9, 12], 0.45, [600.0, 1000.0, 2200.0]),
    Theme("jazz", 92, 126, [48, 53, 55, 50], [0, 2, 3, 5, 7, 10, 12], 0.68, [650.0, 1250.0, 2550.0])]

  /** Every theme is valid, its scale lies within an octave, and no two share an id. */
  lemma ThemesWellFormed()
    ensures forall k :: 0 <= k < |Themes| ==> ValidTheme(Themes[k])
    ensures forall k, j :: 0 <= k < |Themes| && 0 <= j < |Themes[k].scale| ==> Themes[k].scale[j] <= 12
    ensures forall k, l :: 0 <= k < l < |Themes| ==> Themes[k].id != Themes[l].id
  {
  }

  predicate IsKpop(th: Theme)
  {
    th.id == "kpop"
  }

  predicate IsLullaby(th: Theme)
  {
    th.id == "lullaby"
  }

  /** `(theme.id.length * 971 + index * 6151) >>> 0`, the seed of track `index`. */
  function TrackSeed(th: Theme, index: nat): Word
  {
    ToUint32(|th.id| * 971 + index * 6151)
  }

  /**
   * Two generators built from a track's seed produce the same draws: the
   * track is a function of its theme's id length and its index.
   */
  lemma SameTrackSameDraws(a: Rng, b: Rng, th: Theme, index: nat)
    requires a.Valid() && b.Valid() && |a.Drawn| == |b.Drawn|
    requires a.Seed == TrackSeed(th, index) && b.Seed == TrackSeed(th, index)
    ensures a.Drawn == b.Drawn && a.state == b.state
    ensures a.Drawn == Stream(TrackSeed(th, index), |a.Drawn|)
  {
    SameSeedSameDraws(a, b);
  }

  /** Within one theme the twenty tracks start from twenty different seeds. */
  lemma SeedsDistinct(th: Theme, i: nat, j: nat)
    requires |th.id| < 1000 && 1 <= i < j <= PerTheme
    ensures TrackSeed(th, i) != TrackSeed(th, j)
  {
    assert |th.id| * 971 + j * 6151 < Modulus;
  }

  /** `Math.floor(theme.bpm[0] + r() * (theme.bpm[1] - theme.bpm[0]))`, from the first draw. */
  function TrackBpm(th: Theme, index: nat): (bpm: nat)
    requires ValidTheme(th)
    ensures th.bpmMin <= bpm < th.bpmMax
  {
    InRange(Next(TrackSeed(th, index)), th.bpmMin, th.bpmMax)
  }

  /** `Math.floor(durationSec / (beat / 2))`, the number of eighth-note steps of the melody. */
  function StepCount(bpm: nat): nat
  {
    DurationSec * bpm / 30
  }

  /** `Math.floor(durationSec / beat)`, the number of drum beats. */
  function Beats(bpm: nat): nat
  {
    DurationSec * bpm / 60
  }

  /** In exact arithmetic both counts are the source's floors. */
  lemma CountsMean(bpm: nat)
    requires bpm > 0
    ensures StepCount(bpm) == (DurationSec as real / (BeatSec(bpm) / 2.0)).Floor
    ensures Beats(bpm) == (DurationSec as real / BeatSec(bpm)).Floor
  {
    LengthsIn(DurationSec, bpm);
  }

  /** `Math.floor(b * 1.25)`: the voice moves every four fifths of a beat. */
  function PhraseStep(bpm: nat, i: nat): nat
  {
    i * bpm / (48 * SampleRate)
  }

  /** In exact arithmetic the phrase step is the source's floor of the beat position times 1.25. */
  lemma PhraseStepMeans(bpm: nat, i: nat)
    requires bpm > 0
    ensures PhraseStep(bpm, i) == ((i as real / SampleRate as real) / BeatSec(bpm) * 1.25).Floor
  {
    var beat := (i as real / SampleRate as real) / BeatSec(bpm);
    BeatRatio(bpm, i, 5, 4);
    assert beat * 1.25 == beat * (5 as real / 4 as real);
    assert (i * bpm * 5) as real / (60 * SampleRate * 4) as real == (i * bpm) as real / (48 * SampleRate) as real;
    FloorRatio(i * bpm, 48 * SampleRate);
  }

  /** +2 below 0.22, +1 below 0.5, -1 below 0.75, -2 below 0.88, and never re-drawn. */
  const VocalWalk: WalkRule := WalkRule(22, 50, 75, 88, None)

  /** The tempo, the melody degrees and the generator state after the walk. */
  datatype TrackPlan = TrackPlan(bpm: nat, melody: seq<nat>, rng: Word)

  predicate ValidPlan(th: Theme, p: TrackPlan)
  {
    && p.bpm >= 3
    && |p.melody| == StepCount(p.bpm)
    && (forall k :: 0 <= k < |p.melody| ==> p.melody[k] < |th.scale|)
  }

  /** The draws before the mix: the tempo, the starting degree, then one per step. */
  function PlanTrack(th: Theme, index: nat): (p: TrackPlan)
    requires ValidTheme(th)
    ensures ValidPlan(th, p)
  {
    var g := TrackSeed(th, index);
    var bpm := TrackBpm(th, index);
    var w := Walk(|th.scale|, VocalWalk, StepCount(bpm), Next(g));
    TrackPlan(bpm, w.melody, w.rng)
  }

  /**
   * A track's choices: a tempo in the theme's range, one melody degree per
   * eighth-note step, and exactly `2 + steps` draws before the drums.
   */
  lemma PlanDraws(th: Theme, index: nat)
    requires ValidTheme(th)
    ensures var p := PlanTrack(th, index);
            && th.bpmMin <= p.bpm < th.bpmMax
            && |p.melody| == StepCount(p.bpm) > 0
            && (forall k :: 0 <= k < |p.melody| ==> p.melody[k] < |th.scale|)
            && p.rng == Advance(TrackSeed(th, index), 2 + StepCount(p.bpm))
  {
    var g := TrackSeed(th, index);
    var steps := StepCount(TrackBpm(th, index));
    WalkDraws(|th.scale|, VocalWalk, steps, Next(g));
    assert Resets(VocalWalk, 0, steps) == 0 by {
      NoResets(VocalWalk, steps);
    }
    AdvanceAdd(g, 1, 1 + steps);
  }

  /** A walk without phrases never re-draws. */
  lemma {:induction false} NoResets(r: WalkRule, n: nat)
    requires r.phrase.None?
    ensures Resets(r, 0, n) == 0
  {
    if n > 0 {
      NoResets(r, n - 1);
    }
  }

  /** `theme.roots[bar % theme.roots.length]`. */
  function RootAt(th: Theme, bpm: nat, i: nat): int
    requires ValidTheme(th)
  {
    th.roots[Bar(bpm, i) % |th.roots|]
  }

  /** `Math.floor(b * 2) % steps`, the backing's melody step. */
  function StepAt(p: TrackPlan, i: nat): nat
    requires p.bpm >= 3
  {
    Step(p.bpm, i) % StepCount(p.bpm)
  }

  /** `Math.floor(b * 1.25) % steps`, the voice's melody step. */
  function PhraseAt(p: TrackPlan, i: nat): nat
    requires p.bpm >= 3
  {
    PhraseStep(p.bpm, i) % StepCount(p.bpm)
  }

  /** `root + theme.scale[melody[step]] + (kpop ? 12 : 0)`, the note of the backing lead. */
  function LeadNote(th: Theme, p: TrackPlan, i: nat): int
    requires ValidTheme(th) && ValidPlan(th, p)
  {
    RootAt(th, p.bpm, i) + th.scale[p.melody[StepAt(p, i)]] + (if IsKpop(th) then 12 else 0)
  }

  /** `root + 7 + theme.scale[melody[phraseStep]]`, the sung note. */
  function VocalMidi(th: Theme, p: TrackPlan, i: nat): int
    requires ValidTheme(th) && ValidPlan(th, p)
  {
    RootAt(th, p.bpm, i) + 7 + th.scale[p.melody[PhraseAt(p, i)]]
  }

  /**
   * Under every sample both melody steps index the melody; the lead plays a
   * degree of the scale within the octave above the root (one more octave
   * up in kpop) and the voice sings a degree of the scale a fifth higher.
   */
  lemma NotesInRange(th: Theme, p: TrackPlan, i: nat)
    requires ValidTheme(th) && ValidPlan(th, p)
    requires forall k :: 0 <= k < |th.scale| ==> th.scale[k] <= 12
    ensures StepAt(p, i) < |p.melody| && PhraseAt(p, i) < |p.melody|
    ensures var root, shift := RootAt(th, p.bpm, i), if th.id == "kpop" then 12 else 0;
            && root in th.roots
            && LeadNote(th, p, i) - shift - root in th.scale
            && root + shift <= LeadNote(th, p, i) <= root + shift + 12
            && VocalMidi(th, p, i) - root - 7 in th.scale
            && root + 7 <= VocalMidi(th, p, i) <= root + 19
  {
  }

  /** `Math.sin(2π · midiToFreq(root - 12) · t) * 0.16 * drive`. */
  function Bass(d: Oscillators, th: Theme, rootMidi: int, t: real): real
  {
    Scale(d.sin(2.0 * Pi * Scale(MidiToFreq(d, rootMidi - 12), t)) * 0.16, th.drive)
  }

  /** 65% saw and 35% triangle, louder on even steps, scaled by the drive. */
  function Lead(d: Oscillators, th: Theme, note: int, step: nat, t: real): real
  {
    var freq := MidiToFreq(d, note);
    var saw := Frac(Scale(t, freq)) * 2.0 - 1.0;
    var tri := 2.0 * Abs(2.0 * Frac(Scale(t, freq / 2.0)) - 1.0) - 1.0;
    var gate := Scale(if step % 2 == 0 then 0.12 else 0.075, th.drive);
    Scale(0.65 * saw + 0.35 * tri, gate)
  }

  /**
   * The voice: a carrier with vibrato, ring-modulated by the three vowel
   * formants, under a half-sine syllable envelope that repeats every four
   * thirds of a beat, and accented on even beats.
   */
  function Sung(d: Oscillators, th: Theme, vocalMidi: int, beat: real, beatIndex: nat, t: real): real
    requires |th.vowel| == 3
  {
    var f0 := Scale(MidiToFreq(d, vocalMidi), 1.0 + d.sin(2.0 * Pi * 5.2 * t) * 0.01);
    var syllable := Max(0.0, d.sin(Pi * Frac(beat * 0.75)));
    var pulse := if beatIndex % 2 == 0 then 1.0 else 0.55;
    var c := d.sin(2.0 * Pi * Scale(f0, t));
    var f1 := Scale(d.sin(2.0 * Pi * Scale(th.vowel[0], t)), c);
    var f2 := Scale(d.sin(2.0 * Pi * Scale(th.vowel[1], t)), c);
    var f3 := Scale(d.sin(2.0 * Pi * Scale(th.vowel[2], t)), c);
    Scale(Scale((0.45 * c + 0.28 * f1 + 0.18 * f2 + 0.12 * f3) * 0.22, syllable), pulse)
  }

  /** Sample `i` of the mix before the drums: bass and lead in one addition, then the voice. */
  function Layered(d: Oscillators, th: Theme, p: TrackPlan, i: nat): real
    requires ValidTheme(th) && ValidPlan(th, p)
  {
    var t := i as real / SampleRate as real;
    var backing := Bass(d, th, RootAt(th, p.bpm, i), t) + Lead(d, th, LeadNote(th, p, i), StepAt(p, i), t);
    0.0 + backing + Sung(d, th, VocalMidi(th, p, i), Beat(p.bpm, i), BeatIndex(p.bpm, i), t)
  }

  /** The first `n` samples of the mix before the drums. */
  function LayeredPrefix(d: Oscillators, th: Theme, p: TrackPlan, n: nat): (r: seq<real>)
    requires ValidTheme(th) && ValidPlan(th, p)
    ensures |r| == n
  {
    if n == 0 then [] else LayeredPrefix(d, th, p, n - 1) + [Layered(d, th, p, n - 1)]
  }

  /** Sample `k` of every long enough prefix is the layered sample `k`. */
  lemma {:induction false} LayeredPrefixAt(d: Oscillators, th: Theme, p: TrackPlan, n: nat, k: nat)
    requires ValidTheme(th) && ValidPlan(th, p) && k < n
    ensures LayeredPrefix(d, th, p, n)[k] == Layered(d, th, p, k)
    decreases n
  {
    if k < n - 1 {
      LayeredPrefixAt(d, th, p, n - 1, k);
    }
  }

  /** The theme's drums: 0.15 s kicks from 110 Hz, 0.12 s snares, 0.025 s hats, all softer in the lullaby. */
  function TrackKit(th: Theme): (kit: Kit)
    ensures kit.sampleRate == SampleRate && !kit.drawsWhenDropped
    ensures kit.kickLen == 3307 && kit.snareLen == 2646 && kit.hatLen == 551
  {
    var lullaby := IsLullaby(th);
    Kit(SampleRate, 3307, 2646, 551,
        110.0, 65.0, if lullaby then 12.0 else 19.0, 0.5,
        24.0, if lullaby then 0.07 else 0.18,
        110.0, if lullaby then 0.025 else 0.07,
        false)
  }

  /** `Math.tanh(x * 1.25) * 0.72`, faded in over 0.08 s and out over the last 0.2 s. */
  const VocalMaster: Master := Master(1.25, 0.72, Some(1764), 4410)

  /** The mix once the drums are in. */
  function Drummed(d: Oscillators, th: Theme, p: TrackPlan): (r: seq<real>)
    requires ValidTheme(th) && ValidPlan(th, p)
    ensures |r| == Total
  {
    ApplyHits(d, TrackKit(th), Schedule(SampleRate, p.bpm, Beats(p.bpm)),
              Drums.Mix(LayeredPrefix(d, th, p, Total), p.rng)).buf
  }

  /**
   * The samples of track `index` of a theme: 10 seconds, every sample
   * strictly inside (-0.72, 0.72), the first one silent.
   */
  function TrackSamples(d: Oscillators, th: Theme, index: nat): (r: seq<real>)
    requires ValidTheme(th)
    ensures |r| == Total
    ensures Valid(d) ==> forall i :: 0 <= i < Total ==> -0.72 < r[i] < 0.72
    ensures r[0] == 0.0
  {
    var r := MasterAll(d, VocalMaster, Drummed(d, th, PlanTrack(th, index)));
    FirstSampleSilent(d, VocalMaster, Total, Drummed(d, th, PlanTrack(th, index))[0]);
    r
  }

  /**
   * The drums of a track: a kick on each beat, a snare on beats 1 and 3 of
   * each bar, two hats a beat; noise is drawn only inside the track.
   */
  lemma DrumsOfTrack(th: Theme, index: nat)
    requires ValidTheme(th)
    ensures var bpm := PlanTrack(th, index).bpm;
            var hs := Schedule(SampleRate, bpm, Beats(bpm));
            && CountVoice(hs, Kick) == Beats(bpm)
            && CountVoice(hs, Snare) == Beats(bpm) / 2
            && CountVoice(hs, Hat) == 2 * Beats(bpm)
            && !TrackKit(th).drawsWhenDropped
  {
    var bpm := PlanTrack(th, index).bpm;
    ScheduleCounts(SampleRate, bpm, Beats(bpm));
  }

  /** The backing and voice loop, writing into a zeroed buffer. */
  method RenderLayers(d: Oscillators, th: Theme, p: TrackPlan, out: array<real>)
    requires ValidTheme(th) && ValidPlan(th, p)
    requires out.Length == Total && forall k :: 0 <= k < Total ==> out[k] == 0.0
    modifies out
    ensures out[..] == LayeredPrefix(d, th, p, Total)
  {
    for i := 0 to Total
      invariant forall k :: 0 <= k < i ==> out[k] == LayeredPrefix(d, th, p, Total)[k]
      invariant forall k :: i <= k < Total ==> out[k] == 0.0
    {
      RenderSample(d, th, p, out, i);
    }
  }

  /** Sample `i` of the zeroed buffer becomes its layered value; no other sample changes. */
  method RenderSample(d: Oscillators, th: Theme, p: TrackPlan, out: array<real>, i: nat)
    requires ValidTheme(th) && ValidPlan(th, p)
    requires out.Length == Total && i < Total && out[i] == 0.0
    modifies out
    ensures out[i] == LayeredPrefix(d, th, p, Total)[i]
    ensures forall k :: 0 <= k < Total && k != i ==> out[k] == old(out[k])
  {
    out[i] := AddLayers(d, th, p, i, out[i]);
    LayeredPrefixAt(d, th, p, Total, i);
  }

  /** The loop body for sample `i`: `out[i] += bass + lead; out[i] += voice`. */
  method AddLayers(d: Oscillators, th: Theme, p: TrackPlan, i: nat, before: real) returns (sample: real)
    requires ValidTheme(th) && ValidPlan(th, p) && before == 0.0
    ensures sample == Layered(d, th, p, i)
  {
    var t := i as real / SampleRate as real;
    var root := RootAt(th, p.bpm, i);
    var step := StepAt(p, i);
    var bass := Bass(d, th, root, t);
    var lead := Lead(d, th, root + th.scale[p.melody[step]] + (if th.id == "kpop" then 12 else 0), step, t);
    sample := before + (bass + lead);
    var phraseStep := PhraseAt(p, i);
    var vocalMidi := root + 7 + th.scale[p.melody[phraseStep]];
    sample := sample + Sung(d, th, vocalMidi, Beat(p.bpm, i), BeatIndex(p.bpm, i), t);
  }

  /** The seeding and the draws before the mix. */
  method ChooseTrack(th: Theme, index: nat) returns (r: Rng, p: TrackPlan)
    requires ValidTheme(th)
    ensures fresh(r) && r.Valid()
    ensures p == PlanTrack(th, index) && r.state == p.rng
  {
    r := new Rng.FromSeed(|th.id| * 971 + index * 6151);
    assert r.state == TrackSeed(th, index);
    var u := r.Draw();
    var bpm := InRange(u, th.bpmMin, th.bpmMax);
    assert bpm == TrackBpm(th, index);
    var melody := RandomWalk(r, |th.scale|, StepCount(bpm), VocalWalk);
    p := TrackPlan(bpm, melody[..], r.state);
  }

  /** `genThemeTrack(theme, index)`: the mastered samples and the tempo. */
  method GenThemeTrack(d: Oscillators, th: Theme, index: nat) returns (samples: array<real>, bpm: nat)
    requires ValidTheme(th)
    ensures fresh(samples)
    ensures bpm == TrackBpm(th, index)
    ensures samples[..] == TrackSamples(d, th, index)
  {
    var r, p := ChooseTrack(th, index);
    samples := new real[Total](_ => 0.0);
    RenderLayers(d, th, p, samples);
    RenderDrums(d, TrackKit(th), p.bpm, Beats(p.bpm), samples, r);
    MasterInPlace(d, VocalMaster, samples);
    bpm := p.bpm;
  }

  /** `${theme.id}-vocal-${String(i).padStart(2, '0')}.wav`. */
  function FileName(th: Theme, i: nat): string
  {
    th.id + "-vocal-" + Decimal.Pad2(i) + ".wav"
  }

  /** A file name names its theme and its index: names of indices below 100 never collide. */
  lemma FileNameInjective(a: Theme, i: nat, b: Theme, j: nat)
    requires i < 100 && j < 100 && FileName(a, i) == FileName(b, j)
    ensures a.id == b.id && i == j
  {
    var x, y := FileName(a, i), FileName(b, j);
    assert |x| == |a.id| + 13 && |y| == |b.id| + 13;
    assert a.id == x[..|a.id|] == y[..|b.id|] == b.id;
    assert Decimal.Pad2(i) == x[|a.id| + 7..|a.id| + 9] == y[|b.id| + 7..|b.id| + 9] == Decimal.Pad2(j);
    Decimal.Pad2Injective(i, j);
  }

  /** A file the script writes: its path under the working directory and its bytes. */
  datatype WrittenFile = WrittenFile(path: string, bytes: seq<Wav.Byte>)

  /** `path.join(outRoot, theme.id, name)`, relative to the working directory. */
  function FilePath(th: Theme, i: nat): string
  {
    "public/tracks_real_assets/" + th.id + "/" + FileName(th, i)
  }

  /** `writeWav(path.join(dir, name), samples)` for track `i` of a theme. */
  function TrackFile(d: Oscillators, th: Theme, i: nat): WrittenFile
    requires ValidTheme(th)
  {
    WrittenFile(FilePath(th, i), Wav.WavBytes(TrackSamples(d, th, i), SampleRate))
  }

  /** The files of tracks 1 .. n of a theme. */
  function ThemeFiles(d: Oscillators, th: Theme, n: nat): (r: seq<WrittenFile>)
    requires ValidTheme(th)
    ensures |r| == n
  {
    if n == 0 then [] else ThemeFiles(d, th, n - 1) + [TrackFile(d, th, n)]
  }

  predicate AllValid(themes: seq<Theme>)
  {
    forall k :: 0 <= k < |themes| ==> ValidTheme(themes[k])
  }

  /** The WAV files, theme by theme. */
  function Files(d: Oscillators, themes: seq<Theme>): (r: seq<WrittenFile>)
    requires AllValid(themes)
    ensures |r| == PerTheme * |themes|
  {
    if themes == [] then []
    else Files(d, themes[..|themes| - 1]) + ThemeFiles(d, themes[|themes| - 1], PerTheme)
  }

  /** The paths of a list of files, in order. */
  function PathsOf(files: seq<WrittenFile>): (r: seq<string>)
    ensures |r| == |files|
    ensures forall k :: 0 <= k < |files| ==> r[k] == files[k].path
  {
    if files == [] then [] else PathsOf(files[..|files| - 1]) + [files[|files| - 1].path]
  }

  /** The paths of tracks 1 .. n of a theme. */
  function ThemePaths(th: Theme, n: nat): (r: seq<string>)
    ensures |r| == n
  {
    if n == 0 then [] else ThemePaths(th, n - 1) + [FilePath(th, n)]
  }

  /** The paths written, theme by theme. */
  function AssetPaths(themes: seq<Theme>): (r: seq<string>)
    ensures |r| == PerTheme * |themes|
  {
    if themes == [] then [] else AssetPaths(themes[..|themes| - 1]) + ThemePaths(themes[|themes| - 1], PerTheme)
  }

  /** Path `k` of a theme is its track `k + 1`'s. */
  lemma {:induction false} ThemePathAt(th: Theme, n: nat, k: nat)
    requires k < n
    ensures ThemePaths(th, n)[k] == FilePath(th, k + 1)
  {
    var front := ThemePaths(th, n - 1);
    assert ThemePaths(th, n) == front + [FilePath(th, n)];
    if k < n - 1 {
      ThemePathAt(th, n - 1, k);
    }
  }

  /** Path `k` is path `k % 20` of theme `k / 20`. */
  lemma {:induction false} AssetPathAt(themes: seq<Theme>, k: nat)
    requires k < PerTheme * |themes|
    ensures k / PerTheme < |themes|
    ensures AssetPaths(themes)[k] == ThemePaths(themes[k / PerTheme], PerTheme)[k % PerTheme]
    decreases |themes|
  {
    var n := |themes| - 1;
    var front := themes[..n];
    var f := AssetPaths(themes);
    assert f == AssetPaths(front) + ThemePaths(themes[n], PerTheme);
    if k < PerTheme * n {
      AssetPathAt(front, k);
      assert f[k] == AssetPaths(front)[k];
      assert front[k / PerTheme] == themes[k / PerTheme];
    } else {
      Arith.DivModUnique(k, PerTheme, n, k - PerTheme * n);
      assert f[k] == ThemePaths(themes[n], PerTheme)[k - PerTheme * n];
    }
  }

  /** With distinct theme ids, no two of the `20 * themes` paths coincide. */
  lemma PathsUnique(themes: seq<Theme>)
    requires forall p, q :: 0 <= p < q < |themes| ==> themes[p].id != themes[q].id
    ensures var f := AssetPaths(themes);
            forall k, l :: 0 <= k < l < |f| ==> f[k] != f[l]
  {
    var f := AssetPaths(themes);
    forall k, l | 0 <= k < l < |f|
      ensures f[k] != f[l]
    {
      AssetPathAt(themes, k);
      AssetPathAt(themes, l);
      ThemePathAt(themes[k / PerTheme], PerTheme, k % PerTheme);
      ThemePathAt(themes[l / PerTheme], PerTheme, l % PerTheme);
      assert k == PerTheme * (k / PerTheme) + k % PerTheme;
      assert l == PerTheme * (l / PerTheme) + l % PerTheme;
      var a, b := themes[k / PerTheme], themes[l / PerTheme];
      var i, j := k % PerTheme + 1, l % PerTheme + 1;
      if f[k] == f[l] {
        PathInjective(a, i, b, j);
      }
    }
  }

  /** The path of a file names its theme and its index. */
  lemma PathInjective(a: Theme, i: nat, b: Theme, j: nat)
    requires i < 100 && j < 100
    requires FilePath(a, i) == FilePath(b, j)
    ensures a.id == b.id && i == j
  {
    var x, y := FilePath(a, i), FilePath(b, j);
    var n := |"public/tracks_real_assets/"|;
    assert |x| == n + 2 * |a.id| + 14 && |y| == n + 2 * |b.id| + 14;
    assert x[n + |a.id| + 1..] == FileName(a, i);
    assert y[n + |b.id| + 1..] == FileName(b, j);
    FileNameInjective(a, i, b, j);
  }

  /**
   * The script's loop: every theme, every one of its twenty tracks,
   * generated and written; the hundred paths are all different.
   */
  method GenerateAssets(d: Oscillators) returns (files: seq<WrittenFile>)
    ensures AllValid(Themes)
    ensures files == Files(d, Themes)
    ensures |files| == 100
    ensures forall k, l :: 0 <= k < l < |files| ==> files[k].path != files[l].path
  {
    ThemesWellFormed();
    files := GenerateDistinct(d, Themes);
  }

  /** The loop over themes with distinct ids writes no path twice. */
  method GenerateDistinct(d: Oscillators, themes: seq<Theme>) returns (files: seq<WrittenFile>)
    requires AllValid(themes)
    requires forall p, q :: 0 <= p < q < |themes| ==> themes[p].id != themes[q].id
    ensures files == Files(d, themes)
    ensures forall k, l :: 0 <= k < l < |files| ==> files[k].path != files[l].path
  {
    files := GenerateThemes(d, themes);
    FilesUnique(files, themes);
  }

  /** Files written at the paths of themes with distinct ids have distinct paths. */
  lemma FilesUnique(files: seq<WrittenFile>, themes: seq<Theme>)
    requires PathsOf(files) == AssetPaths(themes)
    requires forall p, q :: 0 <= p < q < |themes| ==> themes[p].id != themes[q].id
    ensures forall k, l :: 0 <= k < l < |files| ==> files[k].path != files[l].path
  {
    var f := AssetPaths(themes);
    PathsUnique(themes);
    forall k, l | 0 <= k < l < |files|
      ensures files[k].path != files[l].path
    {
      assert files[k].path == PathsOf(files)[k] == f[k];
      assert files[l].path == PathsOf(files)[l] == f[l];
    }
  }

  /** The loop over a list of themes. */
  method GenerateThemes(d: Oscillators, themes: seq<Theme>) returns (files: seq<WrittenFile>)
    requires AllValid(themes)
    ensures files == Files(d, themes)
    ensures PathsOf(files) == AssetPaths(themes)
  {
    files := [];
    for t := 0 to |themes|
      invariant AllValid(themes[..t])
      invariant files == Files(d, themes[..t])
      invariant PathsOf(files) == AssetPaths(themes[..t])
    {
      var written := GenerateTheme(d, themes[t]);
      FilesSnoc(d, themes, t);
      PathsAppend(files, written);
      files := files + written;
    }
    assert themes[..|themes|] == themes;
  }

  lemma FilesSnoc(d: Oscillators, themes: seq<Theme>, t: nat)
    requires AllValid(themes) && t < |themes|
    ensures AllValid(themes[..t]) && AllValid(themes[..t + 1])
    ensures Files(d, themes[..t + 1]) == Files(d, themes[..t]) + ThemeFiles(d, themes[t], PerTheme)
    ensures AssetPaths(themes[..t + 1]) == AssetPaths(themes[..t]) + ThemePaths(themes[t], PerTheme)
  {
    var front := themes[..t + 1];
    assert front[..t] == themes[..t] && front[t] == themes[t];
  }

  lemma PathsAppend(a: seq<WrittenFile>, b: seq<WrittenFile>)
    ensures PathsOf(a + b) == PathsOf(a) + PathsOf(b)
  {
    assert forall k :: 0 <= k < |a + b| ==> PathsOf(a + b)[k] == (PathsOf(a) + PathsOf(b))[k];
  }

  /** The twenty tracks of one theme. */
  method GenerateTheme(d: Oscillators, theme: Theme) returns (files: seq<WrittenFile>)
    requires ValidTheme(theme)
    ensures files == ThemeFiles(d, theme, PerTheme)
    ensures PathsOf(files) == ThemePaths(theme, PerTheme)
  {
    files := [];
    for i := 1 to PerTheme + 1
      invariant files == ThemeFiles(d, theme, i - 1)
      invariant PathsOf(files) == ThemePaths(theme, i - 1)
    {
      var file := GenerateFile(d, theme, i);
      PathsAppend(files, [file]);
      files := files + [file];
    }
  }

  /** The loop body for track `i`: generate it and write it. */
  method GenerateFile(d: Oscillators, theme: Theme, i: nat) returns (file: WrittenFile)
    requires ValidTheme(theme)
    ensures file == TrackFile(d, theme, i)
    ensures file.path == FilePath(theme, i)
  {
    var samples, _ := GenThemeTrack(d, theme, i);
    var name := theme.id + "-vocal-" + Decimal.Pad2(i) + ".wav";
    var wav := Wav.BuildWav(samples, SampleRate);
    file := WrittenFile("public/tracks_real_assets/" + theme.id + "/" + name, wav[..]);
  }
}
