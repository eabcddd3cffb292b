/**
 * The batch generator of the demo library (`generate_tracks.js`): five
 * themes, twenty 8-second mono tracks each at 22050 Hz.  Every track has
 * its own 32-bit LCG, seeded from the length of the theme's id and the
 * track's index and never remapped away from zero; the first draw picks the
 * tempo from the theme's range, the next ones walk the melody, and the
 * drums draw their noise from the same generator.  The script writes each
 * track as a WAV file and lists them all in the library's metadata.
 */
module GenerateTracks {
  import opened Wrappers
  import opened Lcg
  import opened Dsp
  import opened Grid
  import opened Melody
  import opened Drums
  import opened Mastering
  import Decimal
  import Ascii
  import Wav
  import Arith

  const DurationSec: nat := 8
  /** `sampleRate * durationSec`, the length of a track in samples. */
  const Total: nat := 176400
  /** The number of tracks per theme. */
  const PerTheme: nat := 20

  /**
   * A theme: its id, its tempo range `bpm: [bpmMin, bpmMax]` (the maximum
   * itself is never drawn), its four chord roots, its scale as semitone
   * offsets and its drive level.
   */
  datatype Theme = Theme(id: string, bpmMin: nat, bpmMax: nat, roots: seq<int>, scale: seq<nat>, drive: real)

  /** Enough beats a minute for a melody of at least one step, and something to play. */
  predicate ValidTheme(th: Theme)
  {
    4 <= th.bpmMin < th.bpmMax && |th.roots| > 0 && |th.scale| > 0
  }

  const Themes: seq<Theme> := [
    Theme("rock", 120, 150, [40, 43, 45, 38], [0, 2, 3, 5, 7, 10, 12], 0.9),
    Theme("hiphop", 78, 100, [33, 36, 31, 29], [0, 3, 5, 7, 10, 12], 0.75),
    Theme("kpop", 105, 132, [48, 53, 55, 46], [0, 2, 4, 5, 7, 9, 11, 12], 0.8),
    Theme("lullaby", 68, 88, [45, 48, 50, 43], [0, 2, 4, 7, 9, 12], 0.45),
    Theme("jazz", 95, 128, [48, 53, 55, 50], [0, 2, 3, 5, 7, 10, 12], 0.65)]

  /** Every theme of the library is valid, its scale lies within an octave, and no two share an id. */
  lemma ThemesWellFormed()
    ensures forall k :: 0 <= k < |Themes| ==> ValidTheme(Themes[k])
    ensures forall k, j :: 0 <= k < |Themes| && 0 <= j < |Themes[k].scale| ==> Themes[k].scale[j] <= 12
    ensures forall k, l :: 0 <= k < l < |Themes| ==> Themes[k].id != Themes[l].id
  {
  }

  predicate IsKpop(th: Theme)
  {
    th.id == "kpop"
  }

  predicate IsLullaby(th: Theme)
  {
    th.id == "lullaby"
  }

  /** `(theme.id.length * 131 + index * 7919) >>> 0`, the seed of track `index`. */
  function TrackSeed(th: Theme, index: nat): Word
  {
    ToUint32(|th.id| * 131 + index * 7919)
  }

  /**
   * The seed depends on the theme only through the length of its id: two
   * themes with ids of equal length give their tracks of the same index
   * the same generator, so "rock" and "jazz" draw the same values.
   */
  lemma SeedsByIdLength(a: Theme, b: Theme, index: nat)
    ensures TrackSeed(a, index) == TrackSeed(b, index) <==> (|a.id| * 131 + index * 7919) % Modulus == (|b.id| * 131 + index * 7919) % Modulus
    ensures |a.id| == |b.id| ==> TrackSeed(a, index) == TrackSeed(b, index)
    ensures |a.id| < |b.id| < 1000 && index < 100000 ==> TrackSeed(a, index) != TrackSeed(b, index)
  {
  }

  /** Within one theme the twenty tracks start from twenty different seeds. */
  lemma SeedsDistinct(th: Theme, i: nat, j: nat)
    requires |th.id| < 1000 && 1 <= i < j <= PerTheme
    ensures TrackSeed(th, i) != TrackSeed(th, j)
  {
    assert |th.id| * 131 + j * 7919 < Modulus;
  }

  /** `Math.floor(theme.bpm[0] + rnd() * (theme.bpm[1] - theme.bpm[0]))`, from the first draw. */
  function TrackBpm(th: Theme, index: nat): (bpm: nat)
    requires ValidTheme(th)
    ensures th.bpmMin <= bpm < th.bpmMax
  {
    InRange(Next(TrackSeed(th, index)), th.bpmMin, th.bpmMax)
  }

  /** `Math.floor(durationSec / (beat / 2))`, the number of eighth-note steps of the melody. */
  function StepCount(bpm: nat): nat
  {
    DurationSec * bpm / 30
  }

  /** `Math.floor(durationSec / beat)`, the number of drum beats. */
  function Beats(bpm: nat): nat
  {
    DurationSec * bpm / 60
  }

  /** In exact arithmetic both counts are the source's floors. */
  lemma CountsMean(bpm: nat)
    requires bpm > 0
    ensures StepCount(bpm) == (DurationSec as real / (BeatSec(bpm) / 2.0)).Floor
    ensures Beats(bpm) == (DurationSec as real / BeatSec(bpm)).Floor
  {
    LengthsIn(DurationSec, bpm);
  }

  /** +2 below 0.2, +1 below 0.5, -1 below 0.75, -2 below 0.88, and never re-drawn. */
  const TrackWalk: WalkRule := WalkRule(20, 50, 75, 88, None)

  /** The tempo, the melody degrees and the generator state after the walk. */
  datatype TrackPlan = TrackPlan(bpm: nat, melody: seq<nat>, rng: Word)

  predicate ValidPlan(th: Theme, p: TrackPlan)
  {
    && p.bpm >= 4
    && |p.melody| == StepCount(p.bpm)
    && (forall k :: 0 <= k < |p.melody| ==> p.melody[k] < |th.scale|)
  }

  /** The draws before the mix: the tempo, the starting degree, then one per step. */
  function PlanTrack(th: Theme, index: nat): (p: TrackPlan)
    requires ValidTheme(th)
    ensures ValidPlan(th, p)
  {
    var g := TrackSeed(th, index);
    var bpm := TrackBpm(th, index);
    var w := Walk(|th.scale|, TrackWalk, StepCount(bpm), Next(g));
    TrackPlan(bpm, w.melody, w.rng)
  }

  /**
   * A track's choices: a tempo in the theme's range, one melody degree per
   * eighth-note step, and exactly `2 + steps` draws, after which the drums
   * go on drawing.
   */
  lemma PlanDraws(th: Theme, index: nat)
    requires ValidTheme(th)
    ensures var p := PlanTrack(th, index);
            && th.bpmMin <= p.bpm < th.bpmMax
            && |p.melody| == StepCount(p.bpm) > 0
            && (forall k :: 0 <= k < |p.melody| ==> p.melody[k] < |th.scale|)
            && p.rng == Advance(TrackSeed(th, index), 2 + StepCount(p.bpm))
  {
    var g := TrackSeed(th, index);
    var steps := StepCount(TrackBpm(th, index));
    WalkDraws(|th.scale|, TrackWalk, steps, Next(g));
    assert Resets(TrackWalk, 0, steps) == 0 by {
      NoResets(TrackWalk, steps);
    }
    AdvanceAdd(g, 1, 1 + steps);
  }

  /** A walk without phrases never re-draws. */
  lemma {:induction false} NoResets(r: WalkRule, n: nat)
    requires r.phrase.None?
    ensures Resets(r, 0, n) == 0
  {
    if n > 0 {
      NoResets(r, n - 1);
    }
  }

  /** `theme.roots[bar % theme.roots.length]`, the chord root under sample `i`. */
  function RootAt(th: Theme, bpm: nat, i: nat): int
    requires ValidTheme(th)
  {
    th.roots[Bar(bpm, i) % |th.roots|]
  }

  /** `Math.floor(b * 2) % stepCount`, the melody step under sample `i`. */
  function StepAt(p: TrackPlan, i: nat): nat
    requires p.bpm >= 4
  {
    Step(p.bpm, i) % StepCount(p.bpm)
  }

  /** `rootMidi + theme.scale[melody[step]]`. */
  function LeadMidi(th: Theme, p: TrackPlan, i: nat): int
    requires ValidTheme(th) && ValidPlan(th, p)
  {
    RootAt(th, p.bpm, i) + th.scale[p.melody[StepAt(p, i)]]
  }

  /** The note the lead sounds: an octave up for kpop. */
  function LeadNote(th: Theme, p: TrackPlan, i: nat): int
    requires ValidTheme(th) && ValidPlan(th, p)
  {
    LeadMidi(th, p, i) + (if IsKpop(th) then 12 else 0)
  }

  /**
   * Under every sample the melody step indexes the melody, the lead's note
   * is a degree of the scale above the bar's chord root and within its
   * octave, and only kpop sounds it an octave higher.
   */
  lemma NotesInRange(th: Theme, p: TrackPlan, i: nat)
    requires ValidTheme(th) && ValidPlan(th, p)
    requires forall k :: 0 <= k < |th.scale| ==> th.scale[k] <= 12
    ensures StepAt(p, i) < |p.melody|
    ensures RootAt(th, p.bpm, i) in th.roots
    ensures LeadMidi(th, p, i) - RootAt(th, p.bpm, i) in th.scale
    ensures RootAt(th, p.bpm, i) <= LeadMidi(th, p, i) <= RootAt(th, p.bpm, i) + 12
    ensures LeadNote(th, p, i) - LeadMidi(th, p, i) == (if th.id == "kpop" then 12 else 0)
  {
  }

  /** `Math.sin(2π · midiToFreq(root - 12) · t) * 0.17 * drive`. */
  function Bass(d: Oscillators, th: Theme, rootMidi: int, t: real): real
  {
    Scale(d.sin(2.0 * Pi * Scale(MidiToFreq(d, rootMidi - 12), t)) * 0.17, th.drive)
  }

  /** 65% saw and 35% triangle, louder on even steps, scaled by the drive. */
  function Lead(d: Oscillators, th: Theme, note: int, step: nat, t: real): real
  {
    var freq := MidiToFreq(d, note);
    var saw := Frac(Scale(t, freq)) * 2.0 - 1.0;
    var tri := 2.0 * Abs(2.0 * Frac(Scale(t, freq / 2.0)) - 1.0) - 1.0;
    var gate := Scale(if step % 2 == 0 then 0.12 else 0.07, th.drive);
    Scale(0.65 * saw + 0.35 * tri, gate)
  }

  /** The hummed voice a fourth above the lead: a vibrato carrier and one formant. */
  function Hum(d: Oscillators, leadMidi: int, t: real): real
  {
    var freq := MidiToFreq(d, leadMidi + 5);
    var vib := d.sin(2.0 * Pi * 5.0 * t) * 0.012;
    var carrier := d.sin(2.0 * Pi * Scale(Scale(freq, 1.0 + vib), t));
    var form := d.sin(2.0 * Pi * Scale(freq * 2.3, t)) * 0.3;
    (carrier + form) * 0.028
  }

  /** Sample `i` of the mix before the drums: bass, lead and, except in the lullaby, the voice. */
  function Layered(d: Oscillators, th: Theme, p: TrackPlan, i: nat): real
    requires ValidTheme(th) && ValidPlan(th, p)
  {
    var t := i as real / SampleRate as real;
    var lead := Lead(d, th, LeadNote(th, p, i), StepAt(p, i), t);
    var withLead := 0.0 + Bass(d, th, RootAt(th, p.bpm, i), t) + lead;
    if IsLullaby(th) then withLead else withLead + Hum(d, LeadMidi(th, p, i), t)
  }

  /** The first `n` samples of the mix before the drums. */
  function LayeredPrefix(d: Oscillators, th: Theme, p: TrackPlan, n: nat): (r: seq<real>)
    requires ValidTheme(th) && ValidPlan(th, p)
    ensures |r| == n
  {
    if n == 0 then [] else LayeredPrefix(d, th, p, n - 1) + [Layered(d, th, p, n - 1)]
  }

  /** Sample `k` of every long enough prefix is the layered sample `k`. */
  lemma {:induction false} LayeredPrefixAt(d: Oscillators, th: Theme, p: TrackPlan, n: nat, k: nat)
    requires ValidTheme(th) && ValidPlan(th, p) && k < n
    ensures LayeredPrefix(d, th, p, n)[k] == Layered(d, th, p, k)
    decreases n
  {
    if k < n - 1 {
      LayeredPrefixAt(d, th, p, n - 1, k);
    }
  }

  /** The theme's drums: 0.15 s kicks from 115 Hz, 0.12 s snares, 0.025 s hats, all softer in the lullaby. */
  function TrackKit(th: Theme): (kit: Kit)
    ensures kit.sampleRate == SampleRate && !kit.drawsWhenDropped
    ensures kit.kickLen == 3307 && kit.snareLen == 2646 && kit.hatLen == 551
  {
    var lullaby := IsLullaby(th);
    Kit(SampleRate, 3307, 2646, 551,
        115.0, 70.0, if lullaby then 14.0 else 20.0, 0.55,
        24.0, if lullaby then 0.08 else 0.2,
        110.0, if lullaby then 0.03 else 0.08,
        false)
  }

  /** `Math.tanh(x * 1.3) * 0.68`, faded in over 0.08 s and out over the last 0.2 s. */
  const TrackMaster: Master := Master(1.3, 0.68, Some(1764), 4410)

  /** The mix once the drums are in. */
  function Drummed(d: Oscillators, th: Theme, p: TrackPlan): (r: seq<real>)
    requires ValidTheme(th) && ValidPlan(th, p)
    ensures |r| == Total
  {
    ApplyHits(d, TrackKit(th), Schedule(SampleRate, p.bpm, Beats(p.bpm)),
              Drums.Mix(LayeredPrefix(d, th, p, Total), p.rng)).buf
  }

  /**
   * The samples of track `index` of a theme: 8 seconds, every sample
   * strictly inside (-0.68, 0.68), the first one silent.
   */
  function TrackSamples(d: Oscillators, th: Theme, index: nat): (r: seq<real>)
    requires ValidTheme(th)
    ensures |r| == Total
    ensures Valid(d) ==> forall i :: 0 <= i < Total ==> -0.68 < r[i] < 0.68
    ensures r[0] == 0.0
  {
    var r := MasterAll(d, TrackMaster, Drummed(d, th, PlanTrack(th, index)));
    FirstSampleSilent(d, TrackMaster, Total, Drummed(d, th, PlanTrack(th, index))[0]);
    r
  }

  /**
   * The drums of a track: on each of its beats a kick, a snare on beats 1
   * and 3 of each bar, two hats; and noise is drawn only for samples that
   * land inside the track.
   */
  lemma DrumsOfTrack(th: Theme, index: nat)
    requires ValidTheme(th)
    ensures var bpm := PlanTrack(th, index).bpm;
            var hs := Schedule(SampleRate, bpm, Beats(bpm));
            && CountVoice(hs, Kick) == Beats(bpm)
            && CountVoice(hs, Snare) == Beats(bpm) / 2
            && CountVoice(hs, Hat) == 2 * Beats(bpm)
            && !TrackKit(th).drawsWhenDropped
  {
    var bpm := PlanTrack(th, index).bpm;
    ScheduleCounts(SampleRate, bpm, Beats(bpm));
  }

  /** The bass, lead and voice loop, writing into a zeroed buffer. */
  method RenderLayers(d: Oscillators, th: Theme, p: TrackPlan, mix: array<real>)
    requires ValidTheme(th) && ValidPlan(th, p)
    requires mix.Length == Total && forall k :: 0 <= k < Total ==> mix[k] == 0.0
    modifies mix
    ensures mix[..] == LayeredPrefix(d, th, p, Total)
  {
    for i := 0 to Total
      invariant forall k :: 0 <= k < i ==> mix[k] == LayeredPrefix(d, th, p, Total)[k]
      invariant forall k :: i <= k < Total ==> mix[k] == 0.0
    {
      RenderSample(d, th, p, mix, i);
    }
  }

  /** Sample `i` of the zeroed buffer becomes its layered value; no other sample changes. */
  method RenderSample(d: Oscillators, th: Theme, p: TrackPlan, mix: array<real>, i: nat)
    requires ValidTheme(th) && ValidPlan(th, p)
    requires mix.Length == Total && i < Total && mix[i] == 0.0
    modifies mix
    ensures mix[i] == LayeredPrefix(d, th, p, Total)[i]
    ensures forall k :: 0 <= k < Total && k != i ==> mix[k] == old(mix[k])
  {
    mix[i] := AddLayers(d, th, p, i, mix[i]);
    LayeredPrefixAt(d, th, p, Total, i);
  }

  /** The loop body for sample `i`: `mix[i] += bass; mix[i] += lead;` and the voice unless lullaby. */
  method AddLayers(d: Oscillators, th: Theme, p: TrackPlan, i: nat, before: real) returns (sample: real)
    requires ValidTheme(th) && ValidPlan(th, p) && before == 0.0
    ensures sample == Layered(d, th, p, i)
  {
    var t := i as real / SampleRate as real;
    var rootMidi := RootAt(th, p.bpm, i);
    var step := StepAt(p, i);
    var leadMidi := rootMidi + th.scale[p.melody[step]];
    sample := before;
    sample := sample + Bass(d, th, rootMidi, t);
    sample := sample + Lead(d, th, leadMidi + (if th.id == "kpop" then 12 else 0), step, t);
    if th.id != "lullaby" {
      sample := sample + Hum(d, leadMidi, t);
    }
  }

  /** The seeding and the draws before the mix. */
  method ChooseTrack(th: Theme, index: nat) returns (rnd: Rng, p: TrackPlan)
    requires ValidTheme(th)
    ensures fresh(rnd) && rnd.Valid()
    ensures p == PlanTrack(th, index) && rnd.state == p.rng
  {
    rnd := new Rng.FromSeed(|th.id| * 131 + index * 7919);
    assert rnd.state == TrackSeed(th, index);
    var u := rnd.Draw();
    var bpm := InRange(u, th.bpmMin, th.bpmMax);
    assert bpm == TrackBpm(th, index);
    var melody := RandomWalk(rnd, |th.scale|, StepCount(bpm), TrackWalk);
    p := TrackPlan(bpm, melody[..], rnd.state);
  }

  /** `generateTrack(theme, index)`: the mastered samples and the tempo. */
  method GenerateTrack(d: Oscillators, th: Theme, index: nat) returns (samples: array<real>, bpm: nat)
    requires ValidTheme(th)
    ensures fresh(samples)
    ensures bpm == TrackBpm(th, index)
    ensures samples[..] == TrackSamples(d, th, index)
  {
    var rnd, p := ChooseTrack(th, index);
    samples := new real[Total](_ => 0.0);
    RenderLayers(d, th, p, samples);
    RenderDrums(d, TrackKit(th), p.bpm, Beats(p.bpm), samples, rnd);
    MasterInPlace(d, TrackMaster, samples);
    bpm := p.bpm;
  }

  /** One entry of `tracks.json`. */
  datatype TrackMeta = TrackMeta(id: string, theme: string, title: string, bpm: nat, file: string, license: string)

  const License: string := "Generated by ObgStudio script (original asset)"

  /** `${theme.id}-${String(i).padStart(2, '0')}`. */
  function TrackId(th: Theme, i: nat): string
  {
    th.id + "-" + Decimal.Pad2(i)
  }

  /** The file name of track `i`: its id and `.wav`. */
  function FileName(th: Theme, i: nat): string
  {
    TrackId(th, i) + ".wav"
  }

  /** The metadata entry of track `i` of a theme. */
  function MetaFor(th: Theme, i: nat): TrackMeta
    requires ValidTheme(th)
  {
    TrackMeta(TrackId(th, i), th.id, Ascii.Upper(th.id) + " Track " + Decimal.Pad2(i),
              TrackBpm(th, i), "/tracks/" + th.id + "/" + FileName(th, i), License)
  }

  /** The entries of tracks 1 .. n of a theme. */
  function ThemeEntries(th: Theme, n: nat): (r: seq<TrackMeta>)
    requires ValidTheme(th)
    ensures |r| == n
    ensures forall k :: 0 <= k < n ==> r[k] == MetaFor(th, k + 1)
  {
    if n == 0 then [] else ThemeEntries(th, n - 1) + [MetaFor(th, n)]
  }

  predicate AllValid(themes: seq<Theme>)
  {
    forall k :: 0 <= k < |themes| ==> ValidTheme(themes[k])
  }

  /** The metadata list: twenty entries per theme, theme by theme. */
  function Metadata(themes: seq<Theme>): (r: seq<TrackMeta>)
    requires AllValid(themes)
    ensures |r| == PerTheme * |themes|
  {
    if themes == [] then []
    else Metadata(themes[..|themes| - 1]) + ThemeEntries(themes[|themes| - 1], PerTheme)
  }

  /** Entry `k` of the list is track `k % 20 + 1` of theme `k / 20`. */
  lemma {:induction false} MetadataAt(themes: seq<Theme>, k: nat)
    requires AllValid(themes) && k < PerTheme * |themes|
    ensures k / PerTheme < |themes|
    ensures Metadata(themes)[k] == MetaFor(themes[k / PerTheme], k % PerTheme + 1)
    decreases |themes|
  {
    var n := |themes| - 1;
    var front := themes[..n];
    assert AllValid(front);
    var m := Metadata(themes);
    assert m == Metadata(front) + ThemeEntries(themes[n], PerTheme);
    if k < PerTheme * n {
      MetadataAt(front, k);
      assert m[k] == Metadata(front)[k];
      assert front[k / PerTheme] == themes[k / PerTheme];
    } else {
      Arith.DivModUnique(k, PerTheme, n, k - PerTheme * n);
      assert m[k] == ThemeEntries(themes[n], PerTheme)[k - PerTheme * n];
    }
  }

  /** A track id names its theme and its index: ids of indices below 100 never collide. */
  lemma TrackIdInjective(a: Theme, i: nat, b: Theme, j: nat)
    requires i < 100 && j < 100 && TrackId(a, i) == TrackId(b, j)
    ensures a.id == b.id && i == j
  {
    var x, y := TrackId(a, i), TrackId(b, j);
    assert |x| == |a.id| + 3 && |y| == |b.id| + 3;
    assert a.id == x[..|a.id|] == y[..|b.id|] == b.id;
    assert Decimal.Pad2(i) == x[|a.id| + 1..] == y[|b.id| + 1..] == Decimal.Pad2(j);
    Decimal.Pad2Injective(i, j);
  }

  /**
   * With distinct theme ids the list holds `20 * themes` entries with
   * distinct ids; each entry's file is `/tracks/<theme>/<id>.wav`.
   */
  lemma MetadataUnique(themes: seq<Theme>)
    requires AllValid(themes)
    requires forall p, q :: 0 <= p < q < |themes| ==> themes[p].id != themes[q].id
    ensures var m := Metadata(themes);
            && (forall k, l :: 0 <= k < l < |m| ==> m[k].id != m[l].id)
            && (forall k :: 0 <= k < |m| ==> m[k].file == "/tracks/" + m[k].theme + "/" + m[k].id + ".wav")
  {
    var m := Metadata(themes);
    forall k, l | 0 <= k < l < |m|
      ensures m[k].id != m[l].id
    {
      MetadataAt(themes, k);
      MetadataAt(themes, l);
      assert k == PerTheme * (k / PerTheme) + k % PerTheme;
      assert l == PerTheme * (l / PerTheme) + l % PerTheme;
      if m[k].id == m[l].id {
        TrackIdInjective(themes[k / PerTheme], k % PerTheme + 1, themes[l / PerTheme], l % PerTheme + 1);
      }
    }
    forall k | 0 <= k < |m|
      ensures m[k].file == "/tracks/" + m[k].theme + "/" + m[k].id + ".wav"
    {
      MetadataAt(themes, k);
    }
  }

  /** A file the script writes: its path under the working directory and its bytes. */
  datatype WrittenFile = WrittenFile(path: string, bytes: seq<Wav.Byte>)

  /** `writeWav(path.join(dir, name), samples)` for track `i` of a theme. */
  function TrackFile(d: Oscillators, th: Theme, i: nat): WrittenFile
    requires ValidTheme(th)
  {
    WrittenFile("public/tracks/" + th.id + "/" + FileName(th, i), Wav.WavBytes(TrackSamples(d, th, i), SampleRate))
  }

  /** The files of tracks 1 .. n of a theme. */
  function ThemeFiles(d: Oscillators, th: Theme, n: nat): (r: seq<WrittenFile>)
    requires ValidTheme(th)
    ensures |r| == n
  {
    if n == 0 then [] else ThemeFiles(d, th, n - 1) + [TrackFile(d, th, n)]
  }

  /** The WAV files, theme by theme. */
  function Files(d: Oscillators, themes: seq<Theme>): (r: seq<WrittenFile>)
    requires AllValid(themes)
    ensures |r| == PerTheme * |themes|
  {
    if themes == [] then []
    else Files(d, themes[..|themes| - 1]) + ThemeFiles(d, themes[|themes| - 1], PerTheme)
  }

  /**
   * The script's loop over the themes and their twenty tracks: each track
   * is generated, written as a WAV file, and its entry pushed onto the
   * metadata list.
   */
  method GenerateLibrary(d: Oscillators) returns (metadata: seq<TrackMeta>, files: seq<WrittenFile>)
    ensures AllValid(Themes)
    ensures metadata == Metadata(Themes)
    ensures files == Files(d, Themes)
  {
    ThemesWellFormed();
    metadata, files := GenerateThemes(d, Themes);
  }

  /** The loop over a list of themes. */
  method GenerateThemes(d: Oscillators, themes: seq<Theme>) returns (metadata: seq<TrackMeta>, files: seq<WrittenFile>)
    requires AllValid(themes)
    ensures metadata == Metadata(themes)
    ensures files == Files(d, themes)
  {
    metadata, files := [], [];
    for t := 0 to |themes|
      invariant AllValid(themes[..t])
      invariant metadata == Metadata(themes[..t])
      invariant files == Files(d, themes[..t])
    {
      var entries, written := GenerateTheme(d, themes[t]);
      LibrarySnoc(d, themes, t);
      metadata, files := metadata + entries, files + written;
    }
    assert themes[..|themes|] == themes;
  }

  /** The list and the files of the first `t + 1` themes extend those of the first `t` by theme `t`'s. */
  lemma LibrarySnoc(d: Oscillators, themes: seq<Theme>, t: nat)
    requires AllValid(themes) && t < |themes|
    ensures AllValid(themes[..t]) && AllValid(themes[..t + 1])
    ensures Metadata(themes[..t + 1]) == Metadata(themes[..t]) + ThemeEntries(themes[t], PerTheme)
    ensures Files(d, themes[..t + 1]) == Files(d, themes[..t]) + ThemeFiles(d, themes[t], PerTheme)
  {
    var front := themes[..t + 1];
    assert front[..t] == themes[..t] && front[t] == themes[t];
  }

  /** The twenty tracks of one theme. */
  method GenerateTheme(d: Oscillators, theme: Theme) returns (entries: seq<TrackMeta>, files: seq<WrittenFile>)
    requires ValidTheme(theme)
    ensures entries == ThemeEntries(theme, PerTheme)
    ensures files == ThemeFiles(d, theme, PerTheme)
  {
    entries, files := [], [];
    for i := 1 to PerTheme + 1
      invariant entries == ThemeEntries(theme, i - 1)
      invariant files == ThemeFiles(d, theme, i - 1)
    {
      var entry, file := GenerateEntry(d, theme, i);
      entries, files := entries + [entry], files + [file];
    }
  }

  /** The loop body for track `i`: generate it, write it, describe it. */
  method GenerateEntry(d: Oscillators, theme: Theme, i: nat) returns (entry: TrackMeta, file: WrittenFile)
    requires ValidTheme(theme)
    ensures entry == MetaFor(theme, i) && file == TrackFile(d, theme, i)
  {
    var samples, bpm := GenerateTrack(d, theme, i);
    var name := theme.id + "-" + Decimal.Pad2(i) + ".wav";
    var wav := Wav.BuildWav(samples, SampleRate);
    file := WrittenFile("public/tracks/" + theme.id + "/" + name, wav[..]);
    entry := TrackMeta(theme.id + "-" + Decimal.Pad2(i), theme.id, Ascii.Upper(theme.id) + " Track " + Decimal.Pad2(i),
                       bpm, "/tracks/" + theme.id + "/" + name, License);
  }
}
