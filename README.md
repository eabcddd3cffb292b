# ObgStudio song engine, in Dafny

This project models the deterministic song engine of ObgStudio and proves properties of the model.
The same engine is written out three times, with different constants:

- **The server fallback** (`renderProceduralSong` in `src/app/api/orchestrate/route.js`). It hashes the request with 32-bit FNV-1a and seeds a linear congruential generator. It draws a chord progression, a scale and a melodic random walk, and mixes bass, lead, a pseudo-voice and a drum schedule into a 45-second buffer. It soft-clips and fades the buffer and encodes it as a 16-bit mono WAV file.
- **The batch generator** (`scripts/generate_tracks.js`). It renders 20 eight-second tracks for each of five themes and builds their metadata list.
- **The vocal-asset generator** (`scripts/generate_vocal_assets.js`). It renders 20 ten-second tracks per theme with a formant "voice".

The shared parts are one parameterised engine:

- `Lcg`: the generator and its draws.
- `Melody`: the walk.
- `Grid`: the beat grid.
- `Drums`: the drum schedule and bursts.
- `Mastering`: the soft clip, gain and fades.
- `Wav`: the encoder.

`Orchestrate`, `GenerateTracks` and `VocalAssets` instantiate the engine with each file's constants. `Fnv` is the seed hash. `Text` covers the JSON extraction and the lyric and voice-line builders of the route. `MapRealTracks` is the round-robin assignment of recorded files to tracks (`scripts/map_real_tracks.js`).

How the source is represented:

- **Generator draws.** A draw is kept as the generator's 32-bit state `u`, and stands for `u / 2^32`. A comparison such as `rnd() < 0.2` becomes the integer test `u * 100 < 20 * 2^32`. `Math.floor(rnd() * n)` becomes `u * n div 2^32`. Both are exact in doubles, and lemmas tie them to the real quotient.
- **Signal functions.** `sin`, `exp`, `tanh` and `2^x` are fields of an `Oscillators` record, with a predicate stating their ranges. So no claim depends on a waveform's exact values.
- **In-place updates.** Loops that fill buffers in place are methods over arrays, proved against the function that specifies the whole buffer.

Three facts of the code are worth stating:

- **Shared seeds.** The scripts seed a track from the length of its theme id only. So `rock` and `jazz` (both four letters) draw the same sequence for the same index. `GenerateTracks.SeedsByIdLength` states this.
- **Drawing at the buffer's end.** The server draws snare and hat noise even for samples past the end of the buffer: `addAt`'s argument is evaluated before the bounds test. The scripts draw only inside the buffer. `Drums.Kit.drawsWhenDropped` carries the difference.
- **Seed zero.** The server remaps a zero seed to 1 (`seed || 1`). The scripts do not.

Further facts of the code that the model keeps:

- **Genre lookup.** The server looks the genre up in an object literal of five genres, with default roots for a missing entry. A genre named like a member every object inherits (`constructor`, `toString`, `__proto__` and nine more) finds a function or the prototype, which has no `map`: the lookup throws, and the request fails with status 500. `Orchestrate.RootTable`, `Orchestrate.ProceduralSong` and `Orchestrate.RenderProceduralSong` return no value exactly for those names.
- **Fades.** The server fades out over the last second and never fades in. The scripts fade in and out.
- **Phrase resets.** The server re-draws the melody every 16 steps; the scripts' walk never re-draws.
- **Lullaby tempo.** It is `[68, 88)` in the batch generator and `[66, 86)` in the vocal generator.

## Model

| member | source | states |
|---|---|---|
| Fnv.Utf16 | src/app/api/orchestrate/route.js:141-142 | `charCodeAt` sees UTF-16 code units: each character gives one or two units, and a string of BMP characters gives exactly its character codes |
| Fnv.HashFromAppend | src/app/api/orchestrate/route.js:141-144 | the hash loop over `a + b` is the loop over `b` continued from the state after `a` |
| Fnv.VectorShort | src/app/api/orchestrate/route.js:139-146 | the hash of "" is the offset basis 0x811c9dc5 and the hash of "a" is 0xe40c292c, the published FNV-1a vectors |
| Fnv.VectorFoobar | src/app/api/orchestrate/route.js:139-146 | the hash of "foobar" is 0xbf9cf968, the published FNV-1a vector |
| Fnv.HashStringToSeed | src/app/api/orchestrate/route.js:139-146 | the loop with `h ^= c; h = imul(h, 16777619)` returns the 32-bit FNV-1a hash, and the empty text yields 2166136261 |
| Lcg.ToUint32 | scripts/generate_tracks.js:21 | `x >>> 0` is the value congruent to `x` modulo 2^32 in [0, 2^32), and leaves values already there unchanged |
| Lcg.ToUnit | src/app/api/orchestrate/route.js:152 | `state / 4294967296` lies in [0, 1) |
| Lcg.Pick | src/app/api/orchestrate/route.js:223 | `Math.floor(rnd() * n)` is an index below `n` |
| Lcg.PickMeans | src/app/api/orchestrate/route.js:223 | the integer pick equals `floor(rnd() * n)` on the value the draw stands for |
| Lcg.BelowMeans | src/app/api/orchestrate/route.js:229-233 | the integer threshold test on the state is exactly `rnd() < p / 100` |
| Lcg.AboveMeans | src/app/api/orchestrate/route.js:217 | the integer threshold test on the state is exactly `rnd() > p / 100` |
| Lcg.InRange | scripts/generate_tracks.js:57 | `floor(lo + rnd() * (hi - lo))` lies in [lo, hi) |
| Lcg.InRangeMeans | scripts/generate_tracks.js:57 | the integer tempo draw equals `floor(lo + rnd() * (hi - lo))` in exact arithmetic |
| Lcg.InRangeOnto | scripts/generate_tracks.js:57 | every value of the range is drawn from some state, so no tempo of the range is unreachable |
| Lcg.Stream | src/app/api/orchestrate/route.js:148-154 | the first `k` draws from a state are the states after 1, ..., k steps |
| Lcg.AdvanceAdd | src/app/api/orchestrate/route.js:150-153 | `j` draws then `k` draws are `j + k` draws |
| Lcg.StreamSplit | src/app/api/orchestrate/route.js:150-153 | the draws of `j + k` calls are those of `j` calls followed by those of the next `k` |
| Lcg.NextFlipsLowBit | src/app/api/orchestrate/route.js:151 | each step of the generator flips the low bit of the state, so the generator has no fixed point |
| Lcg.Rng.FromSeed | scripts/generate_tracks.js:20-21 | `makeRng(seed)` / `rng(seed)` start at `seed >>> 0`, with no remapping of zero |
| Lcg.Rng.FromSeedOrOne | src/app/api/orchestrate/route.js:148-149 | `createRng(seed)` starts at `seed || 1`: a zero seed starts from 1 |
| Lcg.Rng.Draw | src/app/api/orchestrate/route.js:150-153 | one call sets `state := (1664525 * state + 1013904223) mod 2^32`, returns it and records it among the values drawn |
| Lcg.SameSeedSameDraws | src/app/api/orchestrate/route.js:148-154 | two generators from the same seed that have drawn equally often have drawn the same values and are in the same state |
| Dsp.Frac | src/app/api/orchestrate/route.js:258-259 | `x % 1` lies strictly between -1 and 1 and has the sign of `x` |
| Dsp.FracIsFractionalPart | src/app/api/orchestrate/route.js:258-259 | `x % 1` is `x` minus its integer part, truncated toward zero as JavaScript's `%` truncates |
| Grid.BeatSec | src/app/api/orchestrate/route.js:205 | a beat lasts a positive `60 / bpm` seconds |
| Grid.GridMeans | src/app/api/orchestrate/route.js:244-248 | the beat, bar, eighth-note step and beat index of sample `i` are the floors of `t / beatSec` scaled as the source scales them |
| Grid.LengthsIn | src/app/api/orchestrate/route.js:225 | `floor(seconds / (beatSec / 2))` is `seconds * bpm / 30` and `floor(seconds / beatSec)` is `seconds * bpm / 60` |
| Melody.Jump | src/app/api/orchestrate/route.js:229-233 | the move a draw selects lies in [-2, 2], and is +2 exactly when the draw is below the first threshold |
| Melody.Wrap | src/app/api/orchestrate/route.js:235-236 | the wrapped index is a valid scale index and leaves a valid index unchanged |
| Melody.WrapIndex | src/app/api/orchestrate/route.js:235-236 | the loop `while (idx < 0) idx += len; idx %= len` computes the wrap |
| Melody.StepOnce | src/app/api/orchestrate/route.js:229-237 | one step appends its new index to the melody, and that index is valid |
| Melody.WalkSteps | src/app/api/orchestrate/route.js:228-238 | `k` steps extend the melody by `k` valid indices, keep what was there, and end on the last index |
| Melody.Walk | src/app/api/orchestrate/route.js:226-238 | the melody has exactly `steps` entries, each in [0, scale.length) |
| Melody.StepOnceDraws | src/app/api/orchestrate/route.js:229-234 | a step draws once, and a second time when it starts a phrase |
| Melody.WalkStepsDraws | src/app/api/orchestrate/route.js:228-238 | `k` steps draw `k` values plus one per phrase start among them |
| Melody.ResetsCount | src/app/api/orchestrate/route.js:234 | among steps 0 .. n-1 there are `ceil(n / p)` phrase starts |
| Melody.WalkDraws | src/app/api/orchestrate/route.js:227-238 | the walk draws one starting degree, one value per step and one per phrase start |
| Melody.WalkStepsPrefix | src/app/api/orchestrate/route.js:228-238 | a shorter walk from the same walker is a prefix of a longer one |
| Melody.WalkStepsLast | src/app/api/orchestrate/route.js:228-238 | the last entry of a walk of `n + 1` steps is one step taken from the walk of `n` steps |
| Melody.WalkStepsAgree | src/app/api/orchestrate/route.js:228-238 | walks of different lengths from the same walker agree where both are defined |
| Melody.WrapClose | src/app/api/orchestrate/route.js:230-236 | moving at most two degrees and wrapping stays within two degrees round the scale |
| Melody.WalkNeighbours | src/app/api/orchestrate/route.js:229-237 | away from a phrase start, consecutive melody entries are at most two degrees apart round the scale |
| Melody.StepClose | src/app/api/orchestrate/route.js:229-237 | one step away from a phrase start moves at most two degrees round the scale |
| Melody.PhraseStartForgets | src/app/api/orchestrate/route.js:234 | at a phrase start the new index does not depend on the old one |
| Melody.RandomWalk | src/app/api/orchestrate/route.js:226-238 | the loop fills a fresh array with exactly the walk from the generator's state, and leaves the generator in the walk's final state |
| Melody.WalkStep | src/app/api/orchestrate/route.js:229-237 | one pass of the loop body is one step of the walk, with the draws it takes |
| Drums.AddSample | src/app/api/orchestrate/route.js:240-242 | adding one sample of a hit keeps the buffer's length |
| Drums.Burst | src/app/api/orchestrate/route.js:282-287 | a burst keeps the buffer's length |
| Drums.ApplyHits | src/app/api/orchestrate/route.js:279-305 | the drum pass keeps the buffer's length |
| Drums.BurstDraws | src/app/api/orchestrate/route.js:290-294 | a burst advances the generator by exactly the number of draws its samples take |
| Drums.BurstEffect | src/app/api/orchestrate/route.js:282-287 | a burst adds its voice's sample to exactly the indices it covers inside the buffer, leaves every other sample as it was, and drops writes past the end |
| Drums.ApplyHitsAppend | src/app/api/orchestrate/route.js:279-305 | hits apply one after another, so the schedule can be split anywhere |
| Drums.Schedule | src/app/api/orchestrate/route.js:279-305 | every hit belongs to a beat below `n`; snares fall only on beats 1 and 3 of a bar; each hit starts at its beat's start, or half a beat later for the second hat |
| Drums.BeatHitsSplit | src/app/api/orchestrate/route.js:280-304 | a beat's hits are its kick and snare followed by its two hats |
| Drums.CountVoiceAppend | src/app/api/orchestrate/route.js:279-305 | the hits of a voice in two schedules add up |
| Drums.BeatCounts | src/app/api/orchestrate/route.js:280-304 | each beat has one kick, a snare on beats 1 and 3 of the bar, and two hats |
| Drums.SnareOnOddBeats | src/app/api/orchestrate/route.js:289 | `b % 4 == 1 or b % 4 == 3` holds exactly on odd beats |
| Drums.ScheduleCounts | src/app/api/orchestrate/route.js:279-305 | over `n` beats there are `n` kicks, `n / 2` snares and `2n` hats |
| Drums.ScheduleCountStep | src/app/api/orchestrate/route.js:279-305 | beat `n - 1` adds its own hits to the counts of the first `n - 1` beats |
| Drums.ScheduleSnares | src/app/api/orchestrate/route.js:289-295 | a snare at a beat's start is in the schedule exactly when the beat is below `n` and is beat 1 or 3 of its bar |
| Drums.SnaresScheduled | src/app/api/orchestrate/route.js:289-295 | every beat below `n` that is beat 1 or 3 of its bar has a snare at its start in the schedule |
| Drums.BeatHitsShape | src/app/api/orchestrate/route.js:279-303 | the hits of beat `b` all belong to `b`; a snare only on beats 1 and 3; each starts at the beat's start or, for the second hat, half a beat later |
| Drums.ApplyHitsDraws | src/app/api/orchestrate/route.js:293-302 | when every noise sample draws, as in the server, the drum pass advances the generator by the schedule's noise draws |
| Drums.ScheduleDraws | src/app/api/orchestrate/route.js:279-305 | the server's drum pass over `n` beats draws `(n / 2) * snareLen + 2n * hatLen` values |
| Drums.BeatDraws | src/app/api/orchestrate/route.js:289-304 | one beat draws for its snare, if any, and its two hats |
| Drums.NoiseDrawsAppend | src/app/api/orchestrate/route.js:279-305 | the noise draws of two schedules add up |
| Drums.AddAt | src/app/api/orchestrate/route.js:240-242 | `addAt` adds the value at an index inside the buffer and changes nothing otherwise |
| Drums.AddBurst | src/app/api/orchestrate/route.js:282-287 | one burst loop updates the buffer and the generator as the burst function says |
| Drums.AddBurstSample | src/app/api/orchestrate/route.js:282-287 | one `addAt` of a burst adds its sample and advances the generator as the burst function's step says |
| Drums.BurstLast | src/app/api/orchestrate/route.js:282-287 | the last sample of an `n`-sample burst is the `(n - 1)`-sample burst plus the tone of sample `n - 1` |
| Drums.RenderDrums | src/app/api/orchestrate/route.js:279-305 | the drum loop applies the schedule of `beats` beats to the buffer and the generator |
| Drums.RenderBeat | src/app/api/orchestrate/route.js:280-304 | the loop body for beat `b` applies the beat's hits |
| Drums.RenderHats | src/app/api/orchestrate/route.js:297-304 | the hat loop applies the two hats of beat `b` |
| Drums.ApplyHitsSnoc | src/app/api/orchestrate/route.js:279-305 | one more hit is one more application |
| Mastering.FadeIn | scripts/generate_tracks.js:138 | the fade-in factor lies in [0, 1] |
| Mastering.FadeOut | scripts/generate_tracks.js:139 | the fade-out factor lies in (0, 1] |
| Mastering.MasterAll | scripts/generate_tracks.js:137-141 | the mastered buffer keeps its length, and every sample lies strictly inside (-gain, gain) |
| Mastering.MasteredBound | scripts/generate_tracks.js:140 | given that tanh lies in (-1, 1), a mastered sample lies strictly inside (-gain, gain) whatever the mix |
| Mastering.ShapedBound | scripts/generate_tracks.js:140 | soft clip, gain and two fade factors in [0, 1] keep a value inside (-gain, gain) |
| Mastering.FirstSampleSilent | scripts/generate_tracks.js:138 | with a fade-in, sample 0 is exactly 0 |
| Mastering.FadeInRises | scripts/generate_tracks.js:138 | the fade-in never falls, and is 1 once its window has passed |
| Mastering.FadeOutFalls | scripts/generate_tracks.js:139 | the fade-out never rises, and ends at `1 / window` on the last sample |
| Mastering.MasterInPlace | scripts/generate_tracks.js:137-141 | the mastering loop replaces the buffer by its mastered form |
| Wav.U16LE | src/app/api/orchestrate/route.js:173-176 | `writeUInt16LE` lays down two bytes that read back as the value |
| Wav.U32LE | src/app/api/orchestrate/route.js:169-172 | `writeUInt32LE` lays down four bytes that read back as the value |
| Wav.I16LE | src/app/api/orchestrate/route.js:194 | `writeInt16LE` lays down two bytes that read back, in two's complement, as the value |
| Wav.Ascii | src/app/api/orchestrate/route.js:165-168 | an ASCII tag is written one byte per character |
| Wav.Clamp | src/app/api/orchestrate/route.js:193 | `max(-1, min(1, x))` lies in [-1, 1], is `x` inside it and the nearer bound outside |
| Wav.Round | src/app/api/orchestrate/route.js:194 | `Math.round` is within half a unit of its argument, halves going up |
| Wav.Quantize | src/app/api/orchestrate/route.js:193-194 | a sample becomes the integer nearest `clamp(x) * 32767`, always in [-32767, 32767] |
| Wav.TagsAreAscii | src/app/api/orchestrate/route.js:178-189 | the four tags are the ASCII bytes of "RIFF", "WAVE", "fmt " and "data" |
| Wav.Header | src/app/api/orchestrate/route.js:178-190 | the header is exactly 44 bytes |
| Wav.RiffPart | src/app/api/orchestrate/route.js:178-180 | the RIFF descriptor is 12 bytes |
| Wav.FmtPart | src/app/api/orchestrate/route.js:181-188 | the `fmt ` sub-chunk is 24 bytes |
| Wav.FmtHead | src/app/api/orchestrate/route.js:181-184 | the `fmt ` tag, size, format and channel count take 12 bytes |
| Wav.FmtRates | src/app/api/orchestrate/route.js:185-188 | the rates and sample layout take 12 bytes |
| Wav.DataPart | src/app/api/orchestrate/route.js:189-190 | the `data` sub-chunk header is 8 bytes |
| Wav.Pcm | src/app/api/orchestrate/route.js:192-196 | the data chunk has two bytes per sample |
| Wav.WavBytes | src/app/api/orchestrate/route.js:156-199 | the file is exactly 44 + 2n bytes |
| Wav.HeaderFields | src/app/api/orchestrate/route.js:178-190 | read back from the file, the fields are: "RIFF" at 0 and 36 + 2n at 4; "WAVE" and "fmt " at 8 and 12; 16, 1, 1 at 16, 20, 22; sampleRate and 2·sampleRate at 24 and 28; 2 and 16 at 32 and 34; "data" at 36 and 2n at 40 |
| Wav.RiffFields | src/app/api/orchestrate/route.js:178-180 | the RIFF descriptor reads back as "RIFF", 36 + dataSize, "WAVE" |
| Wav.FmtFields | src/app/api/orchestrate/route.js:181-188 | the `fmt ` sub-chunk reads back as its eight fields |
| Wav.DataFields | src/app/api/orchestrate/route.js:189-190 | the `data` header reads back as "data", dataSize |
| Wav.PcmAt | src/app/api/orchestrate/route.js:192-196 | bytes 2k and 2k + 1 of the data hold sample k, quantised |
| Wav.SampleAt | src/app/api/orchestrate/route.js:192-196 | read back at offset 44 + 2k, the file holds sample k quantised, in [-32767, 32767] |
| Wav.Put | src/app/api/orchestrate/route.js:164-176 | a write at the moving offset lays down its bytes, advances the offset by their count and leaves the rest of the buffer alone |
| Wav.WriteRiff | src/app/api/orchestrate/route.js:178-180 | the three RIFF writes lay down the RIFF descriptor |
| Wav.WriteFmt | src/app/api/orchestrate/route.js:181-188 | the eight `fmt ` writes lay down the `fmt ` sub-chunk |
| Wav.WriteFmtHead | src/app/api/orchestrate/route.js:181-184 | the first four `fmt ` writes lay down tag, size, format and channels |
| Wav.WriteFmtRates | src/app/api/orchestrate/route.js:185-188 | the last four `fmt ` writes lay down the rates and layout |
| Wav.WriteDataHeader | src/app/api/orchestrate/route.js:189-190 | the two `data` writes lay down the data header |
| Wav.WriteHeader | src/app/api/orchestrate/route.js:178-190 | the header writes fill bytes 0..43 with the header and end at offset 44 |
| Wav.BuildWav | src/app/api/orchestrate/route.js:156-199 | the encoder fills a fresh buffer with exactly the WAV file of the samples |
| Decimal.DigitChar | scripts/generate_tracks.js:155 | a digit's character is a decimal digit of that value |
| Decimal.Digits | scripts/generate_tracks.js:155 | `String(n)` is a non-empty run of digits with no leading zero, one character exactly below 10 |
| Decimal.DigitsRoundTrip | scripts/generate_tracks.js:155 | reading the digits back gives `n` |
| Decimal.DigitsInjective | scripts/generate_tracks.js:155 | different numbers render differently |
| Decimal.IntToString | src/app/api/orchestrate/route.js:49 | an integer renders non-empty, with a leading '-' exactly when negative |
| Decimal.Pad2 | scripts/generate_tracks.js:155 | `padStart(2, '0')` gives two digits below 100 and the plain digits from 100 on |
| Decimal.Pad2Injective | scripts/generate_tracks.js:155 | padded indices below 100 never collide |
| Ascii.UpperChar | scripts/generate_tracks.js:161 | a lower-case letter becomes its capital; other characters stay |
| Ascii.LowerChar | scripts/map_real_tracks.js:15 | a capital becomes its lower-case letter; other characters stay |
| Ascii.Upper | scripts/generate_tracks.js:161 | `toUpperCase` keeps the length and maps each character |
| Ascii.Lower | scripts/map_real_tracks.js:15 | `toLowerCase` keeps the length and maps each character |
| Ascii.LowerUpper | scripts/map_real_tracks.js:15 | lower-casing forgets case, and upper-casing twice is upper-casing once |
| Text.FirstIndex | src/app/api/orchestrate/route.js:16 | the first occurrence of a character, or none when it does not occur |
| Text.LastIndex | src/app/api/orchestrate/route.js:16 | the last occurrence of a character, or none when it does not occur |
| Text.JsonSpanMeans | src/app/api/orchestrate/route.js:16-17 | there is no match exactly when no '{' precedes a '}'; a match runs from the first '{' to the last '}' |
| Text.ParseAiJson | src/app/api/orchestrate/route.js:15-19 | extraction succeeds exactly when the pattern matches, returns a text starting with '{' and ending with '}', and otherwise fails with "No JSON found in AI response" |
| Text.SpaceRun | src/app/api/orchestrate/route.js:40 | the leading white-space run is maximal |
| Text.TrailRun | src/app/api/orchestrate/route.js:40 | the trailing white-space run is maximal |
| Text.Letters | src/app/api/orchestrate/route.js:40 | the text without white space holds no white space |
| Text.CollapseEnds | src/app/api/orchestrate/route.js:40 | `replace(/\s+/g, " ")` keeps a text empty or not, and white space at either end becomes a space |
| Text.CollapseClean | src/app/api/orchestrate/route.js:40 | after collapsing, white space is single plain spaces |
| Text.CollapseLetters | src/app/api/orchestrate/route.js:40 | collapsing keeps every other character, in order |
| Text.NormalizeShape | src/app/api/orchestrate/route.js:40 | collapse-and-trim leaves single inner spaces, none at either end, and every other character in order |
| Text.TrimNormal | src/app/api/orchestrate/route.js:40 | trimming a collapsed text puts it in normal form |
| Text.TrimLetters | src/app/api/orchestrate/route.js:40 | trimming removes only white space |
| Text.CollapseFixes | src/app/api/orchestrate/route.js:40 | collapsing a collapsed text changes nothing |
| Text.NormalFixed | src/app/api/orchestrate/route.js:40 | normalising a normal text changes nothing |
| Text.NormalizeIdempotent | src/app/api/orchestrate/route.js:40 | normalising twice is normalising once |
| Text.Split | src/app/api/orchestrate/route.js:58 | splitting on newlines gives at least one line |
| Text.SplitJoin | src/app/api/orchestrate/route.js:58 | joining lines without newlines and splitting again gives the lines back |
| Text.SplitLine | src/app/api/orchestrate/route.js:58 | splitting a newline-free line, a newline and a rest gives that line followed by the rest's lines |
| Text.NormalNoNewline | src/app/api/orchestrate/route.js:45 | normal text holds no newline |
| Text.OrElse | src/app/api/orchestrate/route.js:45 | `value || fallback` is the value unless it is absent or empty |
| Text.SeedLine | src/app/api/orchestrate/route.js:45-46 | the seed line is at most 180 characters |
| Text.SeedLineMeans | src/app/api/orchestrate/route.js:45-46 | the seed line is the normalised input, or the default when the input is absent or empty, cut to its first 180 characters when longer; it keeps every non-space character and holds no newline |
| Text.DefaultLyricSeedNormal | src/app/api/orchestrate/route.js:45 | the default seed line is already normal |
| Text.LyricLines | src/app/api/orchestrate/route.js:47-58 | the sheet has ten lines, and line 1 is the verse line built from the seed line |
| Text.LyricHeaders | src/app/api/orchestrate/route.js:48-57 | the sheet holds [Verse], [Chorus], [Bridge] and [Outro] at lines 0, 3, 6 and 8 |
| Text.Sheet | src/app/api/orchestrate/route.js:47-58 | the sheet is the first fixed line, the verse line, then the other eight fixed lines in order |
| Text.FixedLinesShape | src/app/api/orchestrate/route.js:48-57 | the nine fixed lines hold the four section headers at positions 0, 2, 5 and 7, and none holds a newline |
| Text.VerseLineNoNewline | src/app/api/orchestrate/route.js:49 | the verse line holds no newline when the genre and tempo texts hold none |
| Text.LyricsLayout | src/app/api/orchestrate/route.js:44-59 | splitting the built lyrics on newlines gives back the ten lines: the headers sit where they are placed |
| Text.LinesNoNewline | src/app/api/orchestrate/route.js:47-58 | no line of the sheet holds a newline |
| Text.HeadersNoNewline | src/app/api/orchestrate/route.js:48-56 | the section headers hold no newline |
| Text.VoiceTextLayout | src/app/api/orchestrate/route.js:41 | the voice template starts with the genre text, holds the base line twice at fixed offsets, and ends with '.' |
| Text.VoiceLineMeans | src/app/api/orchestrate/route.js:40-41 | around the normal form of a line, the voice template opens with the genre text and carries, after the opening, that line's non-space characters in order, single inner spaces and no newline |
| Text.FallbackVoiceMeans | src/app/api/orchestrate/route.js:39-42 | the fallback voice line opens with the genre, or "Music" when it is absent or empty, and carries the prompt, or "We make a new sound tonight", in normal form |
| Orchestrate.EffectiveBpm | src/app/api/orchestrate/route.js:205 | `max(80, min(170, bpm || 120))`: 120 when absent or 0, the value inside [80, 170], the nearer bound outside |
| Orchestrate.VocalStepMeans | src/app/api/orchestrate/route.js:263 | the vocal step is `floor(beat * 1.5)` in exact arithmetic |
| Orchestrate.LengthsMean | src/app/api/orchestrate/route.js:225-278 | the melody length and the beat count are the source's floors in exact arithmetic |
| Orchestrate.RootTable | src/app/api/orchestrate/route.js:209-217 | the lookup fails exactly for the twelve names every object inherits from `Object.prototype`; any other genre gets four roots |
| Orchestrate.Progression | src/app/api/orchestrate/route.js:209-217 | a genre that is not an inherited name gets four roots: its own entry or the default |
| Orchestrate.UnknownGenreDefaults | src/app/api/orchestrate/route.js:216-217 | a genre that is neither one of the five nor an inherited name gets the default roots `[60, 57, 65, 62]` |
| Orchestrate.StartState | src/app/api/orchestrate/route.js:206-207 | the generator never starts at 0 |
| Orchestrate.LiftRoots | src/app/api/orchestrate/route.js:217 | root `k` is the genre's root `k`, lifted by 2 when draw `k + 1` exceeds 0.7 |
| Orchestrate.PlanSong | src/app/api/orchestrate/route.js:217-238 | the draws before the mix give four roots, a non-empty scale and valid melody degrees |
| Orchestrate.PlanChoices | src/app/api/orchestrate/route.js:217-238 | each root is lifted by 2 exactly when its draw exceeds 0.7; the scale is one of the three; the shift is below 4; the melody has `3 * bpm / 2` steps |
| Orchestrate.PlanDraws | src/app/api/orchestrate/route.js:217-238 | the choices take `7 + steps + ceil(steps / 16)` draws |
| Orchestrate.SongWalkDraws | src/app/api/orchestrate/route.js:227-238 | the song's walk draws once to start, once per step and once per phrase of 16 steps |
| Orchestrate.ScaleOffsets | src/app/api/orchestrate/route.js:218-222 | every offset of the three scales lies within an octave |
| Orchestrate.NotesInRange | src/app/api/orchestrate/route.js:249-264 | the root is one of the song's roots; the lead note is root plus a scale offset, within an octave above the root; the vocal note is root + 12 plus a scale offset, within the octave above that |
| Orchestrate.MelodyIndices | src/app/api/orchestrate/route.js:248-264 | before the end of the song the vocal step is below the melody length, and the lead's step is at most the length (below it for even tempos), so `step % stepsTotal` wraps at most the very last steps |
| Orchestrate.LayeredPrefix | src/app/api/orchestrate/route.js:244-273 | the layered prefix has `n` samples |
| Orchestrate.LayeredPrefixAt | src/app/api/orchestrate/route.js:244-273 | sample `k` of the layered prefix is bass, lead and vocal at `k` |
| Orchestrate.SongPlan | src/app/api/orchestrate/route.js:205-238 | the request has a plan exactly when its genre is not an inherited name, and the plan is a valid song |
| Orchestrate.Drummed | src/app/api/orchestrate/route.js:275-305 | the drummed mix has 45 s × 22050 samples |
| Orchestrate.ProceduralSong | src/app/api/orchestrate/route.js:201-310 | there is a song exactly when the genre is not an inherited name; it has 45 s × 22050 samples, each strictly inside (-0.65, 0.65) |
| Orchestrate.SongFromPlan | src/app/api/orchestrate/route.js:201-310 | once the request's plan is known, the song is the mastered, drummed mix of that plan |
| Orchestrate.RenderLayers | src/app/api/orchestrate/route.js:244-273 | the per-sample loop fills the zeroed buffer with the layered samples |
| Orchestrate.RenderSample | src/app/api/orchestrate/route.js:245-272 | one turn of the loop sets sample `i` of the zeroed buffer to its layered value and leaves the others alone |
| Orchestrate.AddLayers | src/app/api/orchestrate/route.js:250-272 | the three `+=` of the loop body add bass, lead and vocal |
| Orchestrate.ChooseSong | src/app/api/orchestrate/route.js:217-238 | the server's draws produce the planned song and leave the generator where the plan says |
| Orchestrate.StartSong | src/app/api/orchestrate/route.js:206-238 | hashing the seed text and seeding always happen; the roots lookup then fails exactly for an inherited genre name, and otherwise the draws give the request's plan |
| Orchestrate.MixSong | src/app/api/orchestrate/route.js:204-305 | layers then drums give the drummed mix |
| Orchestrate.RenderPlan | src/app/api/orchestrate/route.js:244-310 | the layers, the drums, the mastering and the encoding of a chosen song give the WAV bytes of its mastered, drummed mix |
| Orchestrate.RenderProceduralSong | src/app/api/orchestrate/route.js:201-312 | the fallback fails exactly for an inherited genre name, and otherwise renders exactly the WAV bytes of the procedural song |
| GenerateTracks.ThemesWellFormed | scripts/generate_tracks.js:8-14 | every theme is valid, its scale lies within an octave, and no two themes share an id |
| GenerateTracks.SeedsByIdLength | scripts/generate_tracks.js:55 | seeds depend only on the id's length: equal lengths give equal seeds, different short lengths different ones |
| GenerateTracks.SeedsDistinct | scripts/generate_tracks.js:55 | the twenty tracks of a theme have twenty different seeds |
| GenerateTracks.TrackBpm | scripts/generate_tracks.js:57 | the tempo lies in [min, max) |
| GenerateTracks.CountsMean | scripts/generate_tracks.js:61-105 | the step and beat counts are the source's floors in exact arithmetic |
| GenerateTracks.PlanTrack | scripts/generate_tracks.js:55-73 | the draws before the mix give a valid plan |
| GenerateTracks.PlanDraws | scripts/generate_tracks.js:55-73 | the tempo lies in [min, max); the melody has `stepCount > 0` entries, each a valid scale index; the plan takes `2 + stepCount` draws |
| GenerateTracks.NoResets | scripts/generate_tracks.js:64-73 | the scripts' walk never re-draws the degree |
| GenerateTracks.NotesInRange | scripts/generate_tracks.js:78-87 | the step is a valid melody index; the root is one of the theme's; the lead note is root plus a scale offset within an octave, shifted by 12 only for kpop |
| GenerateTracks.LayeredPrefix | scripts/generate_tracks.js:75-100 | the layered prefix has `n` samples |
| GenerateTracks.LayeredPrefixAt | scripts/generate_tracks.js:75-100 | sample `k` of the layered prefix is the layered sample at `k` |
| GenerateTracks.TrackKit | scripts/generate_tracks.js:102-104 | kick, snare and hat lengths are 3307, 2646 and 551 samples, and noise is drawn only inside the buffer |
| GenerateTracks.Drummed | scripts/generate_tracks.js:102-135 | the drummed mix has 8 s × 22050 samples |
| GenerateTracks.TrackSamples | scripts/generate_tracks.js:54-144 | a track has 8 s × 22050 samples, each strictly inside (-0.68, 0.68), and its first sample is silent |
| GenerateTracks.DrumsOfTrack | scripts/generate_tracks.js:107-135 | a track has one kick per beat, a snare on every other beat and two hats per beat |
| GenerateTracks.RenderLayers | scripts/generate_tracks.js:75-100 | the per-sample loop fills the zeroed buffer with the layered samples |
| GenerateTracks.RenderSample | scripts/generate_tracks.js:76-99 | one turn of the loop sets sample `i` of the zeroed buffer to its layered value and leaves the others alone |
| GenerateTracks.AddLayers | scripts/generate_tracks.js:76-99 | the loop body adds bass, lead and, except in the lullaby, the voice |
| GenerateTracks.ChooseTrack | scripts/generate_tracks.js:55-73 | seeding and the walk's loop give the track's plan |
| GenerateTracks.GenerateTrack | scripts/generate_tracks.js:54-144 | `generateTrack` returns the track's samples and its tempo |
| GenerateTracks.ThemeEntries | scripts/generate_tracks.js:153-166 | a theme's entries are those of tracks 1 .. n in order |
| GenerateTracks.Metadata | scripts/generate_tracks.js:149-167 | the list holds 20 entries per theme |
| GenerateTracks.MetadataAt | scripts/generate_tracks.js:149-167 | entry `k` is track `k % 20 + 1` of theme `k / 20` |
| GenerateTracks.TrackIdInjective | scripts/generate_tracks.js:159 | an id names its theme and its index |
| GenerateTracks.MetadataUnique | scripts/generate_tracks.js:150-167 | with distinct theme ids, entry ids are unique and each file is `/tracks/<theme>/<id>.wav` |
| GenerateTracks.ThemeFiles | scripts/generate_tracks.js:153-157 | a theme writes `n` files |
| GenerateTracks.Files | scripts/generate_tracks.js:150-157 | the script writes 20 files per theme |
| GenerateTracks.GenerateLibrary | scripts/generate_tracks.js:146-167 | the script's loop over its five themes builds the metadata list and writes the files |
| GenerateTracks.GenerateThemes | scripts/generate_tracks.js:150-167 | the loop over themes builds the list and the files theme by theme |
| GenerateTracks.LibrarySnoc | scripts/generate_tracks.js:150-167 | one more theme appends its twenty entries and files |
| GenerateTracks.GenerateTheme | scripts/generate_tracks.js:153-166 | the inner loop describes and writes tracks 1 .. 20 |
| GenerateTracks.GenerateEntry | scripts/generate_tracks.js:154-165 | the loop body generates, writes and describes track `i` |
| VocalAssets.ThemesWellFormed | scripts/generate_vocal_assets.js:8-14 | every theme is valid with three formants, its scale lies within an octave, and no two themes share an id |
| VocalAssets.SameTrackSameDraws | scripts/generate_vocal_assets.js:17-43 | generators seeded for the same track draw the same values, the stream from its seed |
| VocalAssets.SeedsDistinct | scripts/generate_vocal_assets.js:43 | the twenty tracks of a theme have twenty different seeds |
| VocalAssets.TrackBpm | scripts/generate_vocal_assets.js:44 | the tempo lies in [min, max) |
| VocalAssets.CountsMean | scripts/generate_vocal_assets.js:48-92 | the step and beat counts are the source's floors in exact arithmetic |
| VocalAssets.PhraseStepMeans | scripts/generate_vocal_assets.js:75 | the phrase step is `floor(b * 1.25)` in exact arithmetic |
| VocalAssets.PlanTrack | scripts/generate_vocal_assets.js:43-57 | the draws before the mix give a valid plan |
| VocalAssets.PlanDraws | scripts/generate_vocal_assets.js:43-57 | the tempo lies in [min, max); the melody has `steps > 0` entries, each a valid scale index; the plan takes `2 + steps` draws |
| VocalAssets.NoResets | scripts/generate_vocal_assets.js:51-57 | the walk never re-draws the degree |
| VocalAssets.NotesInRange | scripts/generate_vocal_assets.js:62-76 | both steps are valid melody indices; the lead note is root plus a scale offset (12 more for kpop); the sung note is root + 7 plus a scale offset, in [root + 7, root + 19] |
| VocalAssets.LayeredPrefix | scripts/generate_vocal_assets.js:59-86 | the layered prefix has `n` samples |
| VocalAssets.LayeredPrefixAt | scripts/generate_vocal_assets.js:59-86 | sample `k` of the layered prefix is the layered sample at `k` |
| VocalAssets.TrackKit | scripts/generate_vocal_assets.js:89-91 | kick, snare and hat lengths are 3307, 2646 and 551 samples, and noise is drawn only inside the buffer |
| VocalAssets.Drummed | scripts/generate_vocal_assets.js:88-112 | the drummed mix has 10 s × 22050 samples |
| VocalAssets.TrackSamples | scripts/generate_vocal_assets.js:42-121 | a track has 10 s × 22050 samples, each strictly inside (-0.72, 0.72), and its first sample is silent |
| VocalAssets.DrumsOfTrack | scripts/generate_vocal_assets.js:93-112 | a track has one kick per beat, a snare on every other beat and two hats per beat |
| VocalAssets.RenderLayers | scripts/generate_vocal_assets.js:59-86 | the per-sample loop fills the zeroed buffer with the layered samples |
| VocalAssets.RenderSample | scripts/generate_vocal_assets.js:72-85 | one turn of the loop sets sample `i` of the zeroed buffer to its layered value and leaves the others alone |
| VocalAssets.AddLayers | scripts/generate_vocal_assets.js:72-85 | the loop body adds backing and voice |
| VocalAssets.ChooseTrack | scripts/generate_vocal_assets.js:43-57 | seeding and the walk's loop give the track's plan |
| VocalAssets.GenThemeTrack | scripts/generate_vocal_assets.js:42-121 | `genThemeTrack` returns the track's samples and its tempo |
| VocalAssets.FileNameInjective | scripts/generate_vocal_assets.js:131 | a file name names its theme and its index |
| VocalAssets.ThemeFiles | scripts/generate_vocal_assets.js:129-133 | a theme writes `n` files |
| VocalAssets.Files | scripts/generate_vocal_assets.js:126-134 | the script writes 20 files per theme |
| VocalAssets.ThemePathAt | scripts/generate_vocal_assets.js:129-132 | the `k`-th path of a theme is that of its track `k + 1` |
| VocalAssets.AssetPathAt | scripts/generate_vocal_assets.js:126-134 | path `k` is path `k % 20` of theme `k / 20` |
| VocalAssets.PathsUnique | scripts/generate_vocal_assets.js:126-134 | with distinct theme ids, no two paths written coincide |
| VocalAssets.PathInjective | scripts/generate_vocal_assets.js:127-132 | a path names its theme and its index |
| VocalAssets.GenerateAssets | scripts/generate_vocal_assets.js:123-134 | the script writes the 100 files of its five themes, no path twice |
| VocalAssets.GenerateDistinct | scripts/generate_vocal_assets.js:126-134 | the loop over themes with distinct ids writes no path twice |
| VocalAssets.FilesUnique | scripts/generate_vocal_assets.js:126-134 | files laid out at the paths of distinct themes have distinct paths |
| VocalAssets.GenerateThemes | scripts/generate_vocal_assets.js:126-134 | the loop over themes writes the files theme by theme |
| VocalAssets.FilesSnoc | scripts/generate_vocal_assets.js:126-134 | one more theme appends its twenty files and paths |
| VocalAssets.GenerateTheme | scripts/generate_vocal_assets.js:129-133 | the inner loop writes tracks 1 .. 20 |
| VocalAssets.GenerateFile | scripts/generate_vocal_assets.js:130-132 | the loop body writes track `i` at its path |
| MapRealTracks.Distinct | scripts/map_real_tracks.js:26 | the de-duplicated list is no longer than the list |
| MapRealTracks.DistinctMeans | scripts/map_real_tracks.js:26 | `Array.from(new Set(xs))` holds every element of `xs`, nothing else, each once |
| MapRealTracks.DistinctPrefix | scripts/map_real_tracks.js:48 | adding tags never reorders or drops those already kept |
| MapRealTracks.DistinctOfDistinct | scripts/map_real_tracks.js:48 | a list without repeats is its own de-duplicated list |
| MapRealTracks.LastDot | scripts/map_real_tracks.js:15 | the last '.' of a name, or none |
| MapRealTracks.ExtnameMeans | scripts/map_real_tracks.js:15 | `path.extname` is non-empty exactly when a '.' follows the first character (and the name is not ".."); it is then the name's tail from its last '.' |
| MapRealTracks.Kept | scripts/map_real_tracks.js:11-16 | the filter keeps at most the listing |
| MapRealTracks.KeptMeans | scripts/map_real_tracks.js:11-16 | a name is kept exactly when an accepted entry of the listing carries it |
| MapRealTracks.KeptInOrder | scripts/map_real_tracks.js:11-16 | kept names come in listing order |
| MapRealTracks.ListAudioFilesMeans | scripts/map_real_tracks.js:9-16 | a missing directory gives no files; otherwise a name is listed exactly when it is a regular file whose lower-cased extension is .mp3, .wav, .m4a, .ogg or .aac |
| MapRealTracks.AudioPools | scripts/map_real_tracks.js:28-31 | every theme, and only those, has its directory's audio files as pool |
| MapRealTracks.BuildPools | scripts/map_real_tracks.js:28-31 | the pool loop builds those pools |
| MapRealTracks.ThemeList | scripts/map_real_tracks.js:26 | `tracks.map(t => t.theme)` |
| MapRealTracks.UpdatedMeans | scripts/map_real_tracks.js:46-48 | an updated track keeps its theme, gets file `/tracks_real_assets/<theme>/<file>` and vocal true; its tags are its old tags with "vocal" and "real", each once, old tags first |
| MapRealTracks.Run | scripts/map_real_tracks.js:36-50 | the loop visits every track once |
| MapRealTracks.CountTheme | scripts/map_real_tracks.js:43 | a theme occurs at most once per track |
| MapRealTracks.CountUnpooled | scripts/map_real_tracks.js:39-40 | the skipped tracks are at most all tracks |
| MapRealTracks.RunCounts | scripts/map_real_tracks.js:33-50 | `updated + skipped` is the number of tracks; `skipped` counts the tracks with an empty pool; a theme's counter is its number of tracks when its pool is non-empty and absent otherwise |
| MapRealTracks.RunPrefix | scripts/map_real_tracks.js:36-50 | the loop's first `j` turns see only the first `j` tracks |
| MapRealTracks.SkippedUnchanged | scripts/map_real_tracks.js:38-42 | a track whose theme's pool is empty is left unchanged |
| MapRealTracks.RoundRobin | scripts/map_real_tracks.js:43-48 | the `n`-th track of a theme with recordings gets `pool[(n - 1) % pool.length]` |
| MapRealTracks.LastTaken | scripts/map_real_tracks.js:43-48 | a track appended after others takes the recording its theme's count selects |
| MapRealTracks.SpreadsRecordings | scripts/map_real_tracks.js:43-46 | two tracks of a theme fewer than `pool.length` turns apart get different files, when the pool has no repeats |
| MapRealTracks.TurnsDiffer | scripts/map_real_tracks.js:44-45 | fewer than `pool.length` turns apart, a pool without repeats yields different names |
| MapRealTracks.FileOf | scripts/map_real_tracks.js:43-46 | a track with recordings gets file `/tracks_real_assets/<theme>/` plus its turn's name |
| MapRealTracks.CountGrows | scripts/map_real_tracks.js:43 | a later track of the same theme has a larger counter |
| MapRealTracks.CountMonotone | scripts/map_real_tracks.js:43 | counters never fall |
| MapRealTracks.MapTracks | scripts/map_real_tracks.js:33-50 | the loop updates the tracks in place as the run says, and returns its tallies |
| MapRealTracks.MapTrack | scripts/map_real_tracks.js:37-49 | one pass of the loop body is one turn of the run |
| MapRealTracks.Mark | scripts/map_real_tracks.js:46-48 | the three assignments give the updated track |
| MapRealTracks.MapRealTracks | scripts/map_real_tracks.js:20-62 | a missing track list fails with its message; otherwise the tracks are mapped in place and the report gives the distinct themes, each theme's pool size and the tallies |
| MapRealTracks.PoolSizes | scripts/map_real_tracks.js:60-62 | the report gives each theme's pool size |
| MapRealTracks.PoolsCover | scripts/map_real_tracks.js:26-38 | every track's theme has a pool, its directory's audio files, so the `|| []` fallback never applies |

## Left out

- Network and environment. The Gemini and Replicate clients, `POST`, `JSON.parse`, environment variables and the base64 text of the data URL are left out. The model stops at the WAV bytes.
- File system. `process.cwd`, `existsSync`, `mkdirSync`, `readdirSync`/`statSync` and the file writes are replaced by values: a map from theme to directory listing, and a list of (path, bytes) pairs. The `tracks.json` and `LICENSE.md` writes and all console output, including the mapping report's text, are left out.
- The `localeCompare` sort in `listAudioFiles` is a locale-dependent foreign call. The model keeps the listing's order.
- Floating point. Samples are reals, not `Float32Array` or double values. `sin`, `exp`, `tanh` and `2^x` are opaque fields with stated ranges, so no exact waveform value is claimed. Step and beat counts and sample positions are computed in exact arithmetic, where the doubles can fall one below an exact boundary. So the doubles can differ by one from Grid.Bar, Grid.Step, Grid.BeatIndex, Drums.BeatStart, Drums.HatStart, Orchestrate.VocalStep and VocalAssets.PhraseStep. For example, at 100 bpm beat 3 starts at sample 39690 in the model, while `Math.floor(3 * 0.6 * 22050)` is 39689 in doubles.
- NaN and infinities do not exist in the model.
- Mastering.TanhBound: the strict bound rests on `|tanh(x)| < 1`, which holds for the real function. JavaScript's `Math.tanh` returns exactly ±1 once `|x|` exceeds about 19, so for the program the stated ranges `(-gain, gain)` of the mastered samples are only `[-gain, gain]`.
- Dsp.Frac: `x % 1` is computed in exact arithmetic.
- Orchestrate.EffectiveBpm: a tempo that is not an integer is not modelled; `bpm` is an integer or absent.
- Text.Show, Text.ShowInt: only an absent value renders as "undefined". Other non-string values of the JSON response are not modelled.
- Fnv.Utf16: JavaScript's `.length` counts UTF-16 code units, while the text builders count characters. `Text.SeedLine` cuts at 180 characters, not code units.
- Ascii.Upper, Ascii.Lower: only ASCII letters change case.
- MapRealTracks.PlainName: directory entries never contain '/', and an entry that would is not audio.
- MapRealTracks.MapTracks: a track is a value in an array slot. Track objects shared between slots (aliasing) and JSON fields other than theme, file, vocal and tags are not modelled.
- MapRealTracks.MapTracks: every track has a string `theme`. In the program a track without one makes `path.join` throw, and the script stops.
- MapRealTracks.AudioPools: a theme named like an `Object.prototype` key (`__proto__`, `constructor`) is an ordinary key here.
- Text.ParseAiJson: the model returns the matched text; `JSON.parse` of it is left out.
- The mapping loop's `continue` and the `poolByTheme[theme] || []` fallback are modelled by `PoolOf`. `PoolsCover` shows the fallback is never needed.
