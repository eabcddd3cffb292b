/**
 * The track-to-recording mapper (`map_real_tracks.js`): it reads the track
 * list, lists the audio files under each theme's directory, and gives the
 * tracks of every theme the theme's recordings in turn (round robin),
 * marking them as vocal and real; tracks of a theme without recordings are
 * skipped and left as they were.
 */
module MapRealTracks {
  import opened Wrappers
  import Ascii
  import Arith

  /** The fields of a track entry the mapper reads or writes. */
  datatype Track = Track(theme: string, file: Option<string>, vocal: Option<bool>, tags: Option<seq<string>>)

  /** An entry of a directory listing: its name and whether it is a regular file. */
  datatype DirEntry = DirEntry(name: string, isFile: bool)

  predicate NoDuplicates<T(==)>(xs: seq<T>)
  {
    forall i, j :: 0 <= i < j < |xs| ==> xs[i] != xs[j]
  }

  /** `Array.from(new Set(xs))`: the elements of `xs`, each once, at its first occurrence. */
  function Distinct<T(==)>(xs: seq<T>): (r: seq<T>)
    ensures |r| <= |xs|
  {
    if xs == [] then []
    else
      var front := Distinct(xs[..|xs| - 1]);
      var x := xs[|xs| - 1];
      if x in front then front else front + [x]
  }

  /** The distinct list holds every element of the list, and nothing else, once. */
  lemma {:induction false} DistinctMeans<T(!new)>(xs: seq<T>)
    ensures NoDuplicates(Distinct(xs))
    ensures forall x :: x in Distinct(xs) <==> x in xs
    decreases |xs|
  {
    if xs != [] {
      var front, x := xs[..|xs| - 1], xs[|xs| - 1];
      DistinctMeans(front);
      assert xs == front + [x];
      assert forall y :: y in xs <==> y in front || y == x;
    }
  }

  /** Adding elements never reorders or drops those already kept. */
  lemma {:induction false} DistinctPrefix<T>(xs: seq<T>, ys: seq<T>)
    ensures Distinct(xs) <= Distinct(xs + ys)
    decreases |ys|
  {
    if ys == [] {
      assert xs + ys == xs;
    } else {
      var zs := xs + ys[..|ys| - 1];
      DistinctPrefix(xs, ys[..|ys| - 1]);
      assert (xs + ys)[..|xs + ys| - 1] == zs;
    }
  }

  /** A list without duplicates is its own distinct list. */
  lemma {:induction false} DistinctOfDistinct<T>(xs: seq<T>)
    requires NoDuplicates(xs)
    ensures Distinct(xs) == xs
    decreases |xs|
  {
    if xs != [] {
      var front := xs[..|xs| - 1];
      DistinctOfDistinct(front);
      assert xs[|xs| - 1] !in front;
      assert front + [xs[|xs| - 1]] == xs;
    }
  }

  /** The index of the last `.` of a name, if it has one. */
  function LastDot(s: string): (r: Option<nat>)
    ensures r.None? ==> forall k :: 0 <= k < |s| ==> s[k] != '.'
    ensures r.Some? ==> r.value < |s| && s[r.value] == '.'
    ensures r.Some? ==> forall k :: r.value < k < |s| ==> s[k] != '.'
  {
    if s == [] then None
    else if s[|s| - 1] == '.' then Some(|s| - 1)
    else LastDot(s[..|s| - 1])
  }

  /** A name from a directory listing: it has no separator. */
  predicate PlainName(name: string)
  {
    forall k :: 0 <= k < |name| ==> name[k] != '/'
  }

  /**
   * `path.extname(name)` for a name without a separator: from the last dot
   * to the end, or nothing when there is no dot, when the only dot leads
   * the name, or for `..`.
   */
  function Extname(name: string): string
    requires PlainName(name)
  {
    match LastDot(name)
    case None => ""
    case Some(i) => if i == 0 || name == ".." then "" else name[i..]
  }

  /**
   * The extension is non-empty exactly when a dot follows the first
   * character and the name is not `..`; it is then the dot and the
   * dot-free rest of the name.
   */
  lemma ExtnameMeans(name: string)
    requires PlainName(name)
    ensures Extname(name) != "" <==> name != ".." && exists i :: 0 < i < |name| && name[i] == '.'
    ensures var e := Extname(name);
            e != "" ==> && e[0] == '.'
                        && (forall k :: 0 < k < |e| ==> e[k] != '.')
                        && |e| < |name|
                        && name == name[..|name| - |e|] + e
  {
    match LastDot(name)
    case None =>
    case Some(i) =>
      if i == 0 {
        assert forall k :: 0 < k < |name| ==> name[k] != '.';
      }
  }

  /** `AUDIO_EXT`. */
  const AudioExt: set<string> := {".mp3", ".wav", ".m4a", ".ogg", ".aac"}

  /**
   * A regular file whose extension, lower-cased, is an audio extension (a
   * name from a listing never holds a separator).
   */
  predicate IsAudio(e: DirEntry)
  {
    e.isFile && PlainName(e.name) && Ascii.Lower(Extname(e.name)) in AudioExt
  }

  /** The names of the entries of a listing that `keep` accepts, in listing order. */
  function Kept(es: seq<DirEntry>, keep: DirEntry -> bool): (r: seq<string>)
    ensures |r| <= |es|
  {
    if es == [] then []
    else
      var front := Kept(es[..|es| - 1], keep);
      var e := es[|es| - 1];
      if keep(e) then front + [e.name] else front
  }

  /** A name is kept exactly when some accepted entry of the listing carries it. */
  lemma {:induction false} KeptMeans(es: seq<DirEntry>, keep: DirEntry -> bool, x: string)
    ensures x in Kept(es, keep) <==> exists k :: 0 <= k < |es| && es[k].name == x && keep(es[k])
    decreases |es|
  {
    if es != [] {
      var front, e := es[..|es| - 1], es[|es| - 1];
      var names := Kept(es, keep);
      assert names == if keep(e) then Kept(front, keep) + [e.name] else Kept(front, keep);
      KeptMeans(front, keep, x);
      if x in names {
        if x in Kept(front, keep) {
          var k :| 0 <= k < |front| && front[k].name == x && keep(front[k]);
          assert es[k] == front[k];
        } else {
          assert e.name == x && keep(e);
        }
      }
      if exists k :: 0 <= k < |es| && es[k].name == x && keep(es[k]) {
        var k :| 0 <= k < |es| && es[k].name == x && keep(es[k]);
        if k < |front| {
          assert front[k] == es[k];
        }
      }
    }
  }

  /** Kept names appear in listing order: the kept list is the listing's names with some dropped. */
  lemma {:induction false} KeptInOrder(es: seq<DirEntry>, keep: DirEntry -> bool, i: nat)
    requires i <= |es|
    ensures Kept(es[..i], keep) <= Kept(es, keep)
    decreases |es| - i
  {
    if i < |es| {
      KeptInOrder(es, keep, i + 1);
      assert es[..i + 1][..i] == es[..i];
    } else {
      assert es[..i] == es;
    }
  }

  /** The listing of a theme's directory, or `None` when the directory does not exist. */
  function DirOf(dirs: map<string, seq<DirEntry>>, theme: string): Option<seq<DirEntry>>
  {
    if theme in dirs then Some(dirs[theme]) else None
  }

  /** `listAudioFiles(dir)`: nothing for a missing directory, otherwise its audio files. */
  function ListAudioFiles(dir: Option<seq<DirEntry>>): seq<string>
  {
    match dir
    case None => []
    case Some(es) => Kept(es, IsAudio)
  }

  /**
   * A missing directory has no audio files; otherwise a name is listed
   * exactly when it is a regular file of the directory with an audio
   * extension in any case.
   */
  lemma ListAudioFilesMeans(dir: Option<seq<DirEntry>>, x: string)
    ensures dir.None? ==> ListAudioFiles(dir) == []
    ensures dir.Some? ==>
              (x in ListAudioFiles(dir) <==>
               exists k :: 0 <= k < |dir.value| && dir.value[k].name == x && dir.value[k].isFile
                           && PlainName(x) && Ascii.Lower(Extname(x)) in AudioExt)
  {
    if dir.Some? {
      KeptMeans(dir.value, IsAudio, x);
    }
  }

  /** `poolByTheme`: each theme's audio files. */
  function AudioPools(themes: seq<string>, dirs: map<string, seq<DirEntry>>): (r: map<string, seq<string>>)
    ensures forall th :: th in r <==> th in themes
    ensures forall th :: th in r ==> r[th] == ListAudioFiles(DirOf(dirs, th))
  {
    if themes == [] then map[]
    else
      var th := themes[|themes| - 1];
      assert forall t :: t in themes <==> t in themes[..|themes| - 1] || t == th by {
        assert themes == themes[..|themes| - 1] + [th];
      }
      AudioPools(themes[..|themes| - 1], dirs)[th := ListAudioFiles(DirOf(dirs, th))]
  }

  /** The pool loop: one directory listing per theme. */
  method BuildPools(themes: seq<string>, dirs: map<string, seq<DirEntry>>) returns (pools: map<string, seq<string>>)
    ensures pools == AudioPools(themes, dirs)
  {
    pools := map[];
    for i := 0 to |themes|
      invariant pools == AudioPools(themes[..i], dirs)
    {
      assert themes[..i + 1][..i] == themes[..i];
      pools := pools[themes[i] := ListAudioFiles(DirOf(dirs, themes[i]))];
    }
    assert themes[..|themes|] == themes;
  }

  /** The theme of every track, in order. */
  function ThemeList(ts: seq<Track>): (r: seq<string>)
    ensures |r| == |ts|
    ensures forall k :: 0 <= k < |ts| ==> r[k] == ts[k].theme
  {
    if ts == [] then [] else ThemeList(ts[..|ts| - 1]) + [ts[|ts| - 1].theme]
  }

  /** `poolByTheme[theme] || []`. */
  function PoolOf(pools: map<string, seq<string>>, theme: string): seq<string>
  {
    if theme in pools then pools[theme] else []
  }

  /** `counters[theme] || 0`. */
  function Counter(counters: map<string, nat>, theme: string): nat
  {
    if theme in counters then counters[theme] else 0
  }

  const AssetRoot: string := "/tracks_real_assets/"

  /**
   * A track given recording `fileName` of its theme: its file, `vocal`
   * set, and its tags extended by "vocal" and "real" without repetition.
   */
  function Updated(t: Track, fileName: string): Track
  {
    var given := if t.tags.Some? then t.tags.value else [];
    t.(file := Some(AssetRoot + t.theme + "/" + fileName), vocal := Some(true), tags := Some(Distinct(given + ["vocal", "real"])))
  }

  /**
   * An updated track keeps its theme, points at the recording under the
   * theme's asset directory, is vocal, and its tags are the old ones (in
   * their order, when they were distinct) plus "vocal" and "real", each once.
   */
  lemma UpdatedMeans(t: Track, fileName: string)
    ensures var r := Updated(t, fileName);
            && r.theme == t.theme
            && r.file == Some(AssetRoot + t.theme + "/" + fileName)
            && r.vocal == Some(true)
            && r.tags.Some? && "vocal" in r.tags.value && "real" in r.tags.value
            && NoDuplicates(r.tags.value)
            && (forall x :: x in r.tags.value <==> x == "vocal" || x == "real" || (t.tags.Some? && x in t.tags.value))
            && (t.tags.Some? && NoDuplicates(t.tags.value) ==> t.tags.value <= r.tags.value)
  {
    var given := if t.tags.Some? then t.tags.value else [];
    DistinctMeans(given + ["vocal", "real"]);
    DistinctPrefix(given, ["vocal", "real"]);
    if NoDuplicates(given) {
      DistinctOfDistinct(given);
    }
    assert "vocal" in given + ["vocal", "real"] && "real" in given + ["vocal", "real"];
  }

  /** The recording the `n`-th track of a theme gets: `pool[(n - 1) % pool.length]`. */
  function Turn(pool: seq<string>, n: nat): string
    requires |pool| > 0 && n >= 1
  {
    pool[(n - 1) % |pool|]
  }

  /** The mapping loop's state: the tracks seen so far, the per-theme counters and the tallies. */
  datatype Tally = Tally(done: seq<Track>, counters: map<string, nat>, updated: nat, skipped: nat)

  /** One turn of the loop: skip the track, or give it the next recording of its theme. */
  function Visit(s: Tally, t: Track, pools: map<string, seq<string>>): Tally
  {
    var pool := PoolOf(pools, t.theme);
    if |pool| == 0 then s.(done := s.done + [t], skipped := s.skipped + 1)
    else
      var n := Counter(s.counters, t.theme) + 1;
      s.(done := s.done + [Updated(t, Turn(pool, n))],
         counters := s.counters[t.theme := n],
         updated := s.updated + 1)
  }

  /** The loop over a list of tracks. */
  function Run(ts: seq<Track>, pools: map<string, seq<string>>): (r: Tally)
    ensures |r.done| == |ts|
  {
    if ts == [] then Tally([], map[], 0, 0)
    else Visit(Run(ts[..|ts| - 1], pools), ts[|ts| - 1], pools)
  }

  /** The number of tracks of a theme. */
  function CountTheme(ts: seq<Track>, theme: string): (r: nat)
    ensures r <= |ts|
  {
    if ts == [] then 0
    else CountTheme(ts[..|ts| - 1], theme) + (if ts[|ts| - 1].theme == theme then 1 else 0)
  }

  /** The number of tracks whose theme has no recordings. */
  function CountUnpooled(ts: seq<Track>, pools: map<string, seq<string>>): (r: nat)
    ensures r <= |ts|
  {
    if ts == [] then 0
    else CountUnpooled(ts[..|ts| - 1], pools) + (if |PoolOf(pools, ts[|ts| - 1].theme)| == 0 then 1 else 0)
  }

  /**
   * Every track is either updated or skipped; the skipped ones are exactly
   * those whose theme has no recordings; the counter of a theme with
   * recordings is its number of tracks, and a theme without has none.
   */
  lemma {:induction false} RunCounts(ts: seq<Track>, pools: map<string, seq<string>>)
    ensures var r := Run(ts, pools);
            && r.updated + r.skipped == |ts|
            && r.skipped == CountUnpooled(ts, pools)
            && (forall th :: th in r.counters ==> |PoolOf(pools, th)| > 0)
            && (forall th :: |PoolOf(pools, th)| > 0 ==> Counter(r.counters, th) == CountTheme(ts, th))
    decreases |ts|
  {
    if ts != [] {
      RunCounts(ts[..|ts| - 1], pools);
    }
  }

  /** The loop's first `j` turns are the loop over the first `j` tracks. */
  lemma {:induction false} RunPrefix(ts: seq<Track>, pools: map<string, seq<string>>, j: nat)
    requires j <= |ts|
    ensures Run(ts, pools).done[..j] == Run(ts[..j], pools).done
    decreases |ts|
  {
    if j < |ts| {
      var front := ts[..|ts| - 1];
      RunPrefix(front, pools, j);
      assert front[..j] == ts[..j];
      assert Run(ts, pools).done == Run(front, pools).done + [Run(ts, pools).done[|ts| - 1]];
      assert Run(ts, pools).done[..j] == Run(front, pools).done[..j];
    } else {
      assert ts[..j] == ts;
    }
  }

  /** A track whose theme has no recordings is left as it was. */
  lemma SkippedUnchanged(ts: seq<Track>, pools: map<string, seq<string>>, k: nat)
    requires k < |ts| && |PoolOf(pools, ts[k].theme)| == 0
    ensures Run(ts, pools).done[k] == ts[k]
  {
    var front, t := ts[..k], ts[k];
    assert ts[..k + 1] == front + [t];
    RunPrefix(ts, pools, k + 1);
    assert Run(ts, pools).done[k] == Run(front + [t], pools).done[k];
    var before := Run(front, pools);
    assert Run(front + [t], pools) == Visit(before, t, pools) by {
      var u := front + [t];
      assert u[..|u| - 1] == front && u[|u| - 1] == t;
    }
    assert |before.done| == |front|;
    VisitSkips(before, t, pools);
  }

  /**
   * Round robin: the `n`-th track of a theme with recordings gets the
   * theme's recording `(n - 1) mod |pool|`.
   */
  lemma RoundRobin(ts: seq<Track>, pools: map<string, seq<string>>, k: nat)
    requires k < |ts| && |PoolOf(pools, ts[k].theme)| > 0
    ensures CountTheme(ts[..k + 1], ts[k].theme) >= 1
    ensures Run(ts, pools).done[k] == Updated(ts[k], Turn(PoolOf(pools, ts[k].theme), CountTheme(ts[..k + 1], ts[k].theme)))
  {
    var front, t := ts[..k], ts[k];
    assert ts[..k + 1] == front + [t];
    RunPrefix(ts, pools, k + 1);
    assert Run(ts, pools).done[k] == Run(front + [t], pools).done[k];
    LastTaken(front, t, pools);
  }

  /** A track appended to a list, of a theme with recordings, gets the recording its count selects. */
  lemma LastTaken(front: seq<Track>, t: Track, pools: map<string, seq<string>>)
    requires |PoolOf(pools, t.theme)| > 0
    ensures CountTheme(front + [t], t.theme) == CountTheme(front, t.theme) + 1
    ensures Run(front + [t], pools).done[|front|] == Updated(t, Turn(PoolOf(pools, t.theme), CountTheme(front + [t], t.theme)))
  {
    var u := front + [t];
    var before := Run(front, pools);
    assert Run(u, pools) == Visit(before, t, pools) by {
      assert u[..|u| - 1] == front && u[|u| - 1] == t;
    }
    assert CountTheme(u, t.theme) == CountTheme(front, t.theme) + 1 by {
      assert u[..|u| - 1] == front && u[|u| - 1] == t;
    }
    assert |before.done| == |front|;
    assert Counter(before.counters, t.theme) == CountTheme(front, t.theme) by {
      RunCounts(front, pools);
    }
    VisitTakes(before, t, pools);
  }

  /** The loop over one more track is one more turn. */
  lemma RunSnoc(ts: seq<Track>, i: nat, pools: map<string, seq<string>>)
    requires i < |ts|
    ensures Run(ts[..i + 1], pools) == Visit(Run(ts[..i], pools), ts[i], pools)
  {
    assert ts[..i + 1][..i] == ts[..i];
  }

  lemma CountSnoc(ts: seq<Track>, i: nat, th: string)
    requires i < |ts|
    ensures CountTheme(ts[..i + 1], th) == CountTheme(ts[..i], th) + (if ts[i].theme == th then 1 else 0)
  {
    assert ts[..i + 1][..i] == ts[..i];
  }

  /**
   * Recordings are not repeated before the pool runs out: two tracks of a
   * theme fewer than `|pool|` tracks of that theme apart get different
   * recordings when the pool lists each file once.
   */
  lemma SpreadsRecordings(ts: seq<Track>, pools: map<string, seq<string>>, k: nat, l: nat)
    requires k < l < |ts| && ts[k].theme == ts[l].theme
    requires var pool := PoolOf(pools, ts[k].theme);
             |pool| > 0 && NoDuplicates(pool)
             && CountTheme(ts[..l + 1], ts[l].theme) - CountTheme(ts[..k + 1], ts[k].theme) < |pool|
    ensures Run(ts, pools).done[k].file != Run(ts, pools).done[l].file
  {
    var th := ts[k].theme;
    var pool := PoolOf(pools, th);
    var a, b := CountTheme(ts[..k + 1], th), CountTheme(ts[..l + 1], th);
    FileOf(ts, pools, k);
    CountGrows(ts, th, k, l);
    assert Turn(pool, a) != Turn(pool, b) by {
      TurnsDiffer(pool, a, b);
    }
    PrefixInjective(AssetRoot + th + "/", Turn(pool, a), Turn(pool, b));
    FileOf(ts, pools, l);
  }

  /** Fewer than `|pool|` turns apart, a pool without repeats gives different recordings. */
  lemma TurnsDiffer(pool: seq<string>, a: nat, b: nat)
    requires |pool| > 0 && NoDuplicates(pool) && 1 <= a < b && b - a < |pool|
    ensures Turn(pool, a) != Turn(pool, b)
  {
    ModDiffers(a - 1, b - 1, |pool|);
  }

  lemma PrefixInjective(p: string, x: string, y: string)
    requires x != y
    ensures p + x != p + y
  {
    assert x == (p + x)[|p|..] && y == (p + y)[|p|..];
  }

  /** The file a track with recordings receives. */
  lemma FileOf(ts: seq<Track>, pools: map<string, seq<string>>, k: nat)
    requires k < |ts| && |PoolOf(pools, ts[k].theme)| > 0
    ensures var pool, n := PoolOf(pools, ts[k].theme), CountTheme(ts[..k + 1], ts[k].theme);
            n >= 1 && Run(ts, pools).done[k].file == Some(AssetRoot + ts[k].theme + "/" + Turn(pool, n))
  {
    RoundRobin(ts, pools, k);
    var n := CountTheme(ts[..k + 1], ts[k].theme);
    UpdatedMeans(ts[k], Turn(PoolOf(pools, ts[k].theme), n));
  }

  /** A later track of the same theme has a larger count. */
  lemma {:induction false} CountGrows(ts: seq<Track>, th: string, k: nat, l: nat)
    requires k < l < |ts| && ts[l].theme == th
    ensures CountTheme(ts[..k + 1], th) < CountTheme(ts[..l + 1], th)
    decreases l
  {
    assert ts[..l + 1][..l] == ts[..l];
    if k < l - 1 {
      CountMonotone(ts, th, k + 1, l);
    } else {
      assert ts[..k + 1] == ts[..l];
    }
  }

  lemma {:induction false} CountMonotone(ts: seq<Track>, th: string, i: nat, j: nat)
    requires i <= j <= |ts|
    ensures CountTheme(ts[..i], th) <= CountTheme(ts[..j], th)
    decreases j - i
  {
    if i < j {
      CountMonotone(ts, th, i, j - 1);
      assert ts[..j][..j - 1] == ts[..j - 1];
    }
  }

  lemma ModDiffers(a: nat, b: nat, m: nat)
    requires a < b && b - a < m
    ensures a % m != b % m
  {
    var q, r, d := a / m, a % m, b - a;
    assert a == q * m + r;
    if r + d < m {
      Arith.DivModUnique(b, m, q, r + d);
    } else {
      Arith.DivModUnique(b, m, q + 1, r + d - m);
    }
  }

  /** The mapping loop, updating the tracks in place. */
  method MapTracks(tracks: array<Track>, pools: map<string, seq<string>>) returns (updated: nat, skipped: nat)
    modifies tracks
    ensures var r := Run(old(tracks[..]), pools);
            tracks[..] == r.done && updated == r.updated && skipped == r.skipped
  {
    ghost var orig := tracks[..];
    var counters: map<string, nat> := map[];
    updated, skipped := 0, 0;
    for i := 0 to tracks.Length
      invariant forall k :: i <= k < tracks.Length ==> tracks[k] == orig[k]
      invariant Run(orig[..i], pools) == Tally(tracks[..i], counters, updated, skipped)
    {
      ghost var done := tracks[..i];
      assert tracks[i] == orig[i];
      var track;
      track, counters, updated, skipped := MapTrack(tracks[i], pools, counters, updated, skipped, done);
      assert Run(orig[..i + 1], pools) == Tally(done + [track], counters, updated, skipped) by {
        RunSnoc(orig, i, pools);
      }
      tracks[i] := track;
      assert tracks[..i + 1] == done + [track];
    }
    assert orig[..tracks.Length] == orig && tracks[..tracks.Length] == tracks[..];
  }

  /**
   * One turn of the mapping loop: a track whose theme has no recordings is
   * skipped; any other takes its theme's next recording in turn.
   */
  method MapTrack(track: Track, pools: map<string, seq<string>>, counters: map<string, nat>, updated: nat, skipped: nat, ghost done: seq<Track>)
    returns (t: Track, counters': map<string, nat>, updated': nat, skipped': nat)
    ensures Visit(Tally(done, counters, updated, skipped), track, pools) == Tally(done + [t], counters', updated', skipped')
  {
    var theme := track.theme;
    var pool := if theme in pools then pools[theme] else [];
    assert pool == PoolOf(pools, theme);
    if |pool| == 0 {
      t, counters', updated', skipped' := track, counters, updated, skipped + 1;
      VisitSkips(Tally(done, counters, updated, skipped), track, pools);
    } else {
      var n := (if theme in counters then counters[theme] else 0) + 1;
      counters' := counters[theme := n];
      var fileName := pool[(n - 1) % |pool|];
      assert fileName == Turn(pool, n);
      t := Mark(track, fileName);
      updated', skipped' := updated + 1, skipped;
      VisitTakes(Tally(done, counters, updated, skipped), track, pools);
    }
  }

  lemma VisitSkips(s: Tally, t: Track, pools: map<string, seq<string>>)
    requires |PoolOf(pools, t.theme)| == 0
    ensures Visit(s, t, pools) == Tally(s.done + [t], s.counters, s.updated, s.skipped + 1)
  {
  }

  lemma VisitTakes(s: Tally, t: Track, pools: map<string, seq<string>>)
    requires |PoolOf(pools, t.theme)| > 0
    ensures var n := Counter(s.counters, t.theme) + 1;
            Visit(s, t, pools)
            == Tally(s.done + [Updated(t, Turn(PoolOf(pools, t.theme), n))], s.counters[t.theme := n], s.updated + 1, s.skipped)
  {
  }

  /** The update of one track: its file, `vocal`, and its tags. */
  method Mark(track: Track, fileName: string) returns (t: Track)
    ensures t == Updated(track, fileName)
  {
    t := track.(file := Some(AssetRoot + track.theme + "/" + fileName));
    t := t.(vocal := Some(true));
    var given := if track.tags.Some? then track.tags.value else [];
    t := t.(tags := Some(Distinct(given + ["vocal", "real"])));
  }

  /** What the script reports: the themes, each theme's number of recordings, and the tallies. */
  datatype Report = Report(themes: seq<string>, poolSizes: seq<nat>, updated: nat, skipped: nat)

  const MissingTracks: string := "Missing public/tracks/tracks_real.json"

  /**
   * `main`: fails when the track list is missing; otherwise maps every
   * track, in place, against the audio files of its theme's directory.
   */
  method MapRealTracks(list: Option<array<Track>>, dirs: map<string, seq<DirEntry>>) returns (r: Result<Report, string>)
    modifies if list.Some? then {list.value} else {}
    ensures list.None? ==> r == Err(MissingTracks)
    ensures list.Some? ==>
              var ts := old(list.value[..]);
              var themes := Distinct(ThemeList(ts));
              var run := Run(ts, AudioPools(themes, dirs));
              && list.value[..] == run.done
              && r == Ok(Report(themes, PoolSizes(themes, AudioPools(themes, dirs)), run.updated, run.skipped))
  {
    if list.None? {
      return Err(MissingTracks);
    }
    var tracks := list.value;
    var themes := Distinct(ThemeList(tracks[..]));
    var pools := BuildPools(themes, dirs);
    var updated, skipped := MapTracks(tracks, pools);
    r := Ok(Report(themes, PoolSizes(themes, pools), updated, skipped));
  }

  /** `(poolByTheme[theme] || []).length` for each theme, as reported. */
  function PoolSizes(themes: seq<string>, pools: map<string, seq<string>>): (r: seq<nat>)
    ensures |r| == |themes|
    ensures forall k :: 0 <= k < |themes| ==> r[k] == |PoolOf(pools, themes[k])|
  {
    if themes == [] then [] else PoolSizes(themes[..|themes| - 1], pools) + [|PoolOf(pools, themes[|themes| - 1])|]
  }

  /** Every track's theme has a pool entry, so the `|| []` fallback never applies. */
  lemma PoolsCover(ts: seq<Track>, dirs: map<string, seq<DirEntry>>, k: nat)
    requires k < |ts|
    ensures var pools := AudioPools(Distinct(ThemeList(ts)), dirs);
            ts[k].theme in pools && PoolOf(pools, ts[k].theme) == ListAudioFiles(DirOf(dirs, ts[k].theme))
  {
    var themes := Distinct(ThemeList(ts));
    assert ts[k].theme in themes by {
      assert ThemeList(ts)[k] == ts[k].theme;
      DistinctMeans(ThemeList(ts));
    }
  }
}
