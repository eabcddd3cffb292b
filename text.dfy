/**
 * The server's text helpers: extracting the JSON object from the language
 * model's reply, JavaScript's white-space normalisation
 * `s.replace(/\s+/g, " ").trim()`, and the two text builders that feed the
 * music provider (the lyric sheet) and the fallback voice line.
 */
module Text {
  import opened Wrappers
  import Decimal

  /* ---------------- JSON extraction ---------------- */

  /** The first index of `c` in `s`, if any. */
  function FirstIndex(s: string, c: char): (r: Option<nat>)
    ensures r.Some? ==> r.value < |s| && s[r.value] == c && forall j :: 0 <= j < r.value ==> s[j] != c
    ensures r.None? ==> forall j :: 0 <= j < |s| ==> s[j] != c
  {
    if |s| == 0 then None
    else if s[0] == c then Some(0)
    else match FirstIndex(s[1..], c)
      case None => None
      case Some(i) => Some(i + 1)
  }

  /** The last index of `c` in `s`, if any. */
  function LastIndex(s: string, c: char): (r: Option<nat>)
    ensures r.Some? ==> r.value < |s| && s[r.value] == c && forall j :: r.value < j < |s| ==> s[j] != c
    ensures r.None? ==> forall j :: 0 <= j < |s| ==> s[j] != c
  {
    if |s| == 0 then None
    else if s[|s| - 1] == c then Some(|s| - 1)
    else LastIndex(s[..|s| - 1], c)
  }

  /**
   * Where `/\{[\s\S]*\}/` matches: the leftmost '{' that some '}' follows,
   * through the last '}' (the star is greedy).  Since any '}' after a later
   * '{' also follows the first one, the leftmost candidate is the first '{'.
   */
  function JsonSpan(text: string): Option<(nat, nat)>
  {
    match (FirstIndex(text, '{'), LastIndex(text, '}'))
    case (Some(f), Some(l)) => if f < l then Some((f, l)) else None
    case _ => None
  }

  /**
   * The match is absent exactly when no '{' precedes a '}'; when present it
   * runs from the first '{' to the last '}' of the text.
   */
  lemma JsonSpanMeans(text: string)
    ensures JsonSpan(text).None? <==>
            forall i, j :: 0 <= i < j < |text| && text[i] == '{' ==> text[j] != '}'
    ensures JsonSpan(text).Some? ==>
              var (f, l) := JsonSpan(text).value;
              && f < l < |text| && text[f] == '{' && text[l] == '}'
              && (forall j :: 0 <= j < f ==> text[j] != '{')
              && (forall j :: l < j < |text| ==> text[j] != '}')
  {
    var first, last := FirstIndex(text, '{'), LastIndex(text, '}');
    if first.Some? && last.Some? && first.value >= last.value {
      forall i, j | 0 <= i < j < |text| && text[i] == '{'
        ensures text[j] != '}'
      {
        assert i >= first.value;
      }
    }
  }

  /** The matched text `jsonMatch[0]`, handed to `JSON.parse`; an error when there is no match. */
  function ParseAiJson(text: string): (r: Result<string, string>)
    ensures r.Ok? <==> JsonSpan(text).Some?
    ensures r.Ok? ==> |r.value| >= 2 && r.value[0] == '{' && r.value[|r.value| - 1] == '}'
    ensures r.Err? ==> r.error == "No JSON found in AI response"
  {
    match JsonSpan(text)
    case None => Err("No JSON found in AI response")
    case Some((f, l)) =>
      JsonSpanMeans(text);
      Ok(text[f..l + 1])
  }

  /* ---------------- white space ---------------- */

  /** The characters of JavaScript's `\s` class, which `trim` also removes. */
  predicate IsJsSpace(c: char)
  {
    || c == '\t' || c == '\n' || c == '\U{000B}' || c == '\U{000C}' || c == '\r' || c == ' '
    || c == '\U{00A0}' || c == '\U{1680}' || ('\U{2000}' <= c <= '\U{200A}')
    || c == '\U{2028}' || c == '\U{2029}' || c == '\U{202F}' || c == '\U{205F}'
    || c == '\U{3000}' || c == '\U{FEFF}'
  }

  /** The length of the white-space run at the start of `s`. */
  function SpaceRun(s: string): (n: nat)
    ensures n <= |s|
    ensures forall i :: 0 <= i < n ==> IsJsSpace(s[i])
    ensures n < |s| ==> !IsJsSpace(s[n])
  {
    if |s| > 0 && IsJsSpace(s[0]) then 1 + SpaceRun(s[1..]) else 0
  }

  /** The length of the white-space run at the end of `s`. */
  function TrailRun(s: string): (n: nat)
    ensures n <= |s|
    ensures forall i :: |s| - n <= i < |s| ==> IsJsSpace(s[i])
    ensures n < |s| ==> !IsJsSpace(s[|s| - n - 1])
  {
    if |s| > 0 && IsJsSpace(s[|s| - 1]) then 1 + TrailRun(s[..|s| - 1]) else 0
  }

  /** `s.replace(/\s+/g, " ")`: each maximal run of white space becomes one space. */
  function Collapse(s: string): (r: string)
    decreases |s|
  {
    if |s| == 0 then ""
    else if IsJsSpace(s[0]) then " " + Collapse(s[SpaceRun(s)..])
    else [s[0]] + Collapse(s[1..])
  }

  /** `s.trim()`. */
  function Trim(s: string): (r: string)
  {
    var a := SpaceRun(s);
    s[a..|s| - TrailRun(s[a..])]
  }

  /** `s.replace(/\s+/g, " ").trim()`. */
  function Normalize(s: string): string
  {
    Trim(Collapse(s))
  }

  /** White space is plain spaces, single, and never at either end. */
  predicate IsNormal(t: string)
  {
    && (forall i :: 0 <= i < |t| && IsJsSpace(t[i]) ==> t[i] == ' ')
    && (forall i :: 0 <= i < |t| - 1 ==> !(t[i] == ' ' && t[i + 1] == ' '))
    && (|t| > 0 ==> t[0] != ' ' && t[|t| - 1] != ' ')
  }

  /** Only plain spaces, never two in a row. */
  predicate IsCollapsed(t: string)
  {
    && (forall i :: 0 <= i < |t| && IsJsSpace(t[i]) ==> t[i] == ' ')
    && (forall i :: 0 <= i < |t| - 1 ==> !(t[i] == ' ' && t[i + 1] == ' '))
  }

  /** The text with its white space removed. */
  function Letters(s: string): (r: string)
    ensures forall i :: 0 <= i < |r| ==> !IsJsSpace(r[i])
  {
    if |s| == 0 then ""
    else if IsJsSpace(s[0]) then Letters(s[1..])
    else [s[0]] + Letters(s[1..])
  }

  lemma {:induction false} LettersAppend(a: string, b: string)
    ensures Letters(a + b) == Letters(a) + Letters(b)
    decreases |a|
  {
    if |a| > 0 {
      assert (a + b)[0] == a[0];
      assert (a + b)[1..] == a[1..] + b;
      LettersAppend(a[1..], b);
    } else {
      assert a + b == b;
    }
  }

  lemma {:induction false} LettersOfSpaces(s: string)
    requires forall i :: 0 <= i < |s| ==> IsJsSpace(s[i])
    ensures Letters(s) == ""
    decreases |s|
  {
    if |s| > 0 {
      LettersOfSpaces(s[1..]);
    }
  }

  /** Collapsing keeps the text empty or not, and keeps white space at either end as a space. */
  lemma {:induction false} CollapseEnds(s: string)
    ensures |Collapse(s)| > 0 <==> |s| > 0
    ensures |s| > 0 ==> (Collapse(s)[0] == ' ' <==> IsJsSpace(s[0]))
    ensures |s| > 0 ==> (Collapse(s)[|Collapse(s)| - 1] == ' ' <==> IsJsSpace(s[|s| - 1]))
    decreases |s|
  {
    if |s| > 0 {
      if IsJsSpace(s[0]) {
        var rest := s[SpaceRun(s)..];
        CollapseEnds(rest);
        if |rest| > 0 {
          assert s[|s| - 1] == rest[|rest| - 1];
        }
      } else {
        CollapseEnds(s[1..]);
        if |s| > 1 {
          assert s[|s| - 1] == s[1..][|s| - 2];
        }
      }
    }
  }

  lemma CollapsedCons(c: char, t: string)
    requires IsCollapsed(t) && (IsJsSpace(c) ==> c == ' ')
    requires !(c == ' ' && |t| > 0 && t[0] == ' ')
    ensures IsCollapsed([c] + t)
  {
    var r := [c] + t;
    assert forall i :: 1 <= i < |r| ==> r[i] == t[i - 1];
  }

  /** Collapsing leaves only plain spaces, never two in a row. */
  lemma {:induction false} CollapseClean(s: string)
    ensures IsCollapsed(Collapse(s))
    decreases |s|
  {
    if |s| > 0 {
      if IsJsSpace(s[0]) {
        var rest := s[SpaceRun(s)..];
        CollapseClean(rest);
        CollapseEnds(rest);
        CollapsedCons(' ', Collapse(rest));
      } else {
        CollapseClean(s[1..]);
        CollapsedCons(s[0], Collapse(s[1..]));
      }
    }
  }

  /** Collapsing keeps every other character, in order. */
  lemma {:induction false} CollapseLetters(s: string)
    ensures Letters(Collapse(s)) == Letters(s)
    decreases |s|
  {
    if |s| > 0 {
      if IsJsSpace(s[0]) {
        var n := SpaceRun(s);
        var rest := s[n..];
        CollapseLetters(rest);
        assert s == s[..n] + rest;
        LettersAppend(s[..n], rest);
        LettersOfSpaces(s[..n]);
        LettersAppend(" ", Collapse(rest));
      } else {
        CollapseLetters(s[1..]);
        assert s == [s[0]] + s[1..];
        LettersAppend([s[0]], s[1..]);
        LettersAppend([s[0]], Collapse(s[1..]));
      }
    }
  }

  /**
   * The normalised text is in normal form and has the same non-space
   * characters, in the same order, as the original.
   */
  lemma NormalizeShape(s: string)
    ensures IsNormal(Normalize(s))
    ensures Letters(Normalize(s)) == Letters(s)
  {
    CollapseClean(s);
    CollapseLetters(s);
    TrimNormal(Collapse(s));
    TrimLetters(Collapse(s));
  }

  /** Trimming a collapsed text leaves it in normal form. */
  lemma TrimNormal(c: string)
    requires IsCollapsed(c)
    ensures IsNormal(Trim(c))
  {
    var a := SpaceRun(c);
    var b := |c| - TrailRun(c[a..]);
    var t := Trim(c);
    assert t == c[a..b];
    assert forall i :: 0 <= i < |t| ==> t[i] == c[a + i];
    if |t| > 0 {
      assert c[a..][|c[a..]| - TrailRun(c[a..]) - 1] == c[b - 1];
    }
  }

  /** Trimming removes only white space. */
  lemma TrimLetters(c: string)
    ensures Letters(Trim(c)) == Letters(c)
  {
    var a := SpaceRun(c);
    var x := c[a..];
    assert Trim(c) == x[..|x| - TrailRun(x)];
    DropLeading(c, a);
    DropTrailing(x, TrailRun(x));
  }

  lemma DropLeading(c: string, a: nat)
    requires a <= |c| && forall i :: 0 <= i < a ==> IsJsSpace(c[i])
    ensures Letters(c[a..]) == Letters(c)
  {
    assert c == c[..a] + c[a..];
    LettersAppend(c[..a], c[a..]);
    LettersOfSpaces(c[..a]);
  }

  lemma DropTrailing(x: string, n: nat)
    requires n <= |x| && forall i :: |x| - n <= i < |x| ==> IsJsSpace(x[i])
    ensures Letters(x[..|x| - n]) == Letters(x)
  {
    var b := |x| - n;
    assert x == x[..b] + x[b..];
    LettersAppend(x[..b], x[b..]);
    LettersOfSpaces(x[b..]);
  }

  /** A text already in normal form is left as it is. */
  lemma {:induction false} CollapseFixes(t: string)
    requires IsCollapsed(t)
    ensures Collapse(t) == t
    decreases |t|
  {
    if |t| > 0 {
      assert IsCollapsed(t[1..]);
      CollapseFixes(t[1..]);
      if IsJsSpace(t[0]) {
        assert SpaceRun(t) == 1 by {
          if |t| > 1 {
            assert !(t[0] == ' ' && t[1] == ' ');
          }
        }
      }
    }
  }

  /** Normal text is a fixed point, so normalising twice is normalising once. */
  lemma NormalFixed(t: string)
    requires IsNormal(t)
    ensures Normalize(t) == t
  {
    CollapseFixes(t);
    if |t| > 0 {
      assert SpaceRun(t) == 0;
      assert TrailRun(t) == 0;
    }
  }

  lemma NormalizeIdempotent(s: string)
    ensures Normalize(Normalize(s)) == Normalize(s)
  {
    NormalizeShape(s);
    NormalFixed(Normalize(s));
  }

  /* ---------------- lines ---------------- */

  /** `lines.join("\n")`. */
  function Join(lines: seq<string>): string
  {
    if |lines| == 0 then ""
    else if |lines| == 1 then lines[0]
    else lines[0] + "\n" + Join(lines[1..])
  }

  /** `s.split("\n")`. */
  function Split(s: string): (lines: seq<string>)
    ensures |lines| >= 1
    decreases |s|
  {
    match FirstIndex(s, '\n')
    case None => [s]
    case Some(i) => [s[..i]] + Split(s[i + 1..])
  }

  predicate NoNewline(s: string)
  {
    forall i :: 0 <= i < |s| ==> s[i] != '\n'
  }

  /** Joining lines that hold no newline and splitting again gives the lines back. */
  lemma {:induction false} SplitJoin(lines: seq<string>)
    requires |lines| >= 1
    requires forall k :: 0 <= k < |lines| ==> NoNewline(lines[k])
    ensures Split(Join(lines)) == lines
    decreases |lines|
  {
    if |lines| > 1 {
      var rest := lines[1..];
      assert Split(Join(rest)) == rest by {
        SplitJoin(rest);
      }
      assert Split(Join(lines)) == [lines[0]] + Split(Join(rest)) by {
        assert Join(lines) == lines[0] + "\n" + Join(rest);
        SplitLine(lines[0], Join(rest));
      }
      assert lines == [lines[0]] + rest;
    } else {
      assert FirstIndex(lines[0], '\n').None?;
    }
  }

  /** Splitting a line without newlines, a newline and the rest gives the line, then the rest's lines. */
  lemma SplitLine(head: string, rest: string)
    requires NoNewline(head)
    ensures Split(head + "\n" + rest) == [head] + Split(rest)
  {
    var s := head + "\n" + rest;
    assert s[|head|] == '\n';
    assert forall j :: 0 <= j < |head| ==> s[j] == head[j];
    assert FirstIndex(s, '\n') == Some(|head|);
    assert s[..|head|] == head;
    assert s[|head| + 1..] == rest;
  }

  /** Normal text holds no newline. */
  lemma NormalNoNewline(t: string)
    requires IsNormal(t)
    ensures NoNewline(t)
  {
    forall i | 0 <= i < |t|
      ensures t[i] != '\n'
    {
      if t[i] == '\n' {
        assert IsJsSpace(t[i]);
      }
    }
  }

  /* ---------------- the builders ---------------- */

  /** JavaScript's `value || fallback` on a string that may be absent: the empty string is falsy too. */
  function OrElse(value: Option<string>, fallback: string): (r: string)
    ensures value.Some? && value.value != "" ==> r == value.value
    ensures value.None? || value == Some("") ==> r == fallback
  {
    match value
    case Some(v) => if v != "" then v else fallback
    case None => fallback
  }

  /** A template literal's rendering of a value that may be `undefined`. */
  function Show(value: Option<string>): string
  {
    match value
    case Some(v) => v
    case None => "undefined"
  }

  /** A template literal's rendering of a number that may be `undefined`. */
  function ShowInt(value: Option<int>): string
  {
    match value
    case Some(n) => Decimal.IntToString(n)
    case None => "undefined"
  }

  const DefaultLyricSeed: string := "We move under city lights"
  const MaxSeedLine: nat := 180

  /** The normalised user line, cut to at most 180 characters. */
  function SeedLine(userInput: Option<string>): (r: string)
    ensures |r| <= MaxSeedLine
  {
    var line := Normalize(OrElse(userInput, DefaultLyricSeed));
    if |line| > MaxSeedLine then line[..MaxSeedLine] else line
  }

  /** Line 1 of the lyric sheet, the only one that varies. */
  function VerseLine(userInput: Option<string>, genre: Option<string>, bpm: Option<int>): string
  {
    "In this " + Show(genre) + " pulse at " + ShowInt(bpm) + " bpm, " + SeedLine(userInput) + "."
  }

  const VerseHeader: string := "[Verse]"
  const ChorusHeader: string := "[Chorus]"
  const BridgeHeader: string := "[Bridge]"
  const OutroHeader: string := "[Outro]"
  const Verse2: string := "We rise with the drums and neon skies, no fear tonight."
  const Chorus1: string := "Sing it loud, we ride this sound, hearts in overdrive."
  const Chorus2: string := "Hands up high, we stay alive, in this midnight light."
  const Bridge1: string := "One more breath, one more spark, turn the silence into fire."
  const Outro1: string := "Fade the stars but keep the beat, we are still on fire."

  /** The nine lines of the sheet that never vary, in order. */
  const FixedLines: seq<string> :=
    [ VerseHeader, Verse2,
      ChorusHeader, Chorus1, Chorus2,
      BridgeHeader, Bridge1,
      OutroHeader, Outro1 ]

  /** Where the headers sit among the fixed lines, none holding a newline. */
  lemma FixedLinesShape()
    ensures |FixedLines| == 9
    ensures FixedLines[0] == VerseHeader && FixedLines[2] == ChorusHeader
    ensures FixedLines[5] == BridgeHeader && FixedLines[7] == OutroHeader
    ensures forall k :: 0 <= k < 9 ==> NoNewline(FixedLines[k])
  {
    HeadersNoNewline();
    Verse2NoNewline();
    Chorus1NoNewline();
    Chorus2NoNewline();
    Bridge1NoNewline();
    Outro1NoNewline();
  }

  /** A sheet: the first fixed line, then the verse line, then the other fixed lines. */
  function Sheet(verse: string, fixed: seq<string>): (lines: seq<string>)
    requires |fixed| == 9
    ensures |lines| == 10 && lines[0] == fixed[0] && lines[1] == verse
    ensures forall k :: 2 <= k < 10 ==> lines[k] == fixed[k - 1]
  {
    [fixed[0], verse] + fixed[1..]
  }

  /** The ten lines of the lyric sheet. */
  function LyricLines(userInput: Option<string>, genre: Option<string>, bpm: Option<int>): (lines: seq<string>)
    ensures |lines| == 10
    ensures lines[1] == VerseLine(userInput, genre, bpm)
  {
    FixedLinesShape();
    Sheet(VerseLine(userInput, genre, bpm), FixedLines)
  }

  /** The section headers open lines 0, 3, 6 and 8 of the sheet. */
  lemma LyricHeaders(userInput: Option<string>, genre: Option<string>, bpm: Option<int>)
    ensures var lines := LyricLines(userInput, genre, bpm);
            && lines[0] == VerseHeader && lines[3] == ChorusHeader
            && lines[6] == BridgeHeader && lines[8] == OutroHeader
  {
    FixedLinesShape();
  }

  /** `buildReplicateLyrics({ userInput, genre, bpm })`. */
  function BuildReplicateLyrics(userInput: Option<string>, genre: Option<string>, bpm: Option<int>): string
  {
    Join(LyricLines(userInput, genre, bpm))
  }

  lemma DefaultLyricSeedNormal()
    ensures IsNormal(DefaultLyricSeed)
  {
  }

  /**
   * The user line is the normalised input (or the default when the input is
   * absent or empty), whole when it has at most 180 characters and its first
   * 180 otherwise; normalising keeps every non-space character in order, and
   * the line holds no newline.
   */
  lemma SeedLineMeans(userInput: Option<string>)
    ensures var full := Normalize(OrElse(userInput, DefaultLyricSeed));
            && (|full| <= MaxSeedLine ==> SeedLine(userInput) == full)
            && (|full| > MaxSeedLine ==> SeedLine(userInput) == full[..MaxSeedLine])
            && Letters(full) == Letters(OrElse(userInput, DefaultLyricSeed))
            && NoNewline(SeedLine(userInput))
    ensures userInput.None? || userInput == Some("") ==> SeedLine(userInput) == DefaultLyricSeed
  {
    var full := Normalize(OrElse(userInput, DefaultLyricSeed));
    NormalizeShape(OrElse(userInput, DefaultLyricSeed));
    NormalNoNewline(full);
    if userInput.None? || userInput == Some("") {
      DefaultLyricSeedNormal();
      NormalFixed(DefaultLyricSeed);
    }
  }

  lemma NoNewlineAppend(a: string, b: string)
    requires NoNewline(a) && NoNewline(b)
    ensures NoNewline(a + b)
  {
  }

  lemma Verse2NoNewline()
    ensures NoNewline(Verse2)
  {
    NoNewlineAppend("We rise with the drums ", "and neon skies, no fear tonight.");
  }

  lemma Chorus1NoNewline()
    ensures NoNewline(Chorus1)
  {
    NoNewlineAppend("Sing it loud, we ride this ", "sound, hearts in overdrive.");
  }

  lemma Chorus2NoNewline()
    ensures NoNewline(Chorus2)
  {
    NoNewlineAppend("Hands up high, we stay ", "alive, in this midnight light.");
  }

  lemma Bridge1NoNewline()
    ensures NoNewline(Bridge1)
  {
    NoNewlineAppend("One more breath, one more spark, ", "turn the silence into fire.");
  }

  lemma Outro1NoNewline()
    ensures NoNewline(Outro1)
  {
    NoNewlineAppend("Fade the stars but keep the ", "beat, we are still on fire.");
  }

  lemma VerseLineNoNewline(userInput: Option<string>, genre: Option<string>, bpm: Option<int>)
    requires NoNewline(Show(genre)) && NoNewline(ShowInt(bpm))
    ensures NoNewline(VerseLine(userInput, genre, bpm))
  {
    assert NoNewline(SeedLine(userInput)) by {
      SeedLineMeans(userInput);
    }
    PiecesNoNewline(Show(genre), ShowInt(bpm), SeedLine(userInput));
  }

  lemma PiecesNoNewline(g: string, b: string, u: string)
    requires NoNewline(g) && NoNewline(b) && NoNewline(u)
    ensures NoNewline("In this " + g + " pulse at " + b + " bpm, " + u + ".")
  {
    var x := "In this " + g;
    NoNewlineAppend("In this ", g);
    var y := x + " pulse at ";
    NoNewlineAppend(x, " pulse at ");
    var z := y + b;
    NoNewlineAppend(y, b);
    var w := z + " bpm, ";
    NoNewlineAppend(z, " bpm, ");
    NoNewlineAppend(w, u);
    NoNewlineAppend(w + u, ".");
  }

  /**
   * When the genre and tempo texts hold no newline, splitting the sheet at
   * its newlines gives back exactly its ten lines (see `LyricLines` for
   * where the section headers sit).
   */
  lemma LyricsLayout(userInput: Option<string>, genre: Option<string>, bpm: Option<int>)
    requires NoNewline(Show(genre)) && NoNewline(ShowInt(bpm))
    ensures Split(BuildReplicateLyrics(userInput, genre, bpm)) == LyricLines(userInput, genre, bpm)
  {
    var lines := LyricLines(userInput, genre, bpm);
    LinesNoNewline(userInput, genre, bpm);
    SplitJoin(lines);
  }

  lemma LinesNoNewline(userInput: Option<string>, genre: Option<string>, bpm: Option<int>)
    requires NoNewline(Show(genre)) && NoNewline(ShowInt(bpm))
    ensures forall k :: 0 <= k < 10 ==> NoNewline(LyricLines(userInput, genre, bpm)[k])
  {
    FixedLinesShape();
    VerseLineNoNewline(userInput, genre, bpm);
  }

  lemma HeadersNoNewline()
    ensures NoNewline(VerseHeader) && NoNewline(ChorusHeader)
    ensures NoNewline(BridgeHeader) && NoNewline(OutroHeader)
  {
  }

  const DefaultVoiceSeed: string := "We make a new sound tonight"
  const VoiceOpening: string := " vibe, here we go. "
  const VoiceMiddle: string := ". Feel the rhythm, feel the night. "

  /** `buildFallbackVoiceText({ prompt, genre })`. */
  function BuildFallbackVoiceText(prompt: Option<string>, genre: Option<string>): string
  {
    VoiceText(OrElse(genre, "Music"), Normalize(OrElse(prompt, DefaultVoiceSeed)))
  }

  /** The voice line for the genre text `g` around the normalised line `base`. */
  function VoiceText(g: string, base: string): string
  {
    g + VoiceOpening + base + VoiceMiddle + base + "."
  }

  /** Where the pieces of `v == g + o + b + m + b + "."` sit. */
  lemma RepeatLayout(v: string, g: string, o: string, b: string, m: string)
    requires v == g + o + b + m + b + "."
    ensures |v| == |g| + |o| + |m| + 2 * |b| + 1
    ensures v[..|g|] == g
    ensures v[|g| + |o|..|g| + |o| + |b|] == b
    ensures v[|g| + |o| + |b| + |m|..|g| + |o| + |b| + |m| + |b|] == b
    ensures v[|v| - 1] == '.'
  {
  }

  /**
   * The voice line starts with the genre text and repeats the line `base`
   * twice, at fixed offsets after the genre, and ends with a full stop.
   */
  lemma VoiceTextLayout(g: string, base: string)
    ensures var v := VoiceText(g, base);
            && |v| == |g| + |VoiceOpening| + |VoiceMiddle| + 2 * |base| + 1
            && v[..|g|] == g
            && v[|g| + |VoiceOpening|..|g| + |VoiceOpening| + |base|] == base
            && v[|g| + |VoiceOpening| + |base| + |VoiceMiddle|..|g| + |VoiceOpening| + |base| + |VoiceMiddle| + |base|] == base
            && v[|v| - 1] == '.'
  {
    RepeatLayout(VoiceText(g, base), g, VoiceOpening, base, VoiceMiddle);
  }

  /** `v` holds `base` starting at offset `at`. */
  predicate Carries(v: string, at: nat, base: string)
  {
    at + |base| <= |v| && v[at..at + |base|] == base
  }

  /**
   * The voice line around the normal form of `raw` opens with `g` and
   * carries that normal form after the opening: every non-space character
   * of `raw` in order, single inner spaces and no newline.
   */
  lemma VoiceLineMeans(g: string, raw: string)
    ensures var v, base := VoiceText(g, Normalize(raw)), Normalize(raw);
            var at := |g| + |VoiceOpening|;
            && v[..|g|] == g
            && Carries(v, at, base)
            && IsNormal(base) && NoNewline(base)
            && Letters(base) == Letters(raw)
  {
    var base := Normalize(raw);
    var v := VoiceText(g, base);
    var at := |g| + |VoiceOpening|;
    assert v[..|g|] == g && Carries(v, at, base) by {
      VoiceTextLayout(g, base);
    }
    assert IsNormal(base) && Letters(base) == Letters(raw) by {
      NormalizeShape(raw);
    }
    assert NoNewline(base) by {
      NormalNoNewline(base);
    }
  }

  /**
   * The fallback voice line opens with the genre, or "Music" when it is
   * absent or empty, and carries the prompt, or the default line, in
   * normal form.
   */
  lemma FallbackVoiceMeans(prompt: Option<string>, genre: Option<string>)
    ensures var v := BuildFallbackVoiceText(prompt, genre);
            var g := OrElse(genre, "Music");
            var base := Normalize(OrElse(prompt, DefaultVoiceSeed));
            var at := |g| + |VoiceOpening|;
            && v[..|g|] == g
            && Carries(v, at, base)
            && IsNormal(base) && NoNewline(base)
            && Letters(base) == Letters(OrElse(prompt, DefaultVoiceSeed))
  {
    var g, raw := OrElse(genre, "Music"), OrElse(prompt, DefaultVoiceSeed);
    VoiceLineMeans(g, raw);
    assert BuildFallbackVoiceText(prompt, genre) == VoiceText(g, Normalize(raw));
  }
}
