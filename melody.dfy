/**
 * The biased random walk over scale degrees that writes the lead melody.
 * One draw picks the starting degree; each step then draws once and moves
 * +2, +1, -1, -2 or 0 degrees by comparing the draw with four thresholds,
 * optionally re-draws the degree at the start of every phrase, and wraps the
 * degree back into the scale.
 */
module Melody {
  import opened Lcg
  import opened Wrappers
  import opened Arith

  /**
   * The walk's thresholds, as percentages of the unit interval, and the
   * phrase length at whose multiples the degree is re-drawn, if any.
   */
  datatype WalkRule = WalkRule(up2: nat, up1: nat, down1: nat, down2: nat, phrase: Option<nat>)

  predicate ValidRule(r: WalkRule)
  {
    r.up2 <= r.up1 <= r.down1 <= r.down2 <= 100 && (r.phrase.Some? ==> r.phrase.value > 0)
  }

  /** Step `s` starts a phrase: the degree is re-drawn there. */
  predicate IsPhraseStart(r: WalkRule, s: nat)
  {
    r.phrase.Some? && r.phrase.value > 0 && s % r.phrase.value == 0
  }

  /** The move a draw selects: the first threshold the draw falls below decides. */
  function Jump(u: Word, r: WalkRule): (j: int)
    ensures -2 <= j <= 2
    ensures j == 2 <==> Below(u, r.up2)
  {
    if Below(u, r.up2) then 2
    else if Below(u, r.up1) then 1
    else if Below(u, r.down1) then -1
    else if Below(u, r.down2) then -2
    else 0
  }

  /** `while (idx < 0) idx += len; idx %= len;` */
  function Wrap(idx: int, len: nat): (w: nat)
    requires len > 0
    ensures w < len
    ensures 0 <= idx < len ==> w == idx
  {
    idx % len
  }

  /** The melody written so far, the current degree and the generator state. */
  datatype Walker = Walker(melody: seq<nat>, idx: int, rng: Word)

  /** One step of the walk; the step number is the length of the melody so far. */
  function StepOnce(len: nat, r: WalkRule, w: Walker): (w': Walker)
    requires len > 0
    ensures w'.melody == w.melody + [w'.idx]
    ensures 0 <= w'.idx < len
  {
    var u := Next(w.rng);
    var moved := w.idx + Jump(u, r);
    var (picked, g) :=
      if IsPhraseStart(r, |w.melody|) then (Pick(Next(u), len), Next(u)) else (moved, u);
    var i := Wrap(picked, len);
    Walker(w.melody + [i], i, g)
  }

  /** The walker after `k` further steps. */
  function WalkSteps(len: nat, r: WalkRule, k: nat, w: Walker): (w': Walker)
    requires len > 0
    ensures |w'.melody| == |w.melody| + k
    ensures w'.melody[..|w.melody|] == w.melody
    ensures forall j :: |w.melody| <= j < |w'.melody| ==> w'.melody[j] < len
    ensures k > 0 ==> w'.idx == w'.melody[|w'.melody| - 1]
    decreases k
  {
    if k == 0 then w else StepOnce(len, r, WalkSteps(len, r, k - 1, w))
  }

  /** The walk from generator state `g`: draw the starting degree, then take `steps` steps. */
  function Walk(len: nat, r: WalkRule, steps: nat, g: Word): (w: Walker)
    requires len > 0
    ensures |w.melody| == steps
    ensures forall j :: 0 <= j < steps ==> w.melody[j] < len
  {
    var u := Next(g);
    WalkSteps(len, r, steps, Walker([], Pick(u, len), u))
  }

  /** The number of phrase starts among steps `from`, ..., `from + k - 1`. */
  function Resets(r: WalkRule, from: nat, k: nat): nat
  {
    if k == 0 then 0 else Resets(r, from, k - 1) + (if IsPhraseStart(r, from + k - 1) then 1 else 0)
  }

  /**
   * Each step draws once, and once more when it starts a phrase: after `k`
   * steps the generator has advanced `k` plus the number of phrase starts.
   */
  lemma {:induction false} WalkStepsDraws(len: nat, r: WalkRule, k: nat, w: Walker)
    requires len > 0
    ensures WalkSteps(len, r, k, w).rng == Advance(w.rng, k + Resets(r, |w.melody|, k))
    decreases k
  {
    if k > 0 {
      var before := WalkSteps(len, r, k - 1, w);
      var n := k - 1 + Resets(r, |w.melody|, k - 1);
      var e := if IsPhraseStart(r, |w.melody| + k - 1) then 2 else 1;
      assert before.rng == Advance(w.rng, n) by {
        WalkStepsDraws(len, r, k - 1, w);
      }
      assert WalkSteps(len, r, k, w).rng == Advance(before.rng, e) by {
        StepOnceDraws(len, r, before);
      }
      AdvanceAdd(w.rng, n, e);
    }
  }

  /** A step draws once, and a second time when it starts a phrase. */
  lemma StepOnceDraws(len: nat, r: WalkRule, w: Walker)
    requires len > 0
    ensures StepOnce(len, r, w).rng == Advance(w.rng, if IsPhraseStart(r, |w.melody|) then 2 else 1)
  {
    assert Advance(w.rng, 1) == Next(w.rng);
    assert Advance(w.rng, 2) == Next(Next(w.rng));
  }

  /**
   * Every `p`-th step starting from step 0 re-draws, so a walk of `n` steps
   * has ceil(n / p) phrase starts.
   */
  lemma {:induction false} ResetsCount(r: WalkRule, n: nat)
    requires r.phrase.Some? && r.phrase.value > 0
    ensures Resets(r, 0, n) == (n + r.phrase.value - 1) / r.phrase.value
    decreases n
  {
    if n > 0 {
      ResetsCount(r, n - 1);
      CeilStep(n - 1, r.phrase.value);
    }
  }

  /** ceil((m + 1) / p) is ceil(m / p), plus one exactly when `p` divides `m`. */
  lemma CeilStep(m: nat, p: nat)
    requires p > 0
    ensures (m + p) / p == (m + p - 1) / p + (if m % p == 0 then 1 else 0)
  {
    var q, k := m / p, m % p;
    assert m == q * p + k;
    if k == 0 {
      DivModUnique(m + p, p, q + 1, 0);
      DivModUnique(m + p - 1, p, q, p - 1);
    } else {
      DivModUnique(m + p, p, q + 1, k);
      DivModUnique(m + p - 1, p, q + 1, k - 1);
    }
  }

  /**
   * The walk's draws: one for the starting degree, one per step and one
   * per phrase start.
   */
  lemma WalkDraws(len: nat, r: WalkRule, steps: nat, g: Word)
    requires len > 0
    ensures Walk(len, r, steps, g).rng == Advance(g, 1 + steps + Resets(r, 0, steps))
  {
    var u := Next(g);
    WalkStepsDraws(len, r, steps, Walker([], Pick(u, len), u));
    AdvanceAdd(g, 1, steps + Resets(r, 0, steps));
  }

  /** A walk of `j` steps is a prefix of a walk of `k >= j` steps from the same walker. */
  lemma {:induction false} WalkStepsPrefix(len: nat, r: WalkRule, j: nat, k: nat, w: Walker)
    requires len > 0 && j <= k
    ensures WalkSteps(len, r, j, w).melody == WalkSteps(len, r, k, w).melody[..|w.melody| + j]
    decreases k
  {
    if j < k {
      WalkStepsPrefix(len, r, j, k - 1, w);
      var before := WalkSteps(len, r, k - 1, w).melody;
      var after := WalkSteps(len, r, k, w).melody;
      assert after[..|w.melody| + k - 1] == before;
      assert after[..|w.melody| + j] == before[..|w.melody| + j];
    }
  }

  /** The last degree of a walk of `n + 1` steps is the one step taken from the walk of `n` steps. */
  lemma WalkStepsLast(len: nat, r: WalkRule, n: nat, w: Walker)
    requires len > 0
    ensures WalkSteps(len, r, n + 1, w).melody[|w.melody| + n] == StepOnce(len, r, WalkSteps(len, r, n, w)).idx
  {
    assert WalkSteps(len, r, n + 1, w) == StepOnce(len, r, WalkSteps(len, r, n, w));
  }

  /** Walks of `i <= k` steps from the same walker agree on the first `i` new degrees. */
  lemma WalkStepsAgree(len: nat, r: WalkRule, i: nat, k: nat, w: Walker, j: nat)
    requires len > 0 && i <= k && j < |w.melody| + i
    ensures WalkSteps(len, r, i, w).melody[j] == WalkSteps(len, r, k, w).melody[j]
  {
    WalkStepsPrefix(len, r, i, k, w);
    var full := WalkSteps(len, r, k, w).melody;
    assert full[..|w.melody| + i][j] == full[j];
  }

  /** `b` is at most two degrees from `a`, going round the scale. */
  predicate Close(a: nat, b: nat, len: nat)
    requires len > 0
  {
    var m := (b - a) % len;
    m <= 2 || m >= len - 2
  }

  /** Moving by at most two degrees and wrapping lands close to where the walk was. */
  lemma WrapClose(a: nat, d: int, len: nat)
    requires len > 0 && a < len && -2 <= d <= 2
    ensures Close(a, Wrap(a + d, len), len)
  {
    var b := Wrap(a + d, len);
    var q := (a + d) / len;
    assert (b - a) % len == d % len by {
      assert a + d == q * len + b;
      assert b - a == d + (-q) * len;
      ModShift(d, -q, len);
    }
    SmallMod(d, len);
  }

  /** A move of at most two degrees is, round the scale, at most two degrees either way. */
  lemma SmallMod(d: int, len: nat)
    requires len > 0 && -2 <= d <= 2
    ensures d % len <= 2 || d % len >= len - 2
  {
    if d >= 0 {
      if d < len {
        DivModUnique(d, len, 0, d);
      }
    } else if len > -d {
      DivModUnique(d, len, -1, len + d);
    }
  }

  /**
   * Inside a phrase the melody moves by at most two scale degrees per step;
   * at a phrase start it is re-drawn, whatever the degree before it was.
   */
  lemma WalkNeighbours(len: nat, r: WalkRule, steps: nat, g: Word, j: nat)
    requires len > 0 && 0 < j < steps
    ensures var m := Walk(len, r, steps, g).melody;
            !IsPhraseStart(r, j) ==> Close(m[j - 1], m[j], len)
  {
    var u := Next(g);
    var w := Walker([], Pick(u, len), u);
    var m := Walk(len, r, steps, g).melody;
    var before := WalkSteps(len, r, j, w);
    assert before.idx == m[j - 1] by {
      WalkStepsAgree(len, r, j, steps, w, j - 1);
    }
    assert StepOnce(len, r, before).idx == m[j] by {
      WalkStepsAgree(len, r, j + 1, steps, w, j);
      WalkStepsLast(len, r, j, w);
    }
    if !IsPhraseStart(r, j) {
      StepClose(len, r, before);
    }
  }

  /** Away from a phrase start one step moves at most two degrees round the scale. */
  lemma StepClose(len: nat, r: WalkRule, w: Walker)
    requires len > 0 && 0 <= w.idx < len && !IsPhraseStart(r, |w.melody|)
    ensures Close(w.idx, StepOnce(len, r, w).idx, len)
  {
    WrapClose(w.idx, Jump(Next(w.rng), r), len);
  }

  /**
   * At a phrase start the new degree depends only on the generator: two
   * walks whose generators agree there pick the same degree there, wherever
   * they came from.
   */
  lemma PhraseStartForgets(len: nat, r: WalkRule, w1: Walker, w2: Walker)
    requires len > 0 && IsPhraseStart(r, |w1.melody|) && |w1.melody| == |w2.melody|
    requires w1.rng == w2.rng && w1.idx != w2.idx
    ensures StepOnce(len, r, w1).idx == StepOnce(len, r, w2).idx
  {
  }

  /** The wrap as the generators write it: add the scale length while negative, then take the remainder. */
  method WrapIndex(idx: int, len: nat) returns (w: nat)
    requires len > 0
    ensures w == Wrap(idx, len)
  {
    var i := idx;
    while i < 0
      invariant i % len == idx % len
      decreases -i
    {
      ModShift(i, 1, len);
      i := i + len;
    }
    w := i % len;
  }

  /**
   * The walk as the generators write it: `idx` is updated in place and
   * wrapped by repeated addition and a remainder, and each degree is stored
   * into the melody array.
   */
  method RandomWalk(rng: Rng, len: nat, steps: nat, r: WalkRule) returns (melody: array<nat>)
    requires rng.Valid() && len > 0
    modifies rng
    ensures fresh(melody)
    ensures rng.Valid() && rng.Seed == old(rng.Seed)
    ensures melody[..] == Walk(len, r, steps, old(rng.state)).melody
    ensures rng.state == Walk(len, r, steps, old(rng.state)).rng
  {
    melody := new nat[steps];
    var u := rng.Draw();
    var idx: int := Pick(u, len);
    ghost var w0 := Walker([], idx, u);
    for s := 0 to steps
      invariant rng.Valid() && rng.Seed == old(rng.Seed)
      invariant WalkSteps(len, r, s, w0) == Walker(melody[..s], idx, rng.state)
    {
      ghost var before := Walker(melody[..s], idx, rng.state);
      idx := WalkStep(rng, len, r, s, idx, before.melody);
      melody[s] := idx;
      assert melody[..s + 1] == before.melody + [idx];
    }
    assert melody[..steps] == melody[..];
  }

  /** One pass of the walk's loop body at step `s`, from degree `idx`. */
  method WalkStep(rng: Rng, len: nat, r: WalkRule, s: nat, idx: int, ghost melody: seq<nat>)
    returns (next: nat)
    requires rng.Valid() && len > 0 && |melody| == s
    modifies rng
    ensures rng.Valid() && rng.Seed == old(rng.Seed)
    ensures StepOnce(len, r, Walker(melody, idx, old(rng.state))) == Walker(melody + [next], next, rng.state)
  {
    var i := idx;
    var jump := rng.Draw();
    if Below(jump, r.up2) {
      i := i + 2;
    } else if Below(jump, r.up1) {
      i := i + 1;
    } else if Below(jump, r.down1) {
      i := i - 1;
    } else if Below(jump, r.down2) {
      i := i - 2;
    }
    assert i == idx + Jump(jump, r);
    if IsPhraseStart(r, s) {
      var v := rng.Draw();
      i := Pick(v, len);
    }
    next := WrapIndex(i, len);
  }
}
