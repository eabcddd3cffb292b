/**
 * 32-bit FNV-1a over the UTF-16 code units of a JavaScript string, as the
 * fallback song derives its seed: h starts at the offset basis 2166136261,
 * and each code unit is XORed in and the result multiplied by the prime
 * 16777619 modulo 2^32 (`Math.imul`, then `>>> 0`).
 */
module Fnv {
  import opened Lcg

  /** A UTF-16 code unit, as `charCodeAt` returns it. */
  type CodeUnit = x: nat | x < 0x10000

  const OffsetBasis: bv32 := 2166136261
  const Prime: bv32 := 16777619

  /**
   * The UTF-16 code units of a string, which is what `charCodeAt` and
   * `.length` see: a character outside the Basic Multilingual Plane becomes
   * a surrogate pair.
   */
  function Utf16(s: string): (r: seq<CodeUnit>)
    ensures |s| <= |r| <= 2 * |s|
    ensures (forall i :: 0 <= i < |s| ==> s[i] as int < 0x10000) ==>
              |r| == |s| && forall i :: 0 <= i < |s| ==> r[i] == s[i] as int
  {
    if s == [] then []
    else
      var c := s[0] as int;
      var head: seq<CodeUnit> :=
        if c < 0x10000 then [c]
        else [0xD800 + (c - 0x10000) / 0x400, 0xDC00 + (c - 0x10000) % 0x400];
      head + Utf16(s[1..])
  }

  /** One round of the loop body: `h ^= code; h = Math.imul(h, 16777619)`. */
  function Mix(h: bv32, c: CodeUnit): bv32
  {
    (h ^ (c as bv32)) * Prime
  }

  /** FNV-1a continued from hash state `h` over `units`, first unit first. */
  function HashFrom(h: bv32, units: seq<CodeUnit>): bv32
    decreases |units|
  {
    if units == [] then h else Mix(HashFrom(h, units[..|units| - 1]), units[|units| - 1])
  }

  /** The 32-bit FNV-1a hash of a code-unit sequence. */
  function Fnv1a(units: seq<CodeUnit>): bv32
  {
    HashFrom(OffsetBasis, units)
  }

  /**
   * Hashing is incremental: the hash of a concatenation is the hash of the
   * second part continued from the hash of the first.
   */
  lemma {:induction false} HashFromAppend(h: bv32, a: seq<CodeUnit>, b: seq<CodeUnit>)
    ensures HashFrom(h, a + b) == HashFrom(HashFrom(h, a), b)
    decreases |b|
  {
    if b != [] {
      var ab := a + b;
      assert ab[..|ab| - 1] == a + b[..|b| - 1];
      assert ab[|ab| - 1] == b[|b| - 1];
      HashFromAppend(h, a, b[..|b| - 1]);
    } else {
      assert a + b == a;
    }
  }

  /** The published FNV-1a test vectors for "" and "a": 0x811c9dc5 and 0xe40c292c. */
  lemma VectorShort()
    ensures Fnv1a(Utf16("")) == 0x811c9dc5
    ensures Fnv1a(Utf16("a")) == 0xe40c292c
  {
    var a := Utf16("a");
    assert a == [0x61];
    MixSteps();
    assert a[..0] == [];
  }

  /** The rounds of the two test vectors below, each on constants. */
  lemma MixSteps()
    ensures Mix(OffsetBasis, 0x61) == 0xe40c292c
    ensures Mix(OffsetBasis, 0x66) == 0xe30c2799
    ensures Mix(0xe30c2799, 0x6f) == 0x6222e842
    ensures Mix(0x6222e842, 0x6f) == 0xa9f37ed7
    ensures Mix(0xa9f37ed7, 0x62) == 0x3f5076ef
    ensures Mix(0x3f5076ef, 0x61) == 0x39aaa18a
    ensures Mix(0x39aaa18a, 0x72) == 0xbf9cf968
  {
  }

  /** One step of a known hash chain: extending a prefix by the unit `c`. */
  lemma StepChain(units: seq<CodeUnit>, k: nat, c: CodeUnit, before: bv32, after: bv32)
    requires k < |units| && units[k] == c
    requires HashFrom(OffsetBasis, units[..k]) == before
    requires Mix(before, c) == after
    ensures HashFrom(OffsetBasis, units[..k + 1]) == after
  {
    assert units[..k + 1][..k] == units[..k];
  }

  /** The published FNV-1a test vector for "foobar": 0xbf9cf968. */
  lemma VectorFoobar()
    ensures Fnv1a(Utf16("foobar")) == 0xbf9cf968
  {
    FoobarUnits();
    FoobarChain(Utf16("foobar"));
  }

  lemma FoobarUnits()
    ensures Utf16("foobar") == [0x66, 0x6f, 0x6f, 0x62, 0x61, 0x72]
  {
  }

  /** The six rounds over the code units of "foobar". */
  lemma FoobarChain(f: seq<CodeUnit>)
    requires f == [0x66, 0x6f, 0x6f, 0x62, 0x61, 0x72]
    ensures Fnv1a(f) == 0xbf9cf968
  {
    MixSteps();
    assert f[..0] == [];
    StepChain(f, 0, 0x66, OffsetBasis, 0xe30c2799);
    StepChain(f, 1, 0x6f, 0xe30c2799, 0x6222e842);
    StepChain(f, 2, 0x6f, 0x6222e842, 0xa9f37ed7);
    StepChain(f, 3, 0x62, 0xa9f37ed7, 0x3f5076ef);
    StepChain(f, 4, 0x61, 0x3f5076ef, 0x39aaa18a);
    StepChain(f, 5, 0x72, 0x39aaa18a, 0xbf9cf968);
    assert f[..6] == f;
  }

  /** `hashStringToSeed(text)`, over the code units of `text`. */
  method HashStringToSeed(text: seq<CodeUnit>) returns (seed: Word)
    ensures seed == Fnv1a(text) as nat
    ensures text == [] ==> seed == 2166136261
  {
    var h := OffsetBasis;
    var i := 0;
    while i < |text|
      invariant 0 <= i <= |text|
      invariant h == Fnv1a(text[..i])
    {
      assert text[..i + 1][..i] == text[..i];
      h := Mix(h, text[i]);
      i := i + 1;
    }
    assert text[..|text|] == text;
    seed := h as nat;
  }
}
