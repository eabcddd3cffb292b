/**
 * `toUpperCase` and `toLowerCase` on ASCII letters, the only letters in the
 * theme ids and the audio extensions the scripts compare against.
 */
module Ascii {

  predicate IsLower(c: char)
  {
    'a' <= c <= 'z'
  }

  predicate IsUpper(c: char)
  {
    'A' <= c <= 'Z'
  }

  function UpperChar(c: char): (r: char)
    ensures IsLower(c) ==> IsUpper(r) && r as int == c as int - 32
    ensures !IsLower(c) ==> r == c
  {
    if IsLower(c) then (c as int - 32) as char else c
  }

  function LowerChar(c: char): (r: char)
    ensures IsUpper(c) ==> IsLower(r) && r as int == c as int + 32
    ensures !IsUpper(c) ==> r == c
  {
    if IsUpper(c) then (c as int + 32) as char else c
  }

  /** `s.toUpperCase()` for ASCII text. */
  function Upper(s: string): (r: string)
    ensures |r| == |s|
    ensures forall k :: 0 <= k < |s| ==> r[k] == UpperChar(s[k])
  {
    if s == [] then [] else Upper(s[..|s| - 1]) + [UpperChar(s[|s| - 1])]
  }

  /** `s.toLowerCase()` for ASCII text. */
  function Lower(s: string): (r: string)
    ensures |r| == |s|
    ensures forall k :: 0 <= k < |s| ==> r[k] == LowerChar(s[k])
  {
    if s == [] then [] else Lower(s[..|s| - 1]) + [LowerChar(s[|s| - 1])]
  }

  /** Lowering forgets case: text that differs only in the case of its letters lowers to the same text. */
  lemma LowerUpper(s: string)
    ensures Lower(Upper(s)) == Lower(s)
    ensures Upper(Upper(s)) == Upper(s)
  {
    assert forall k :: 0 <= k < |s| ==> Lower(Upper(s))[k] == Lower(s)[k];
    assert forall k :: 0 <= k < |s| ==> Upper(Upper(s))[k] == Upper(s)[k];
  }
}
