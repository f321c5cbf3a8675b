/** ASCII letter case, as `char.ToLowerInvariant` treats the letters A to Z. */
module Ascii {

  predicate IsUpper(c: char)
  {
    'A' <= c <= 'Z'
  }

  function ToLower(c: char): (r: char)
    ensures !IsUpper(r)
    ensures IsUpper(c) ==> r as int == c as int + 32
    ensures !IsUpper(c) ==> r == c
  {
    if IsUpper(c) then (c as int + 32) as char else c
  }

  /** `string.ToLowerInvariant`, letter by letter. */
  function LowerAll(s: string): (r: string)
    ensures |r| == |s| && forall i :: 0 <= i < |s| ==> r[i] == ToLower(s[i])
  {
    seq(|s|, i requires 0 <= i < |s| => ToLower(s[i]))
  }

  /** A text without capitals is its own lower-case form. */
  lemma LowerAllOfLower(s: string)
    requires forall i :: 0 <= i < |s| ==> !IsUpper(s[i])
    ensures LowerAll(s) == s
  {
  }

  /** Lower-casing is idempotent. */
  lemma LowerAllTwice(s: string)
    ensures LowerAll(LowerAll(s)) == LowerAll(s)
  {
  }
}
