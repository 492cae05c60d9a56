/**
 * ASCII case folding and prefix tests over strings: the model's choice of
 * the string operations behind the case-insensitive comparisons of the
 * configuration helpers.
 */
module Ascii {

  predicate IsUpper(c: char) {
    'A' <= c <= 'Z'
  }

  /** Maps an ASCII capital to its small letter and leaves every other character alone. */
  function LowerChar(c: char): (r: char)
    ensures !IsUpper(r)
    ensures IsUpper(c) ==> r as int == c as int + 32
    ensures !IsUpper(c) ==> r == c
  {
    if IsUpper(c) then (c as int + 32) as char else c
  }

  /** The string with every ASCII capital replaced by its small letter. */
  function Lower(s: string): (r: string)
    ensures |r| == |s|
    ensures forall i :: 0 <= i < |s| ==> r[i] == LowerChar(s[i])
  {
    seq(|s|, i requires 0 <= i < |s| => LowerChar(s[i]))
  }

  /** No character of `s` is an ASCII capital. */
  predicate IsLower(s: string) {
    forall i :: 0 <= i < |s| ==> !IsUpper(s[i])
  }

  /** `prefix` is an initial segment of `s`. */
  predicate StartsWith(s: string, prefix: string) {
    prefix <= s
  }

  /** Prefixing a lower-case string commutes with lowering. */
  lemma LowerLowerPrefix(p: string, suffix: string)
    requires IsLower(p)
    ensures Lower(p + suffix) == p + Lower(suffix)
    ensures StartsWith(Lower(p + suffix), p)
  {
  }

  /** An identifier that starts with a lower-case prefix still starts with it once lowered. */
  lemma LowerKeepsLowerPrefix(s: string, p: string)
    requires IsLower(p) && StartsWith(s, p)
    ensures StartsWith(Lower(s), p)
  {
  }
}
