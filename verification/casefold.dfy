/** ASCII case folding, the approximation of case-insensitive matching used
    by the playlist classifier. Only the letters A-Z are folded; every other
    character is its own folded form. */
module CaseFold {

  predicate IsUpper(c: char) {
    'A' <= c <= 'Z'
  }

  predicate IsLower(c: char) {
    'a' <= c <= 'z'
  }

  /** The lower-case form of an ASCII letter; any other character unchanged. */
  function Fold(c: char): (d: char)
    ensures !IsUpper(d)
    ensures IsUpper(c) ==> IsLower(d) && d as int - c as int == 32
    ensures !IsUpper(c) ==> d == c
  {
    if IsUpper(c) then (c as int + 32) as char else c
  }

  /** The upper-case form of an ASCII letter; any other character unchanged. */
  function Unfold(c: char): (d: char)
    ensures Fold(d) == Fold(c)
    ensures !IsLower(d)
  {
    if IsLower(c) then (c as int - 32) as char else c
  }

  function Lower(s: string): (t: string)
    ensures |t| == |s|
    ensures forall i :: 0 <= i < |s| ==> t[i] == Fold(s[i])
  {
    seq(|s|, i requires 0 <= i < |s| => Fold(s[i]))
  }

  function Upper(s: string): (t: string)
    ensures |t| == |s|
    ensures forall i :: 0 <= i < |s| ==> t[i] == Unfold(s[i])
  {
    seq(|s|, i requires 0 <= i < |s| => Unfold(s[i]))
  }

  /** `u` and `v` differ at most in the case of ASCII letters. */
  predicate SameUpToCase(u: string, v: string) {
    |u| == |v| && forall i :: 0 <= i < |u| ==> Fold(u[i]) == Fold(v[i])
  }

  lemma CaseChangeSameUpToCase(s: string)
    ensures SameUpToCase(Upper(s), s)
    ensures SameUpToCase(Lower(s), s)
  {
  }
}
