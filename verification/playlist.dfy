/** The playlist URL classifier: a URL is playlist-bearing when any of three
    case-insensitive patterns occurs in it — a `list=` query parameter
    introduced by `&` or `?`, the text `playlist?`, or the path segment
    `/playlist`. Each pattern is a sequence of character classes; a position
    of the URL matches a class when its ASCII-folded character is in it. */
module Playlist {
  import opened CaseFold

  type CharClass = set<char>
  type Pattern = seq<CharClass>

  /** The pattern that matches exactly the characters of `lit`, one per class. */
  function Literal(lit: string): (p: Pattern)
    ensures |p| == |lit|
    ensures forall k :: 0 <= k < |lit| ==> p[k] == {lit[k]}
  {
    seq(|lit|, k requires 0 <= k < |lit| => {lit[k]})
  }

  /** `[&?]list=` */
  const ListParam: Pattern := [{'&', '?'}, {'l'}, {'i'}, {'s'}, {'t'}, {'='}]
  /** `playlist\?` */
  const PlaylistQuery: Pattern := Literal("playlist?")
  /** `/playlist` */
  const PlaylistPath: Pattern := Literal("/playlist")

  /** The patterns in the order the classifier tries them. */
  const Patterns: seq<Pattern> := [ListParam, PlaylistQuery, PlaylistPath]

  /** `p` matches `s` starting at position `i`, ignoring ASCII case. */
  predicate MatchesAt(p: Pattern, s: string, i: int) {
    0 <= i && i + |p| <= |s| && forall k :: 0 <= k < |p| ==> Fold(s[i + k]) in p[k]
  }

  /** `p` matches somewhere in `s` (an unanchored search). */
  predicate Search(p: Pattern, s: string) {
    exists i | 0 <= i <= |s| - |p| :: MatchesAt(p, s, i)
  }

  /** The classifier: some pattern of `Patterns` matches somewhere in the URL. */
  function IsPlaylist(url: string): (b: bool)
    ensures b <==> exists j, i :: 0 <= j < |Patterns| && MatchesAt(Patterns[j], url, i)
    ensures b ==> |url| >= |ListParam|
  {
    assert |PlaylistQuery| == |PlaylistPath| == 9;
    var b := Search(ListParam, url) || Search(PlaylistQuery, url) || Search(PlaylistPath, url);
    assert b ==> exists j, i :: 0 <= j < |Patterns| && MatchesAt(Patterns[j], url, i) by {
      if b {
        var j := if Search(ListParam, url) then 0 else if Search(PlaylistQuery, url) then 1 else 2;
        var i :| 0 <= i <= |url| - |Patterns[j]| && MatchesAt(Patterns[j], url, i);
      }
    }
    assert b <== exists j, i :: 0 <= j < |Patterns| && MatchesAt(Patterns[j], url, i) by {
      if exists j, i :: 0 <= j < |Patterns| && MatchesAt(Patterns[j], url, i) {
        var j, i :| 0 <= j < |Patterns| && MatchesAt(Patterns[j], url, i);
        assert Search(Patterns[j], url);
      }
    }
    b
  }

  /** Unanchored search, scanning start positions left to right. */
  method SearchScan(p: Pattern, s: string) returns (found: bool)
    ensures found == Search(p, s)
  {
    if |p| > |s| {
      return false;
    }
    var i := 0;
    while i <= |s| - |p|
      invariant 0 <= i <= |s| - |p| + 1
      invariant forall j :: 0 <= j < i ==> !MatchesAt(p, s, j)
    {
      var k := 0;
      while k < |p| && Fold(s[i + k]) in p[k]
        invariant 0 <= k <= |p|
        invariant forall q :: 0 <= q < k ==> Fold(s[i + q]) in p[q]
      {
        k := k + 1;
      }
      if k == |p| {
        assert MatchesAt(p, s, i);
        return true;
      }
      i := i + 1;
    }
    return false;
  }

  /** The classifier as the source runs it: try each pattern in turn and
      answer true at the first one that is found. */
  method ClassifyUrl(url: string) returns (b: bool)
    ensures b == IsPlaylist(url)
  {
    var j := 0;
    while j < |Patterns|
      invariant 0 <= j <= |Patterns|
      invariant forall q :: 0 <= q < j ==> !Search(Patterns[q], url)
    {
      var found := SearchScan(Patterns[j], url);
      if found {
        return true;
      }
      j := j + 1;
    }
    assert !Search(Patterns[0], url) && !Search(Patterns[1], url) && !Search(Patterns[2], url);
    return false;
  }

  /** `lit` occurs in `t` at position `i`. */
  ghost predicate OccursAt(t: string, lit: string, i: int) {
    0 <= i && i + |lit| <= |t| && t[i..i + |lit|] == lit
  }

  ghost predicate Contains(t: string, lit: string) {
    exists i :: OccursAt(t, lit, i)
  }

  lemma LiteralMatchesAt(lit: string, s: string, i: int)
    ensures MatchesAt(Literal(lit), s, i) <==> OccursAt(Lower(s), lit, i)
  {
    if MatchesAt(Literal(lit), s, i) {
      assert Lower(s)[i..i + |lit|] == lit;
    }
    if OccursAt(Lower(s), lit, i) {
      forall k | 0 <= k < |lit|
        ensures Fold(s[i + k]) in Literal(lit)[k]
      {
        assert Lower(s)[i..i + |lit|][k] == lit[k];
      }
    }
  }

  lemma ListParamMatchesAt(s: string, i: int)
    ensures MatchesAt(ListParam, s, i) <==> OccursAt(Lower(s), "?list=", i) || OccursAt(Lower(s), "&list=", i)
  {
    if MatchesAt(ListParam, s, i) {
      var lit := if Fold(s[i]) == '?' then "?list=" else "&list=";
      forall k | 0 <= k < 6
        ensures Lower(s)[i..i + 6][k] == lit[k]
      {
        assert Fold(s[i + k]) in ListParam[k];
      }
      assert Lower(s)[i..i + 6] == lit;
    }
    if OccursAt(Lower(s), "?list=", i) || OccursAt(Lower(s), "&list=", i) {
      var lit := if OccursAt(Lower(s), "?list=", i) then "?list=" else "&list=";
      forall k | 0 <= k < |ListParam|
        ensures Fold(s[i + k]) in ListParam[k]
      {
        assert Lower(s)[i..i + 6][k] == lit[k];
      }
    }
  }

  lemma SearchLiteral(lit: string, s: string)
    ensures Search(Literal(lit), s) <==> Contains(Lower(s), lit)
  {
    if Search(Literal(lit), s) {
      var i :| 0 <= i <= |s| - |lit| && MatchesAt(Literal(lit), s, i);
      LiteralMatchesAt(lit, s, i);
    }
    if Contains(Lower(s), lit) {
      var i :| OccursAt(Lower(s), lit, i);
      LiteralMatchesAt(lit, s, i);
    }
  }

  lemma SearchListParam(s: string)
    ensures Search(ListParam, s) <==> Contains(Lower(s), "?list=") || Contains(Lower(s), "&list=")
  {
    if Search(ListParam, s) {
      var i :| 0 <= i <= |s| - |ListParam| && MatchesAt(ListParam, s, i);
      ListParamMatchesAt(s, i);
    }
    if Contains(Lower(s), "?list=") {
      var i :| OccursAt(Lower(s), "?list=", i);
      ListParamMatchesAt(s, i);
    }
    if Contains(Lower(s), "&list=") {
      var i :| OccursAt(Lower(s), "&list=", i);
      ListParamMatchesAt(s, i);
    }
  }

  /** The classifier is exactly four substring tests on the lower-cased URL. */
  lemma IsPlaylistLiterals(url: string)
    ensures IsPlaylist(url) <==>
              || Contains(Lower(url), "?list=")
              || Contains(Lower(url), "&list=")
              || Contains(Lower(url), "playlist?")
              || Contains(Lower(url), "/playlist")
  {
    SearchListParam(url);
    SearchLiteral("playlist?", url);
    SearchLiteral("/playlist", url);
  }

  lemma MatchesAtUpToCase(p: Pattern, u: string, v: string, i: int)
    requires SameUpToCase(u, v)
    ensures MatchesAt(p, u, i) <==> MatchesAt(p, v, i)
  {
  }

  lemma SearchUpToCase(p: Pattern, u: string, v: string)
    requires SameUpToCase(u, v)
    ensures Search(p, u) <==> Search(p, v)
  {
    if Search(p, u) {
      var i :| 0 <= i <= |u| - |p| && MatchesAt(p, u, i);
      MatchesAtUpToCase(p, u, v, i);
    }
    if Search(p, v) {
      var i :| 0 <= i <= |v| - |p| && MatchesAt(p, v, i);
      MatchesAtUpToCase(p, u, v, i);
    }
  }

  /** Changing the case of ASCII letters never changes the classification. */
  lemma CaseInsensitive(u: string, v: string)
    requires SameUpToCase(u, v)
    ensures IsPlaylist(u) == IsPlaylist(v)
    ensures IsPlaylist(Lower(u)) == IsPlaylist(Upper(v)) == IsPlaylist(u)
  {
    SearchUpToCase(ListParam, u, v);
    SearchUpToCase(PlaylistQuery, u, v);
    SearchUpToCase(PlaylistPath, u, v);
    CaseChangeSameUpToCase(u);
    CaseChangeSameUpToCase(v);
    SearchUpToCase(ListParam, Lower(u), u);
    SearchUpToCase(PlaylistQuery, Lower(u), u);
    SearchUpToCase(PlaylistPath, Lower(u), u);
    SearchUpToCase(ListParam, Upper(v), v);
    SearchUpToCase(PlaylistQuery, Upper(v), v);
    SearchUpToCase(PlaylistPath, Upper(v), v);
  }
}
