/** The JavaScript string operations the glTF path rules rely on, over
    Dafny strings: a literal suffix test (what an anchored `/\.(x|y)$/`
    match checks), String.prototype.indexOf for a substring, `replace` with a
    plain-string pattern (first occurrence only), and the anchored
    `replace(/^(\.?\/)/, "")`. */
module JsStrings {

  /** `s` ends with `suffix`, character for character. */
  predicate EndsWith(s: string, suffix: string)
  {
    |suffix| <= |s| && s[|s| - |suffix|..] == suffix
  }

  /** `s` starts with `prefix`, character for character. */
  predicate StartsWith(s: string, prefix: string)
  {
    |prefix| <= |s| && s[..|prefix|] == prefix
  }

  /** `pat` occurs in `s` starting at index i. */
  predicate OccursAt(s: string, pat: string, i: nat)
  {
    i + |pat| <= |s| && s[i..i + |pat|] == pat
  }

  /** The first index at or after `from` where `pat` occurs, or -1. */
  function FindFrom(s: string, pat: string, from: nat): (r: int)
    decreases |s| - from
    ensures r == -1 || (from <= r && OccursAt(s, pat, r))
    ensures r == -1 ==> forall j :: from <= j ==> !OccursAt(s, pat, j)
    ensures r >= 0 ==> forall j :: from <= j < r ==> !OccursAt(s, pat, j)
  {
    if from + |pat| > |s| then -1
    else if OccursAt(s, pat, from) then from
    else FindFrom(s, pat, from + 1)
  }

  /** String.prototype.indexOf with a string argument: the first index
      where `pat` occurs, 0 for the empty pattern, -1 when it does not
      occur. */
  function Find(s: string, pat: string): (r: int)
    ensures -1 <= r <= |s|
    ensures r == -1 <==> forall j :: !OccursAt(s, pat, j)
    ensures r >= 0 ==> OccursAt(s, pat, r) && forall j :: 0 <= j < r ==> !OccursAt(s, pat, j)
  {
    FindFrom(s, pat, 0)
  }

  /** `s.replace(pat, rep)` with a plain-string pattern: only the first
      occurrence is replaced; without one, `s` is returned unchanged. */
  function ReplaceFirst(s: string, pat: string, rep: string): (r: string)
    ensures (forall j :: !OccursAt(s, pat, j)) ==> r == s
    ensures Find(s, pat) >= 0 ==> |r| == |s| - |pat| + |rep| && OccursAt(r, rep, Find(s, pat))
    ensures Find(s, pat) >= 0 ==> StartsWith(r, s[..Find(s, pat)]) && EndsWith(r, s[Find(s, pat) + |pat|..])
  {
    var k := Find(s, pat);
    if k < 0 then s else s[..k] + rep + s[k + |pat|..]
  }

  /** Replacing the first occurrence: what precedes it is kept, what
      follows it is kept, and nothing changes when there is none. */
  lemma ReplaceFirstSplits(s: string, pat: string, rep: string)
    ensures Find(s, pat) < 0 ==> ReplaceFirst(s, pat, rep) == s
    ensures Find(s, pat) >= 0 ==>
      exists pre, post :: && s == pre + pat + post
                          && ReplaceFirst(s, pat, rep) == pre + rep + post
                          && forall j :: 0 <= j < |pre| ==> !OccursAt(s, pat, j)
  {
    var k := Find(s, pat);
    if k >= 0 {
      var pre, post := s[..k], s[k + |pat|..];
      assert s == pre + pat + post by {
        assert s == s[..k] + s[k..k + |pat|] + s[k + |pat|..];
      }
    }
  }

  /** A pattern at the very start is the first occurrence. */
  lemma FindPrefix(p: string, rest: string)
    ensures Find(p + rest, p) == 0
  {
    assert (p + rest)[0..|p|] == p;
    assert OccursAt(p + rest, p, 0);
  }

  /** Removing a prefix that is the pattern leaves the rest. */
  lemma ReplacePrefix(p: string, rest: string)
    ensures ReplaceFirst(p + rest, p, "") == rest
  {
    FindPrefix(p, rest);
    assert (p + rest)[|p|..] == rest;
  }

  /** Removing a name that first occurs at the end of a path leaves the
      part before it. */
  lemma ReplaceFirstTrailing(dir: string, name: string)
    requires forall j :: 0 <= j < |dir| ==> !OccursAt(dir + name, name, j)
    ensures ReplaceFirst(dir + name, name, "") == dir
  {
    var s := dir + name;
    assert OccursAt(s, name, |dir|) by {
      assert s[|dir|..|dir| + |name|] == name;
    }
    var k := Find(s, name);
    assert k == |dir|;
    assert s[..k] == dir;
    assert s[k + |name|..] == [];
  }

  /** `replace(/^(\.?\/)/, "")`: one leading "./", or else one leading
      "/", is removed; anything else is left alone. */
  function StripDotSlash(s: string): (r: string)
    ensures |s| - 2 <= |r| <= |s| && r == s[|s| - |r|..]
    ensures s[..|s| - |r|] in {"", "/", "./"}
    ensures |r| == |s| <==> !StartsWith(s, "/") && !StartsWith(s, "./")
  {
    if StartsWith(s, "./") then s[2..]
    else if StartsWith(s, "/") then s[1..]
    else s
  }
}
