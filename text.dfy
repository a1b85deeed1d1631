/** The few JavaScript string operations the builders rely on, over `seq<char>`. */
module Text {

  predicate StartsWith(s: string, prefix: string) {
    |prefix| <= |s| && s[..|prefix|] == prefix
  }

  lemma StartsWithTransitive(s: string, p: string, q: string)
    requires StartsWith(s, p) && StartsWith(p, q)
    ensures StartsWith(s, q)
  {
    assert s[..|q|] == s[..|p|][..|q|];
  }

  /** Dropping a common prefix keeps strings equal. */
  lemma PrefixCancels(prefix: string, x: string, y: string)
    requires prefix + x == prefix + y
    ensures x == y
  {
    assert x == (prefix + x)[|prefix|..];
    assert y == (prefix + y)[|prefix|..];
  }

  /** Two strings that differ at a position both have: the first does not start with the second. */
  lemma DiffersAt(s: string, prefix: string, i: nat)
    requires i < |s| && i < |prefix| && s[i] != prefix[i]
    ensures !StartsWith(s, prefix)
  {
    if |prefix| <= |s| { assert s[..|prefix|][i] == s[i]; }
  }

  predicate EndsWith(s: string, suffix: string) {
    |suffix| <= |s| && s[|s| - |suffix|..] == suffix
  }

  /** `pat` occurs in `s` starting at index `i`. */
  predicate OccursAt(s: string, pat: string, i: int) {
    0 <= i && i + |pat| <= |s| && s[i..i + |pat|] == pat
  }

  predicate Contains(s: string, pat: string) {
    exists i :: 0 <= i <= |s| && OccursAt(s, pat, i)
  }

  /** `i` is the leftmost occurrence of `pat` in `s`. */
  predicate IsFirstOccurrence(s: string, pat: string, i: int) {
    OccursAt(s, pat, i) && forall j :: 0 <= j < i ==> !OccursAt(s, pat, j)
  }

  /** `s.indexOf(pat, from)`: the leftmost occurrence at or after `from`, or -1 when there is none. */
  function IndexFrom(s: string, pat: string, from: nat): (r: int)
    ensures r == -1 || (from <= r && OccursAt(s, pat, r))
    ensures r == -1 ==> forall j :: from <= j ==> !OccursAt(s, pat, j)
    ensures r != -1 ==> forall j :: from <= j < r ==> !OccursAt(s, pat, j)
    decreases |s| - from
  {
    if |s| < from + |pat| then -1
    else if s[from..from + |pat|] == pat then from
    else IndexFrom(s, pat, from + 1)
  }

  function IndexOf(s: string, pat: string): (r: int)
    ensures r == -1 <==> !Contains(s, pat)
    ensures r != -1 ==> IsFirstOccurrence(s, pat, r)
  {
    IndexFrom(s, pat, 0)
  }

  /**
   * `s.replace(pat, rep)` with a string pattern: only the leftmost occurrence is replaced;
   * everything after it, later occurrences included, is kept as it was.
   */
  function ReplaceFirst(s: string, pat: string, rep: string): (r: string)
    ensures !Contains(s, pat) ==> r == s
    ensures forall i :: IsFirstOccurrence(s, pat, i) ==> r == s[..i] + rep + s[i + |pat|..]
  {
    var i := IndexOf(s, pat);
    if i == -1 then s else s[..i] + rep + s[i + |pat|..]
  }

  /** An occurrence inside the middle part of a concatenation is an occurrence in the whole. */
  lemma OccursInMiddle(a: string, b: string, c: string, sub: string, j: int)
    requires OccursAt(b, sub, j)
    ensures OccursAt(a + b + c, sub, |a| + j)
  {
    var w := a + b + c;
    assert w[|a| + j..|a| + j + |sub|] == b[j..j + |sub|];
  }

  /** Whatever `rep` contains, the text after a successful replacement contains too. */
  lemma ReplaceFirstContains(s: string, pat: string, rep: string, sub: string)
    requires Contains(s, pat) && Contains(rep, sub)
    ensures Contains(ReplaceFirst(s, pat, rep), sub)
  {
    var i := IndexOf(s, pat);
    var j :| 0 <= j <= |rep| && OccursAt(rep, sub, j);
    OccursInMiddle(s[..i], rep, s[i + |pat|..], sub, j);
  }

  /** `parts.join(sep)`. */
  function JoinWith(parts: seq<string>, sep: string): string
    decreases |parts|
  {
    if |parts| == 0 then ""
    else if |parts| == 1 then parts[0]
    else parts[0] + sep + JoinWith(parts[1..], sep)
  }

  lemma JoinWithThree(a: string, b: string, c: string, sep: string)
    ensures JoinWith([a, b, c], sep) == a + sep + b + sep + c
  {
    assert [a, b, c][1..] == [b, c];
    assert [b, c][1..] == [c];
    assert JoinWith([c], sep) == c;
    assert JoinWith([b, c], sep) == b + sep + c;
  }

  /** The middle of three parts joined together is contained in the result. */
  lemma JoinWithThreeContainsMiddle(a: string, b: string, c: string, sep: string)
    ensures Contains(JoinWith([a, b, c], sep), b)
  {
    JoinWithThree(a, b, c, sep);
    assert OccursAt(b, b, 0);
    OccursInMiddle(a + sep, b, sep + c, b, 0);
    assert a + sep + b + sep + c == (a + sep) + b + (sep + c);
  }
}
