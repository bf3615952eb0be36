/** The string helpers of Go's standard library that the bridge relies on:
    unicode.IsSpace, strings.TrimSpace / bytes.TrimSpace, strings.Index for a
    single character, bytes.Replace of every newline by a space, and the split
    at the first occurrence of a separator. */
module Text {

  /** unicode.IsSpace: the Latin-1 white space characters and the other
      characters with Unicode's White_Space property. */
  predicate IsSpace(c: char) {
    var n := c as int;
    (9 <= n <= 13) || n == 32 || n == 0x85 || n == 0xA0 || n == 0x1680
    || (0x2000 <= n <= 0x200A) || n == 0x2028 || n == 0x2029 || n == 0x202F
    || n == 0x205F || n == 0x3000
  }

  predicate AllSpace(s: string) {
    forall i :: 0 <= i < |s| ==> IsSpace(s[i])
  }

  /** Neither starts nor ends with white space. */
  predicate IsTrimmed(s: string) {
    s == [] || (!IsSpace(s[0]) && !IsSpace(s[|s| - 1]))
  }

  /** The first position at or after i that does not hold white space (|s|
      if there is none). */
  function SkipSpace(s: string, i: nat): (k: nat)
    requires i <= |s|
    ensures i <= k <= |s|
    ensures forall j :: i <= j < k ==> IsSpace(s[j])
    ensures k < |s| ==> !IsSpace(s[k])
    decreases |s| - i
  {
    if i < |s| && IsSpace(s[i]) then SkipSpace(s, i + 1) else i
  }

  /** The end of s[..j] once the white space at its end, down to position lo,
      is dropped. */
  function SkipSpaceBack(s: string, lo: nat, j: nat): (k: nat)
    requires lo <= j <= |s|
    ensures lo <= k <= j
    ensures forall m :: k <= m < j ==> IsSpace(s[m])
    ensures k > lo ==> !IsSpace(s[k - 1])
    decreases j
  {
    if j > lo && IsSpace(s[j - 1]) then SkipSpaceBack(s, lo, j - 1) else j
  }

  /** Where TrimSpace(s) starts within s. */
  function TrimStart(s: string): (k: nat)
    ensures k <= |s|
  {
    SkipSpace(s, 0)
  }

  /** Where TrimSpace(s) ends within s. */
  function TrimEnd(s: string): (k: nat)
    ensures TrimStart(s) <= k <= |s|
  {
    SkipSpaceBack(s, TrimStart(s), |s|)
  }

  /** strings.TrimSpace: what is left of s after removing the white space at
      both ends. */
  function TrimSpace(s: string): (r: string)
    ensures IsTrimmed(r)
    ensures |r| <= |s|
  {
    s[TrimStart(s)..TrimEnd(s)]
  }

  /** TrimSpace(s) is the infix of s between a prefix and a suffix made only of
      white space. */
  lemma TrimSpaceInfix(s: string)
    ensures TrimStart(s) + |TrimSpace(s)| <= |s|
    ensures TrimSpace(s) == s[TrimStart(s)..TrimStart(s) + |TrimSpace(s)|]
    ensures AllSpace(s[..TrimStart(s)])
    ensures AllSpace(s[TrimStart(s) + |TrimSpace(s)|..])
  {
  }

  /** Trimming keeps no character that was not in s. */
  lemma TrimSpaceKeeps(s: string, c: char)
    requires c !in s
    ensures c !in TrimSpace(s)
  {
    assert TrimSpace(s) == s[TrimStart(s)..TrimEnd(s)];
  }

  /** Trimming a string that has no white space at its ends changes nothing. */
  lemma TrimmedIsFixed(s: string)
    requires IsTrimmed(s)
    ensures TrimSpace(s) == s
  {
    assert TrimStart(s) == 0;
    assert TrimEnd(s) == |s|;
  }

  /** Trimming is idempotent. */
  lemma TrimSpaceIdempotent(s: string)
    ensures TrimSpace(TrimSpace(s)) == TrimSpace(s)
  {
    TrimmedIsFixed(TrimSpace(s));
  }

  /** strings.Index(s, string(c)): the position of the first c, or -1. */
  function IndexOf(s: string, c: char): (r: int)
    ensures r == -1 <==> c !in s
    ensures r >= 0 ==> r < |s| && s[r] == c && c !in s[..r]
    ensures r >= -1
  {
    if s == [] then -1
    else if s[0] == c then 0
    else
      var k := IndexOf(s[1..], c);
      if k < 0 then -1 else k + 1
  }

  /** The two sides of a split at the first separator, and whether one was
      found; with none, everything is in `before` and `after` is empty. */
  datatype Cut = Cut(before: string, after: string, found: bool)

  /** Splits s at the first occurrence of sep (the msg[:i] / msg[i+1:] idiom
      around strings.Index). */
  function CutAt(s: string, sep: char): (r: Cut)
    ensures r.found <==> sep in s
    ensures r.found ==> s == r.before + [sep] + r.after && sep !in r.before
    ensures !r.found ==> r.before == s && r.after == []
  {
    var i := IndexOf(s, sep);
    if i < 0 then Cut(s, [], false)
    else
      assert s == s[..i] + [sep] + s[i + 1..];
      Cut(s[..i], s[i + 1..], true)
  }

  /** A string that has a separator-free prefix followed by the separator is
      split exactly there. */
  lemma CutAtFirst(a: string, sep: char, b: string)
    requires sep !in a
    ensures CutAt(a + [sep] + b, sep) == Cut(a, b, true)
  {
    var s := a + [sep] + b;
    var r := CutAt(s, sep);
    assert s[|a|] == sep;
    assert r.before == s[..|a|] == a;
    assert r.after == s[|a| + 1..] == b;
  }

  /** bytes.Replace(s, "\n", " ", -1): every newline becomes a space. */
  function ReplaceNewlines(s: string): (r: string)
    ensures |r| == |s|
    ensures forall i :: 0 <= i < |s| ==> r[i] == (if s[i] == '\n' then ' ' else s[i])
    ensures '\n' !in r
  {
    if s == [] then []
    else [if s[0] == '\n' then ' ' else s[0]] + ReplaceNewlines(s[1..])
  }
}
