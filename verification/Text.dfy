/** Strings as sequences of characters: the few library operations the driver leans on. */
module Text {

  datatype Option<+T> = None | Some(value: T)

  predicate HasPrefix(s: string, prefix: string) {
    |prefix| <= |s| && s[..|prefix|] == prefix
  }

  predicate HasSuffix(s: string, suffix: string) {
    |suffix| <= |s| && s[|s| - |suffix|..] == suffix
  }

  /** A suffix that is shorter than the string itself. */
  predicate ProperSuffix(s: string, suffix: string) {
    |suffix| < |s| && HasSuffix(s, suffix)
  }

  predicate Free(s: string, c: char) {
    c !in s
  }

  /** strings.ReplaceAll for a non-empty pattern: leftmost, non-overlapping, never rescanned. */
  function ReplaceAll(s: string, pattern: string, replacement: string): string
    requires pattern != ""
    decreases |s|
  {
    if |s| < |pattern| then s
    else if HasPrefix(s, pattern) then replacement + ReplaceAll(s[|pattern|..], pattern, replacement)
    else [s[0]] + ReplaceAll(s[1..], pattern, replacement)
  }

  lemma DifferAt(a: string, b: string, i: nat)
    requires i < |a| && i < |b| && a[i] != b[i]
    ensures !HasPrefix(a, b) && !HasPrefix(b, a)
  {
    assert |b| <= |a| ==> a[..|b|][i] == a[i];
    assert |a| <= |b| ==> b[..|a|][i] == b[i];
  }

  lemma SuffixOfSuffix(s: string, longer: string, shorter: string)
    requires HasSuffix(s, longer) && |shorter| <= |longer|
    ensures HasSuffix(s, shorter) <==> HasSuffix(longer, shorter)
  {
    assert s[|s| - |longer|..][|longer| - |shorter|..] == s[|s| - |shorter|..];
  }

  /** Cutting both sides at their first `c` is unambiguous. */
  lemma FirstCutUnique(a: string, b: string, x: string, y: string, c: char)
    requires Free(a, c) && Free(x, c)
    requires a + [c] + b == x + [c] + y
    ensures a == x && b == y
  {
    var l, r := a + [c] + b, x + [c] + y;
    assert forall k | 0 <= k < |a| :: l[k] == a[k] && a[k] != c;
    assert forall k | 0 <= k < |x| :: r[k] == x[k] && x[k] != c;
    assert l[|a|] == c && r[|x|] == c;
    assert |a| == |x|;
    assert a == l[..|a|] && x == r[..|x|];
    assert b == l[|a| + 1..] && y == r[|x| + 1..];
  }

  lemma Associate(a: string, b: string, c: string)
    ensures a + b + c == a + (b + c)
  {
  }

  lemma NothingBefore(r: string)
    ensures "" + r == r
  {
  }

  ghost predicate Distinct(names: seq<string>) {
    forall i, j | 0 <= i < j < |names| :: names[i] != names[j]
  }

  ghost function Elements(names: seq<string>): set<string> {
    set n | n in names
  }

  /** Position of the first `c`, or the length when there is none. */
  function IndexOf(s: string, c: char): (i: nat)
    ensures i <= |s| && Free(s[..i], c) && (i < |s| ==> s[i] == c)
  {
    if s == "" || s[0] == c then 0
    else
      var i := 1 + IndexOf(s[1..], c);
      assert s[..i] == [s[0]] + s[1..][..i - 1];
      i
  }

  lemma IndexOfSplit(p: string, rest: string, c: char)
    requires Free(p, c)
    ensures IndexOf(p + [c] + rest, c) == |p|
    ensures (p + [c] + rest)[..|p|] == p && (p + [c] + rest)[|p| + 1..] == rest
  {
    var s := p + [c] + rest;
    var i := IndexOf(s, c);
    assert forall k | 0 <= k < i :: s[..i][k] == s[k] && s[k] != c;
    assert forall k | 0 <= k < |p| :: s[k] == p[k] && p[k] != c;
    assert s[|p|] == c && i <= |p|;
  }

  function ToLowerChar(c: char): char {
    if 'A' <= c <= 'Z' then (c as int + 32) as char else c
  }

  /** strings.ToLower on ASCII. */
  function ToLower(s: string): (r: string)
    ensures |r| == |s|
  {
    seq(|s|, i requires 0 <= i < |s| => ToLowerChar(s[i]))
  }
}
