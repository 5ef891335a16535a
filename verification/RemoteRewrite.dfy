/** rewriteRemoteReferences: renaming `name:` tokens inside a config value by whole-string replacement passes. */
module RemoteRewrite {
  import opened Text

  // ---------------------------------------------------------------- the passes, as the code runs them

  /** One `strings.ReplaceAll(result, old+":", new+":")`. */
  function Pass(v: string, name: string, replacement: string): string {
    ReplaceAll(v, name + ":", replacement + ":")
  }

  function Passes(v: string, names: seq<string>, rename: map<string, string>): string
    requires forall n | n in names :: n in rename
    decreases |names|
  {
    if names == [] then v else Passes(Pass(v, names[0], rename[names[0]]), names[1..], rename)
  }

  ghost predicate LongestFirst(names: seq<string>) {
    forall i, j | 0 <= i < j < |names| :: |names[i]| >= |names[j]|
  }

  /** Some outcome of `sort.Slice` by descending length: names of equal length may come in any order. */
  ghost predicate SortOutcome(names: seq<string>, keys: set<string>) {
    LongestFirst(names) && Distinct(names) && forall n :: n in names <==> n in keys
  }

  /** Every name is renamed to the same prefix followed by itself, as isolateConfigRemotes does. */
  ghost predicate PrefixRename(rename: map<string, string>, prefix: string) {
    forall n | n in rename :: rename[n] == prefix + n
  }

  ghost predicate AllFree(names: set<string>, c: char) {
    forall n | n in names :: Free(n, c)
  }

  // ---------------------------------------------------------------- a description without passes or order

  /** Put the prefix in front of the last `len` characters. */
  function Insert(p: string, prefix: string, len: nat): (r: string)
    requires len <= |p|
    ensures |r| == |p| + |prefix|
  {
    p[..|p| - len] + prefix + p[|p| - len..]
  }

  function InsertStep(p: string, names: set<string>, prefix: string, len: nat): (r: string) {
    if len <= |p| && p[|p| - len..] in names then Insert(p, prefix, len) else p
  }

  /** Go through the lengths downwards; whenever the last `len` characters are a name, put the prefix before them. */
  function InsertAt(p: string, names: set<string>, prefix: string, len: nat): (r: string)
    ensures |r| >= |p|
    decreases len
  {
    var p' := InsertStep(p, names, prefix, len);
    if len == 0 then p' else InsertAt(p', names, prefix, len - 1)
  }

  function RewritePiece(p: string, names: set<string>, prefix: string): string {
    InsertAt(p, names, prefix, |p|)
  }

  /** The effect of all passes, piece by colon-ended piece. */
  function Rewritten(v: string, names: set<string>, prefix: string): string
    decreases |v|
  {
    var i := IndexOf(v, ':');
    if i == |v| then v else RewritePiece(v[..i], names, prefix) + ":" + Rewritten(v[i + 1..], names, prefix)
  }

  // ---------------------------------------------------------------- passes == description

  function PiecePass(p: string, name: string, replacement: string): string {
    if HasSuffix(p, name) then p[..|p| - |name|] + replacement else p
  }

  function PiecePasses(p: string, names: seq<string>, rename: map<string, string>): string
    requires forall n | n in names :: n in rename
    decreases |names|
  {
    if names == [] then p else PiecePasses(PiecePass(p, names[0], rename[names[0]]), names[1..], rename)
  }

  lemma {:induction false} PassOnTail(v: string, name: string, replacement: string)
    requires Free(v, ':')
    ensures Pass(v, name, replacement) == v
    decreases |v|
  {
    var pattern := name + ":";
    assert pattern[|name|] == ':';
    if |v| >= |pattern| {
      assert v[..|pattern|][|name|] == v[|name|];
      PassOnTail(v[1..], name, replacement);
      assert [v[0]] + v[1..] == v;
    }
  }

  lemma {:induction false} PassOnPiece(p: string, rest: string, name: string, replacement: string)
    requires Free(p, ':') && Free(name, ':')
    ensures Pass(p + ":" + rest, name, replacement)
         == PiecePass(p, name, replacement) + ":" + Pass(rest, name, replacement)
    decreases |p|
  {
    if p == name {
      PassHere(name, rest, replacement);
    } else {
      NoMatchAtStart(p, rest, name);
      if p == "" {
        PassColon(rest, name, replacement);
      } else {
        PassOnPiece(p[1..], rest, name, replacement);
        PassOneOn(p, rest, name, replacement);
      }
    }
  }

  /** The first character is copied. */
  lemma PassOneOn(p: string, rest: string, name: string, replacement: string)
    requires p != "" && p != name && !HasPrefix(p + ":" + rest, name + ":")
    requires Pass(p[1..] + ":" + rest, name, replacement)
          == PiecePass(p[1..], name, replacement) + ":" + Pass(rest, name, replacement)
    ensures Pass(p + ":" + rest, name, replacement)
         == PiecePass(p, name, replacement) + ":" + Pass(rest, name, replacement)
  {
    PassSkip(p, rest, name, replacement);
    PieceOneOn(p, name, replacement);
    Associate([p[0]], PiecePass(p[1..], name, replacement), ":");
    Associate([p[0]], PiecePass(p[1..], name, replacement) + ":", Pass(rest, name, replacement));
  }

  lemma PieceOneOn(p: string, name: string, replacement: string)
    requires p != "" && p != name
    ensures PiecePass(p, name, replacement) == [p[0]] + PiecePass(p[1..], name, replacement)
  {
    SuffixOfTail(p, name);
    if HasSuffix(p, name) {
      assert p[..|p| - |name|] == [p[0]] + p[1..][..|p| - 1 - |name|];
      Associate([p[0]], p[1..][..|p| - 1 - |name|], replacement);
    } else {
      assert p == [p[0]] + p[1..];
    }
  }

  lemma PassHere(name: string, rest: string, replacement: string)
    ensures Pass(name + ":" + rest, name, replacement) == replacement + ":" + Pass(rest, name, replacement)
    ensures PiecePass(name, name, replacement) == replacement
  {
    var v, pattern := name + ":" + rest, name + ":";
    assert v[..|pattern|] == pattern && v[|pattern|..] == rest;
    assert name[|name| - |name|..] == name && name[..0] + replacement == replacement;
  }

  lemma PassColon(rest: string, name: string, replacement: string)
    requires name != "" && !HasPrefix(":" + rest, name + ":")
    ensures Pass("" + ":" + rest, name, replacement)
         == PiecePass("", name, replacement) + ":" + Pass(rest, name, replacement)
  {
    var v := ":" + rest;
    assert "" + ":" + rest == v && v[1..] == rest && [v[0]] == ":";
    assert Pass(v, name, replacement) == ":" + Pass(rest, name, replacement);
  }

  lemma PassSkip(p: string, rest: string, name: string, replacement: string)
    requires p != "" && !HasPrefix(p + ":" + rest, name + ":")
    ensures Pass(p + ":" + rest, name, replacement) == [p[0]] + Pass(p[1..] + ":" + rest, name, replacement)
  {
    var v := p + ":" + rest;
    assert v[0] == p[0] && v[1..] == p[1..] + ":" + rest && [v[0]] + v[1..] == v;
  }

  lemma NoMatchAtStart(p: string, rest: string, name: string)
    requires Free(p, ':') && Free(name, ':') && p != name
    ensures !HasPrefix(p + ":" + rest, name + ":")
  {
    var v, pattern := p + ":" + rest, name + ":";
    if HasPrefix(v, pattern) {
      assert v == name + [':'] + v[|pattern|..];
      assert v == p + [':'] + rest;
      FirstCutUnique(p, rest, name, v[|pattern|..], ':');
    }
  }

  lemma SuffixOfTail(p: string, name: string)
    requires p != "" && p != name
    ensures HasSuffix(p, name) <==> HasSuffix(p[1..], name)
    ensures HasSuffix(p, name) ==> p[..|p| - |name|] == [p[0]] + p[1..][..|p| - 1 - |name|]
  {
    if |name| < |p| {
      assert p[1..][|p| - 1 - |name|..] == p[|p| - |name|..];
    } else if |name| == |p| {
      assert p[0..] == p;
    }
  }

  lemma {:induction false} PassesOnPiece(p: string, rest: string, names: seq<string>, rename: map<string, string>)
    requires Free(p, ':')
    requires forall n | n in names :: n in rename && Free(n, ':') && Free(rename[n], ':')
    ensures Passes(p + ":" + rest, names, rename) == PiecePasses(p, names, rename) + ":" + Passes(rest, names, rename)
    decreases |names|
  {
    if names != [] {
      var n := names[0];
      PassOnPiece(p, rest, n, rename[n]);
      PassesOnPiece(PiecePass(p, n, rename[n]), Pass(rest, n, rename[n]), names[1..], rename);
    }
  }

  lemma {:induction false} PassesOnTail(v: string, names: seq<string>, rename: map<string, string>)
    requires Free(v, ':') && forall n | n in names :: n in rename
    ensures Passes(v, names, rename) == v
    decreases |names|
  {
    if names != [] {
      PassOnTail(v, names[0], rename[names[0]]);
      PassesOnTail(v, names[1..], rename);
    }
  }

  /** Names longer than `len` play no part. */
  lemma {:induction false} InsertAtCongruence(p: string, a: set<string>, b: set<string>, prefix: string, len: nat)
    requires forall n | |n| <= len :: n in a <==> n in b
    ensures InsertAt(p, a, prefix, len) == InsertAt(p, b, prefix, len)
    decreases len
  {
    if len > 0 {
      InsertAtCongruence(InsertStep(p, a, prefix, len), a, b, prefix, len - 1);
    }
  }

  lemma {:induction false} InsertAtFromAbove(p: string, names: set<string>, prefix: string, len: nat)
    requires len >= |p|
    ensures InsertAt(p, names, prefix, len) == RewritePiece(p, names, prefix)
    decreases len
  {
    if len > |p| {
      InsertAtFromAbove(p, names, prefix, len - 1);
    }
  }

  lemma NoNameThatLong(p: string, names: set<string>, prefix: string, len: nat)
    requires len > 0 && forall n | n in names :: |n| < len
    ensures InsertAt(p, names, prefix, len) == InsertAt(p, names, prefix, len - 1)
  {
    assert InsertStep(p, names, prefix, len) == p;
  }

  /** What the passes ask of a list of names, for names of at most this length. */
  ghost predicate Sorted(names: seq<string>, rename: map<string, string>, prefix: string, len: nat) {
    && (forall n | n in names :: n in rename && rename[n] == prefix + n && |n| <= len)
    && LongestFirst(names) && Distinct(names)
  }

  lemma SortedShorter(names: seq<string>, rename: map<string, string>, prefix: string, len: nat)
    requires names != [] && Sorted(names, rename, prefix, len) && |names[0]| < len
    ensures Sorted(names, rename, prefix, len - 1)
  {
    forall n | n in names ensures |n| < len {
      var i :| 0 <= i < |names| && names[i] == n;
    }
  }

  lemma SortedTail(names: seq<string>, rename: map<string, string>, prefix: string, len: nat)
    requires names != [] && Sorted(names, rename, prefix, len)
    ensures Sorted(names[1..], rename, prefix, len)
  {
    assert forall n | n in names[1..] :: n in names;
  }

  lemma {:induction false} PiecePassesAreInsertions(
    p: string, names: seq<string>, rename: map<string, string>, prefix: string, len: nat)
    requires Sorted(names, rename, prefix, len)
    ensures PiecePasses(p, names, rename) == InsertAt(p, Elements(names), prefix, len)
    decreases len, |names|
  {
    if names == [] {
      assert Elements(names) == {};
      NoHitAt(p, {}, prefix, len);
    } else if |names[0]| < len {
      SortedShorter(names, rename, prefix, len);
      PiecePassesAreInsertions(p, names, rename, prefix, len - 1);
      NoNameThatLong(p, Elements(names), prefix, len);
    } else {
      assert names[0] in names;
      SortedTail(names, rename, prefix, len);
      PiecePassesAreInsertions(PiecePass(p, names[0], rename[names[0]]), names[1..], rename, prefix, len);
      LeadingName(p, names, prefix, rename[names[0]], len);
    }
  }

  lemma LeadingStep(p: string, n: string, rest: set<string>, prefix: string)
    requires n !in rest
    ensures InsertStep(PiecePass(p, n, prefix + n), rest, prefix, |n|) == InsertStep(p, rest + {n}, prefix, |n|)
  {
    PiecePassIsInsert(p, n, prefix);
    if HasSuffix(p, n) {
      assert p[|p| - |n|..] in rest + {n};
    } else if |n| <= |p| {
      assert p[|p| - |n|..] != n;
    }
  }

  /** Handling the first of the longest names by a pass of its own changes nothing. */
  lemma LeadingName(p: string, names: seq<string>, prefix: string, replacement: string, len: nat)
    requires names != [] && |names[0]| == len && replacement == prefix + names[0] && Distinct(names)
    ensures InsertAt(PiecePass(p, names[0], replacement), Elements(names[1..]), prefix, len)
         == InsertAt(p, Elements(names), prefix, len)
  {
    var n, rest, all := names[0], Elements(names[1..]), Elements(names);
    assert n !in rest && all == rest + {n} by {
      assert names == [n] + names[1..];
    }
    LeadingStep(p, n, rest, prefix);
    if len > 0 {
      InsertAtCongruence(InsertStep(p, all, prefix, len), rest, all, prefix, len - 1);
    }
  }

  lemma PiecePassIsInsert(p: string, n: string, prefix: string)
    ensures HasSuffix(p, n) ==> PiecePass(p, n, prefix + n) == Insert(p, prefix, |n|)
    ensures HasSuffix(p, n) ==> var r := Insert(p, prefix, |n|); r[|r| - |n|..] == n
  {
    if HasSuffix(p, n) {
      InsertKeepsEnd(p, prefix, |n|);
      assert p[..|p| - |n|] + (prefix + n) == p[..|p| - |n|] + prefix + n;
    }
  }

  lemma InsertKeepsEnd(p: string, prefix: string, len: nat)
    requires len <= |p|
    ensures var r := Insert(p, prefix, len); r[|r| - len..] == p[|p| - len..]
  {
  }

  lemma PieceIsRewritten(p: string, names: seq<string>, rename: map<string, string>, prefix: string)
    requires SortOutcome(names, rename.Keys) && PrefixRename(rename, prefix)
    ensures PiecePasses(p, names, rename) == RewritePiece(p, rename.Keys, prefix)
  {
    var len := if names == [] || |names[0]| < |p| then |p| else |names[0]|;
    forall n | n in names ensures |n| <= len {
      var j :| 0 <= j < |names| && names[j] == n;
    }
    PiecePassesAreInsertions(p, names, rename, prefix, len);
    assert Elements(names) == rename.Keys;
    InsertAtFromAbove(p, rename.Keys, prefix, len);
  }

  /** The passes compute `Rewritten`, whatever order the sort gives names of equal length. */
  lemma {:induction false} PassesAreRewritten(
    v: string, names: seq<string>, rename: map<string, string>, prefix: string)
    requires SortOutcome(names, rename.Keys) && PrefixRename(rename, prefix)
    requires AllFree(rename.Keys, ':') && Free(prefix, ':')
    ensures Passes(v, names, rename) == Rewritten(v, rename.Keys, prefix)
    decreases |v|
  {
    var i := IndexOf(v, ':');
    if i == |v| {
      assert v[..i] == v;
      PassesOnTail(v, names, rename);
    } else {
      var p, rest := v[..i], v[i + 1..];
      assert v == p + ":" + rest;
      PassesOnPiece(p, rest, names, rename);
      PieceIsRewritten(p, names, rename, prefix);
      PassesAreRewritten(rest, names, rename, prefix);
    }
  }

  // ---------------------------------------------------------------- what a rewrite should mean

  /** The reference that a colon ends: everything after the last separator before that colon. */
  function Token(p: string, seps: set<char>): (t: string)
    ensures |t| <= |p|
  {
    if p == "" || p[|p| - 1] in seps then ""
    else Token(p[..|p| - 1], seps) + [p[|p| - 1]]
  }

  lemma {:induction false} TokenSpec(p: string, seps: set<char>)
    ensures HasSuffix(p, Token(p, seps)) && forall c | c in Token(p, seps) :: c !in seps
  {
    if p != "" && p[|p| - 1] !in seps {
      var front := p[..|p| - 1];
      TokenSpec(front, seps);
      assert p == front + [p[|p| - 1]];
    }
  }

  /** All references of a value, in order. */
  function Tokens(v: string, seps: set<char>): seq<string>
    decreases |v|
  {
    var i := IndexOf(v, ':');
    if i == |v| then [] else [Token(v[..i], seps)] + Tokens(v[i + 1..], seps)
  }

  function RenamedToken(t: string, names: set<string>, prefix: string): string {
    if t in names then prefix + t else t
  }

  function SimultaneousPiece(p: string, names: set<string>, prefix: string, seps: set<char>): string {
    var t := Token(p, seps);
    p[..|p| - |t|] + RenamedToken(t, names, prefix)
  }

  /** One left-to-right scan that renames each reference once and copies the rest. */
  function Simultaneous(v: string, names: set<string>, prefix: string, seps: set<char>): string
    decreases |v|
  {
    var i := IndexOf(v, ':');
    if i == |v| then v
    else SimultaneousPiece(v[..i], names, prefix, seps) + ":" + Simultaneous(v[i + 1..], names, prefix, seps)
  }

  /** No section name is a proper suffix of one of the value's references. */
  ghost predicate Unambiguous(v: string, names: set<string>, seps: set<char>) {
    forall t, n | t in Tokens(v, seps) && n in names :: !ProperSuffix(t, n)
  }

  ghost predicate SepFree(names: set<string>, seps: set<char>) {
    forall n, c | n in names && c in n :: c !in seps
  }

  ghost predicate Hit(p: string, names: set<string>, len: nat) {
    len <= |p| && p[|p| - len..] in names
  }

  lemma AtHit(p: string, names: set<string>, prefix: string, len: nat)
    requires Hit(p, names, len)
    ensures |InsertAt(p, names, prefix, len)| >= |p| + |prefix|
  {
  }

  lemma AtMiss(p: string, names: set<string>, prefix: string, len: nat)
    requires !Hit(p, names, len) && len > 0
    ensures InsertAt(p, names, prefix, len) == InsertAt(p, names, prefix, len - 1)
  {
  }

  lemma HitIsSuffix(p: string, names: set<string>, len: nat)
    requires Hit(p, names, len)
    ensures var x := p[|p| - len..]; x in names && HasSuffix(p, x) && |x| == len
  {
  }

  lemma {:induction false} NoHitAt(p: string, names: set<string>, prefix: string, len: nat)
    requires forall k | 0 <= k <= len :: !Hit(p, names, k)
    ensures InsertAt(p, names, prefix, len) == p
    decreases len
  {
    if len > 0 {
      AtMiss(p, names, prefix, len);
      NoHitAt(p, names, prefix, len - 1);
    } else {
      assert !Hit(p, names, 0);
      LastMiss(p, names, prefix);
    }
  }

  lemma LastMiss(p: string, names: set<string>, prefix: string)
    requires !Hit(p, names, 0)
    ensures InsertAt(p, names, prefix, 0) == p
  {
  }

  /** What is put before the last `at` characters does not change how many of them are a name. */
  lemma ShorterHitsSame(p: string, names: set<string>, prefix: string, at: nat, k: nat)
    requires k <= at <= |p|
    ensures Hit(InsertStep(p, names, prefix, at), names, k) <==> Hit(p, names, k)
  {
    var p' := InsertStep(p, names, prefix, at);
    if p' != p {
      assert p' == p[..|p| - at] + prefix + p[|p| - at..];
      assert p'[|p'| - k..] == p[|p| - k..];
    }
  }

  lemma {:induction false} OneHitAt(p: string, names: set<string>, prefix: string, at: nat, len: nat)
    requires at <= len && at <= |p| && forall k | 0 <= k <= len && k != at :: !Hit(p, names, k)
    ensures InsertAt(p, names, prefix, len) == InsertStep(p, names, prefix, at)
    decreases len
  {
    if len > at {
      AtMiss(p, names, prefix, len);
      OneHitAt(p, names, prefix, at, len - 1);
    } else if at > 0 {
      var p' := InsertStep(p, names, prefix, at);
      forall k | 0 <= k <= at - 1 ensures !Hit(p', names, k) {
        ShorterHitsSame(p, names, prefix, at, k);
      }
      NoHitAt(p', names, prefix, at - 1);
    }
  }

  lemma OneHit(p: string, t: string, names: set<string>, prefix: string, len: nat)
    requires HasSuffix(p, t) && |t| <= len
    requires forall n | n in names && |n| <= len && HasSuffix(p, n) :: n == t
    ensures InsertAt(p, names, prefix, len) == if t in names then Insert(p, prefix, |t|) else p
  {
    forall k | 0 <= k <= len && k != |t| ensures !Hit(p, names, k) {
      if Hit(p, names, k) {
        HitIsSuffix(p, names, k);
      }
    }
    OneHitAt(p, names, prefix, |t|, len);
  }

  /** A name that ends in another one is rewritten twice. */
  lemma NestedPiece(u: string, n: string, names: set<string>, prefix: string)
    requires u != "" && u + n in names && n in names
    requires forall x | x in names && HasSuffix(u + n, x) :: x == n || x == u + n
    ensures RewritePiece(u + n, names, prefix) == prefix + u + prefix + n
  {
    var p := u + n;
    WholeStep(p, names, prefix);
    AfterStep(p, names, prefix, |p|);
    NestedEnds(prefix, u, n);
    forall k | 0 <= k < |p| && k != |n| ensures !Hit(prefix + p, names, k) {
      InnerHit(prefix, p, n, names, k);
    }
    InnerStep(prefix + p, n, names, prefix);
    OneHitAt(prefix + p, names, prefix, |n|, |p| - 1);
  }

  lemma InnerHit(prefix: string, p: string, n: string, names: set<string>, k: nat)
    requires k < |p| && k != |n| && forall x | x in names && HasSuffix(p, x) :: x == n || x == p
    ensures !Hit(prefix + p, names, k)
  {
    assert (prefix + p)[|prefix + p| - k..] == p[|p| - k..];
    if Hit(p, names, k) {
      HitIsSuffix(p, names, k);
    }
  }

  lemma InnerStep(p: string, n: string, names: set<string>, prefix: string)
    requires n in names && HasSuffix(p, n)
    ensures InsertStep(p, names, prefix, |n|) == Insert(p, prefix, |n|)
  {
  }

  lemma WholeStep(p: string, names: set<string>, prefix: string)
    requires p in names
    ensures InsertStep(p, names, prefix, |p|) == prefix + p
  {
    assert p[0..] == p && p[..0] == "";
    NothingBefore(prefix);
  }

  lemma NestedEnds(prefix: string, u: string, n: string)
    ensures HasSuffix(prefix + (u + n), u + n) && HasSuffix(prefix + (u + n), n)
    ensures Insert(prefix + (u + n), prefix, |n|) == prefix + u + prefix + n
  {
    var p' := prefix + (u + n);
    Associate(prefix, u, n);
    assert p'[|prefix|..] == u + n;
    assert p'[..|p'| - |n|] == prefix + u && p'[|p'| - |n|..] == n;
  }

  lemma MissIsLonger(p: string, n: string, names: set<string>, len: nat)
    requires n in names && |n| <= len && HasSuffix(p, n) && !Hit(p, names, len)
    ensures |n| < len
  {
  }

  lemma {:induction false} GrowsOnce(p: string, n: string, names: set<string>, prefix: string, len: nat)
    requires n in names && |n| <= len && HasSuffix(p, n)
    ensures |InsertAt(p, names, prefix, len)| >= |p| + |prefix|
    decreases len
  {
    if Hit(p, names, len) {
      AtHit(p, names, prefix, len);
    } else {
      MissIsLonger(p, n, names, len);
      AtMiss(p, names, prefix, len);
      GrowsOnce(p, n, names, prefix, len - 1);
    }
  }

  lemma HitKeepsSuffix(p: string, t: string, names: set<string>, prefix: string, len: nat)
    requires HasSuffix(p, t) && |t| <= len
    ensures HasSuffix(InsertStep(p, names, prefix, len), t)
  {
    if Hit(p, names, len) {
      var p', last := Insert(p, prefix, len), p[|p| - len..];
      InsertKeepsEnd(p, prefix, len);
      SuffixOfSuffix(p, last, t);
      SuffixOfSuffix(p', last, t);
    }
  }

  lemma AfterStep(p: string, names: set<string>, prefix: string, len: nat)
    requires len > 0
    ensures InsertAt(p, names, prefix, len) == InsertAt(InsertStep(p, names, prefix, len), names, prefix, len - 1)
    ensures |InsertStep(p, names, prefix, len)| == if Hit(p, names, len) then |p| + |prefix| else |p|
  {
  }

  lemma KeepsInner(p: string, t: string, n: string, names: set<string>, prefix: string)
    requires ProperSuffix(t, n) && HasSuffix(p, t)
    ensures HasSuffix(InsertStep(p, names, prefix, |t|), n)
  {
    HitKeepsSuffix(p, t, names, prefix, |t|);
    SuffixOfSuffix(InsertStep(p, names, prefix, |t|), t, n);
  }

  lemma GrowsTwiceHere(p: string, t: string, n: string, names: set<string>, prefix: string)
    requires t in names && n in names && ProperSuffix(t, n) && HasSuffix(p, t)
    ensures |InsertAt(p, names, prefix, |t|)| >= |p| + 2 * |prefix|
  {
    var p' := InsertStep(p, names, prefix, |t|);
    KeepsInner(p, t, n, names, prefix);
    WholeNameHits(p, t, names);
    AfterStep(p, names, prefix, |t|);
    GrowsOnce(p', n, names, prefix, |t| - 1);
  }

  lemma {:induction false} GrowsTwice(p: string, t: string, n: string, names: set<string>, prefix: string, len: nat)
    requires t in names && n in names && ProperSuffix(t, n) && HasSuffix(p, t) && |t| <= len
    ensures |InsertAt(p, names, prefix, len)| >= |p| + 2 * |prefix|
    decreases len
  {
    if len == |t| {
      GrowsTwiceHere(p, t, n, names, prefix);
    } else {
      var p' := SuffixAfterStep(p, t, names, prefix, len);
      GrowsTwice(p', t, n, names, prefix, len - 1);
    }
  }

  lemma SuffixAfterStep(p: string, t: string, names: set<string>, prefix: string, len: nat)
    returns (p': string)
    requires HasSuffix(p, t) && |t| < len
    ensures HasSuffix(p', t) && |p'| >= |p|
    ensures InsertAt(p, names, prefix, len) == InsertAt(p', names, prefix, len - 1)
  {
    HitKeepsSuffix(p, t, names, prefix, len);
    AfterStep(p, names, prefix, len);
    p' := InsertStep(p, names, prefix, len);
  }

  lemma WholeNameHits(p: string, t: string, names: set<string>)
    requires t in names && HasSuffix(p, t)
    ensures Hit(p, names, |t|)
  {
  }

  lemma SuffixWithinToken(p: string, n: string, seps: set<char>)
    requires forall c | c in n :: c !in seps
    ensures HasSuffix(p, n) <==> HasSuffix(Token(p, seps), n)
  {
    var t := Token(p, seps);
    TokenSpec(p, seps);
    if |n| <= |t| {
      SuffixOfSuffix(p, t, n);
    } else if HasSuffix(p, n) {
      TokenIsMaximal(p, n, seps);
    }
  }

  lemma {:induction false} TokenIsMaximal(p: string, n: string, seps: set<char>)
    requires HasSuffix(p, n) && forall c | c in n :: c !in seps
    ensures |n| <= |Token(p, seps)|
  {
    if n != "" {
      var k := |n| - 1;
      assert n[k] == p[|p| - 1];
      assert p[..|p| - 1][|p| - 1 - k..] == n[..k];
      TokenIsMaximal(p[..|p| - 1], n[..k], seps);
    }
  }

  lemma PieceGrows(p: string, n: string, names: set<string>, prefix: string, seps: set<char>)
    requires prefix != "" && SepFree(names, seps) && n in names && ProperSuffix(Token(p, seps), n)
    ensures |RewritePiece(p, names, prefix)| > |SimultaneousPiece(p, names, prefix, seps)|
  {
    var t := Token(p, seps);
    TokenSpec(p, seps);
    SuffixWithinToken(p, n, seps);
    if t in names {
      GrowsTwice(p, t, n, names, prefix, |p|);
    } else {
      GrowsOnce(p, n, names, prefix, |p|);
    }
  }

  lemma OnlyTokenHits(p: string, names: set<string>, seps: set<char>)
    requires SepFree(names, seps) && forall n | n in names :: !ProperSuffix(Token(p, seps), n)
    ensures forall n | n in names && HasSuffix(p, n) :: n == Token(p, seps)
  {
    var t := Token(p, seps);
    forall n | n in names && HasSuffix(p, n) ensures n == t {
      SuffixWithinToken(p, n, seps);
      assert t[0..] == t;
    }
  }

  lemma InsertIsRename(p: string, t: string, prefix: string)
    requires HasSuffix(p, t)
    ensures p == p[..|p| - |t|] + t && Insert(p, prefix, |t|) == p[..|p| - |t|] + (prefix + t)
  {
  }

  lemma PieceAgrees(p: string, names: set<string>, prefix: string, seps: set<char>)
    requires SepFree(names, seps) && forall n | n in names :: !ProperSuffix(Token(p, seps), n)
    ensures RewritePiece(p, names, prefix) == SimultaneousPiece(p, names, prefix, seps)
  {
    var t := Token(p, seps);
    TokenSpec(p, seps);
    OnlyTokenHits(p, names, seps);
    OneHit(p, t, names, prefix, |p|);
    InsertIsRename(p, t, prefix);
  }

  lemma PieceIff(p: string, names: set<string>, prefix: string, seps: set<char>)
    requires prefix != "" && SepFree(names, seps)
    ensures RewritePiece(p, names, prefix) == SimultaneousPiece(p, names, prefix, seps)
            <==> forall n | n in names :: !ProperSuffix(Token(p, seps), n)
  {
    if n :| n in names && ProperSuffix(Token(p, seps), n) {
      PieceGrows(p, n, names, prefix, seps);
    } else {
      PieceAgrees(p, names, prefix, seps);
    }
  }

  /**
   * The passes rename every reference of the value exactly once, and change nothing else,
   * exactly when no section name is a proper suffix of one of its references.
   */
  lemma {:induction false} RewriteIsSimultaneousIff(v: string, names: set<string>, prefix: string, seps: set<char>)
    requires prefix != "" && Free(prefix, ':') && AllFree(names, ':') && SepFree(names, seps)
    ensures Rewritten(v, names, prefix) == Simultaneous(v, names, prefix, seps) <==> Unambiguous(v, names, seps)
    decreases |v|
  {
    if IndexOf(v, ':') < |v| {
      var p, rest, a, b, x, y := FirstPieces(v, names, prefix, seps);
      RewriteIsSimultaneousIff(rest, names, prefix, seps);
      PieceIff(p, names, prefix, seps);
      UnambiguousCons(v, names, seps);
      FirstColonIff(a, b, x, y);
    }
  }

  /** Both rewritings of a value, cut at the first colon. */
  lemma FirstPieces(v: string, names: set<string>, prefix: string, seps: set<char>)
    returns (p: string, rest: string, a: string, b: string, x: string, y: string)
    requires IndexOf(v, ':') < |v| && Free(prefix, ':')
    ensures p == v[..IndexOf(v, ':')] && rest == v[IndexOf(v, ':') + 1..] && |rest| < |v|
    ensures a == RewritePiece(p, names, prefix) && b == Rewritten(rest, names, prefix)
    ensures x == SimultaneousPiece(p, names, prefix, seps) && y == Simultaneous(rest, names, prefix, seps)
    ensures Rewritten(v, names, prefix) == a + ":" + b && Simultaneous(v, names, prefix, seps) == x + ":" + y
    ensures Free(a, ':') && Free(x, ':')
  {
    var i := IndexOf(v, ':');
    p, rest := v[..i], v[i + 1..];
    a, b := RewritePiece(p, names, prefix), Rewritten(rest, names, prefix);
    x, y := SimultaneousPiece(p, names, prefix, seps), Simultaneous(rest, names, prefix, seps);
    RewrittenStep(v, names, prefix);
    SimultaneousStep(v, names, prefix, seps);
    PieceFree(p, names, prefix, seps);
  }

  lemma RewrittenStep(v: string, names: set<string>, prefix: string)
    requires IndexOf(v, ':') < |v|
    ensures var i := IndexOf(v, ':');
            Rewritten(v, names, prefix)
            == RewritePiece(v[..i], names, prefix) + ":" + Rewritten(v[i + 1..], names, prefix)
  {
  }

  lemma SimultaneousStep(v: string, names: set<string>, prefix: string, seps: set<char>)
    requires IndexOf(v, ':') < |v|
    ensures var i := IndexOf(v, ':');
            Simultaneous(v, names, prefix, seps)
            == SimultaneousPiece(v[..i], names, prefix, seps) + ":" + Simultaneous(v[i + 1..], names, prefix, seps)
  {
  }

  lemma FirstColonIff(a: string, b: string, x: string, y: string)
    requires Free(a, ':') && Free(x, ':')
    ensures a + ":" + b == x + ":" + y <==> a == x && b == y
  {
    if a + ":" + b == x + ":" + y {
      FirstCutUnique(a, b, x, y, ':');
    }
  }

  lemma {:induction false} UnambiguousCons(v: string, names: set<string>, seps: set<char>)
    requires IndexOf(v, ':') < |v|
    ensures var i := IndexOf(v, ':');
            Unambiguous(v, names, seps) <==>
              (forall n | n in names :: !ProperSuffix(Token(v[..i], seps), n)) && Unambiguous(v[i + 1..], names, seps)
  {
    var i := IndexOf(v, ':');
    var t, ts := Token(v[..i], seps), Tokens(v[i + 1..], seps);
    assert Tokens(v, seps) == [t] + ts;
    assert forall x :: x in [t] + ts <==> x == t || x in ts;
  }

  lemma PieceFree(p: string, names: set<string>, prefix: string, seps: set<char>)
    requires Free(p, ':') && Free(prefix, ':')
    ensures Free(RewritePiece(p, names, prefix), ':') && Free(SimultaneousPiece(p, names, prefix, seps), ':')
  {
    InsertAtFree(p, names, prefix, |p|);
    RenamedFree(p, names, prefix, seps);
  }

  lemma RenamedFree(p: string, names: set<string>, prefix: string, seps: set<char>)
    requires Free(p, ':') && Free(prefix, ':')
    ensures Free(SimultaneousPiece(p, names, prefix, seps), ':')
  {
    TokenSpec(p, seps);
    var t := Token(p, seps);
    assert Free(p[..|p| - |t|], ':') && Free(t, ':') by {
      assert p[|p| - |t|..] == t;
    }
    assert Free(RenamedToken(t, names, prefix), ':');
  }

  lemma {:induction false} InsertAtFree(p: string, names: set<string>, prefix: string, len: nat)
    requires Free(p, ':') && Free(prefix, ':')
    ensures Free(InsertAt(p, names, prefix, len), ':')
    decreases len
  {
    var p' := InsertStep(p, names, prefix, len);
    StepFree(p, names, prefix, len);
    if len == 0 {
      assert InsertAt(p, names, prefix, len) == p';
    } else {
      InsertAtFree(p', names, prefix, len - 1);
      assert InsertAt(p, names, prefix, len) == InsertAt(p', names, prefix, len - 1);
    }
  }

  lemma StepFree(p: string, names: set<string>, prefix: string, len: nat)
    requires Free(p, ':') && Free(prefix, ':')
    ensures Free(InsertStep(p, names, prefix, len), ':')
  {
  }

  /** After a simultaneous renaming the references are the renamed references, in the same order. */
  lemma {:induction false} TokensOfSimultaneous(v: string, names: set<string>, prefix: string, seps: set<char>)
    requires Free(prefix, ':') && forall c | c in prefix :: c !in seps
    ensures Tokens(Simultaneous(v, names, prefix, seps), seps) == RenamedTokens(Tokens(v, seps), names, prefix)
    decreases |v|
  {
    if IndexOf(v, ':') < |v| {
      var t, rest := TokensStep(v, names, prefix, seps);
      TokensOfSimultaneous(rest, names, prefix, seps);
      RenamedTokensCons(t, Tokens(rest, seps), names, prefix);
    }
  }

  lemma TokensStep(v: string, names: set<string>, prefix: string, seps: set<char>)
    returns (t: string, rest: string)
    requires Free(prefix, ':') && forall c | c in prefix :: c !in seps
    requires IndexOf(v, ':') < |v|
    ensures |rest| < |v| && Tokens(v, seps) == [t] + Tokens(rest, seps)
    ensures Tokens(Simultaneous(v, names, prefix, seps), seps)
         == [RenamedToken(t, names, prefix)] + Tokens(Simultaneous(rest, names, prefix, seps), seps)
  {
    var i := IndexOf(v, ':');
    var p := v[..i];
    t, rest := Token(p, seps), v[i + 1..];
    PieceFree(p, names, prefix, seps);
    TokensCons(SimultaneousPiece(p, names, prefix, seps), Simultaneous(rest, names, prefix, seps), seps);
    TokenOfRenamed(p, names, prefix, seps);
  }

  lemma TokensCons(p: string, rest: string, seps: set<char>)
    requires Free(p, ':')
    ensures Tokens(p + ":" + rest, seps) == [Token(p, seps)] + Tokens(rest, seps)
  {
    IndexOfSplit(p, rest, ':');
  }

  function RenamedTokens(ts: seq<string>, names: set<string>, prefix: string): seq<string> {
    seq(|ts|, k requires 0 <= k < |ts| => RenamedToken(ts[k], names, prefix))
  }

  lemma RenamedTokensCons(t: string, ts: seq<string>, names: set<string>, prefix: string)
    ensures RenamedTokens([t] + ts, names, prefix)
         == [RenamedToken(t, names, prefix)] + RenamedTokens(ts, names, prefix)
  {
  }

  /** What stands before the reference ends in a separator or is empty. */
  lemma NoTokenBefore(p: string, seps: set<char>)
    ensures Token(p[..|p| - |Token(p, seps)|], seps) == ""
  {
    var t := Token(p, seps);
    var head := p[..|p| - |t|];
    TokenSpec(p, seps);
    TokenPrepend(head, t, seps);
    assert head + t == p;
    assert |Token(head, seps) + t| == |t|;
  }

  lemma RenamedSepFree(p: string, names: set<string>, prefix: string, seps: set<char>)
    requires forall c | c in prefix :: c !in seps
    ensures forall c | c in RenamedToken(Token(p, seps), names, prefix) :: c !in seps
  {
    TokenSpec(p, seps);
  }

  lemma TokenOfRenamed(p: string, names: set<string>, prefix: string, seps: set<char>)
    requires forall c | c in prefix :: c !in seps
    ensures Token(SimultaneousPiece(p, names, prefix, seps), seps) == RenamedToken(Token(p, seps), names, prefix)
  {
    var t := Token(p, seps);
    var r := RenamedToken(t, names, prefix);
    RenamedSepFree(p, names, prefix, seps);
    NoTokenBefore(p, seps);
    TokenPrepend(p[..|p| - |t|], r, seps);
    NothingBefore(r);
  }

  lemma TokenSnoc(p: string, c: char, seps: set<char>)
    requires c !in seps
    ensures Token(p + [c], seps) == Token(p, seps) + [c]
  {
    assert (p + [c])[..|p|] == p;
  }

  /** Separator-free text glued to the end belongs to the last reference. */
  lemma {:induction false} TokenPrepend(head: string, t: string, seps: set<char>)
    requires forall c | c in t :: c !in seps
    ensures Token(head + t, seps) == Token(head, seps) + t
  {
    if t != "" {
      var init, c := t[..|t| - 1], t[|t| - 1];
      assert t == init + [c] && c in t;
      TokenPrepend(head, init, seps);
      TokenSnoc(head + init, c, seps);
      Associate(head, init, [c]);
      Associate(Token(head, seps), init, [c]);
    } else {
      assert head + t == head;
    }
  }

  /**
   * Why longest-first: when a section is already called `prefix`+n, handling n first has the freshly written
   * name rewritten again, although the value is unambiguous.
   */
  lemma ShortestFirstRewritesTwice(n: string, prefix: string, rename: map<string, string>)
    requires prefix != "" && Free(n, ':') && Free(prefix, ':')
    requires rename == map[n := prefix + n, prefix + n := prefix + (prefix + n)]
    ensures Passes(n + ":", [n, prefix + n], rename) == prefix + (prefix + n) + ":"
    ensures Unambiguous(n + ":", rename.Keys, {})
    ensures Simultaneous(n + ":", rename.Keys, prefix, {}) == prefix + n + ":"
  {
    var m := prefix + n;
    assert n + ":" == n + ":" + "" && m != n;
    TwoPieces(n, m, rename, prefix);
    PassesOnPiece(n, "", [n, m], rename);
    PassesOnTail("", [n, m], rename);
    WholeToken(n);
    IndexOfSplit(n, "", ':');
    TokensCons(n, "", {});
    assert Tokens("", {}) == [];
  }

  lemma TwoPieces(n: string, m: string, rename: map<string, string>, prefix: string)
    requires m == prefix + n && n in rename && m in rename && rename[n] == m && rename[m] == prefix + m
    ensures PiecePasses(n, [n, m], rename) == prefix + m
  {
    assert PiecePass(n, n, m) == m && PiecePass(m, m, prefix + m) == prefix + m;
    var tail := [n, m][1..];
    assert tail == [m] && tail[1..] == [];
    assert PiecePasses(prefix + m, [], rename) == prefix + m;
    assert PiecePasses(m, [m], rename) == prefix + m;
  }

  lemma WholeToken(n: string)
    ensures Token(n, {}) == n
  {
    TokenPrepend("", n, {});
    assert "" + n == n;
  }

  // ---------------------------------------------------------------- the loops

  method SortLongestFirst(keys: set<string>) returns (names: seq<string>)
    ensures SortOutcome(names, keys)
  {
    names := [];
    var rest := keys;
    while rest != {}
      invariant rest <= keys && LongestFirst(names) && Distinct(names)
      invariant forall n :: n in names <==> n in keys - rest
      invariant forall m, n | m in names && n in rest :: |m| >= |n|
      decreases rest
    {
      LongestExists(rest);
      var n :| n in rest && forall m | m in rest :: |m| <= |n|;
      names, rest := names + [n], rest - {n};
    }
  }

  lemma {:induction false} LongestExists(keys: set<string>)
    requires keys != {}
    ensures exists n :: n in keys && forall m | m in keys :: |m| <= |n|
    decreases keys
  {
    var k :| k in keys;
    if keys != {k} {
      var rest := keys - {k};
      LongestExists(rest);
      var n :| n in rest && forall m | m in rest :: |m| <= |n|;
      var best := if |k| > |n| then k else n;
      assert forall m | m in keys :: m == k || m in rest;
      assert best in keys && forall m | m in keys :: |m| <= |best|;
    }
  }

  method RewriteRemoteReferences(value: string, rename: map<string, string>) returns (result: string)
    ensures exists order :: SortOutcome(order, rename.Keys) && result == Passes(value, order, rename)
    ensures forall prefix | PrefixRename(rename, prefix) && Free(prefix, ':') && AllFree(rename.Keys, ':') ::
              result == Rewritten(value, rename.Keys, prefix)
  {
    var names := SortLongestFirst(rename.Keys);
    if value != "" && rename != map[] {
      result := value;
      for i := 0 to |names|
        invariant Passes(result, names[i..], rename) == Passes(value, names, rename)
      {
        assert names[i..][0] == names[i] && names[i..][1..] == names[i + 1..];
        result := Pass(result, names[i], rename[names[i]]);
      }
      assert names[|names|..] == [];
    } else {
      result := value;
      if names != [] {
        assert names[0] in rename;
        PassesOnTail(value, names, rename);
      }
    }
    forall prefix | PrefixRename(rename, prefix) && Free(prefix, ':') && AllFree(rename.Keys, ':')
      ensures result == Rewritten(value, rename.Keys, prefix)
    {
      PassesAreRewritten(value, names, rename, prefix);
    }
  }
}
