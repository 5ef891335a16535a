/** Slash-separated paths: splitting, joining and lexical cleaning. */
module Paths {
  import opened Text

  /** strings.Split with a one-character separator. */
  function Split(s: string, c: char): (parts: seq<string>)
    ensures parts != []
    ensures forall k | 0 <= k < |parts| :: Free(parts[k], c)
    decreases |s|
  {
    var i := IndexOf(s, c);
    if i == |s| then
      assert s[..i] == s;
      [s]
    else [s[..i]] + Split(s[i + 1..], c)
  }

  function Join(parts: seq<string>, c: char): string {
    if parts == [] then ""
    else if |parts| == 1 then parts[0]
    else parts[0] + [c] + Join(parts[1..], c)
  }

  lemma SplitFree(s: string, c: char)
    requires Free(s, c)
    ensures Split(s, c) == [s]
  {
    assert forall k | 0 <= k < |s| :: s[k] != c;
  }

  lemma SplitStep(p: string, rest: string, c: char)
    requires Free(p, c)
    ensures Split(p + [c] + rest, c) == [p] + Split(rest, c)
  {
    IndexOfSplit(p, rest, c);
  }

  lemma {:induction false} SplitJoin(parts: seq<string>, c: char)
    requires parts != [] && forall k | 0 <= k < |parts| :: Free(parts[k], c)
    ensures Split(Join(parts, c), c) == parts
    decreases |parts|
  {
    if |parts| == 1 {
      SplitFree(parts[0], c);
    } else {
      SplitJoin(parts[1..], c);
      SplitStep(parts[0], Join(parts[1..], c), c);
      assert parts == [parts[0]] + parts[1..];
    }
  }

  // ---------------------------------------------------------------- filepath.Clean

  /** One path element applied to the elements kept so far. */
  function Resolve(kept: seq<string>, part: string, rooted: bool): seq<string> {
    if part == "" || part == "." then kept
    else if part != ".." then kept + [part]
    else if kept != [] && kept[|kept| - 1] != ".." then kept[..|kept| - 1]
    else if rooted then kept
    else kept + [part]
  }

  function ResolveAll(kept: seq<string>, parts: seq<string>, rooted: bool): seq<string>
    decreases |parts|
  {
    if parts == [] then kept else ResolveAll(Resolve(kept, parts[0], rooted), parts[1..], rooted)
  }

  predicate Rooted(path: string) {
    path != "" && path[0] == '/'
  }

  function Kept(path: string): seq<string> {
    ResolveAll([], Split(path, '/'), Rooted(path))
  }

  function Clean(path: string): string {
    var body := Join(Kept(path), '/');
    if Rooted(path) then "/" + body else if body == "" then "." else body
  }

  /** Elements that survive cleaning. */
  predicate Element(part: string) {
    part != "" && part != "." && Free(part, '/')
  }

  /** An element that cleaning leaves alone wherever it stands. */
  predicate PlainElement(part: string) {
    Element(part) && part != ".."
  }

  lemma {:induction false} ResolveElements(kept: seq<string>, parts: seq<string>, rooted: bool)
    requires forall k | 0 <= k < |kept| :: Element(kept[k])
    requires forall k | 0 <= k < |parts| :: Free(parts[k], '/')
    ensures forall k | 0 <= k < |ResolveAll(kept, parts, rooted)| :: Element(ResolveAll(kept, parts, rooted)[k])
    decreases |parts|
  {
    if parts != [] {
      ResolveElements(Resolve(kept, parts[0], rooted), parts[1..], rooted);
    }
  }

  lemma {:induction false} ResolvePlain(kept: seq<string>, parts: seq<string>, rooted: bool)
    requires forall k | 0 <= k < |parts| :: PlainElement(parts[k])
    ensures ResolveAll(kept, parts, rooted) == kept + parts
    decreases |parts|
  {
    if parts != [] {
      ResolvePlain(kept + [parts[0]], parts[1..], rooted);
      assert kept + parts == kept + [parts[0]] + parts[1..];
    }
  }

  lemma JoinNonEmpty(parts: seq<string>)
    requires parts != [] && parts[0] != ""
    ensures Join(parts, '/') != "" && Join(parts, '/')[0] == parts[0][0]
  {
  }

  lemma SplitRooted(rest: string)
    ensures Split("/" + rest, '/') == [""] + Split(rest, '/')
  {
    SplitStep("", rest, '/');
    assert "" + ['/'] + rest == "/" + rest;
  }

  lemma RootedElements(kept: seq<string>)
    requires kept != [] && forall k | 0 <= k < |kept| :: Element(kept[k])
    ensures Split("/" + Join(kept, '/'), '/') == [""] + kept
  {
    SplitJoin(kept, '/');
    SplitRooted(Join(kept, '/'));
  }

  /** The elements of a cleaned path: only the first can be empty, unless the path is the root itself. */
  lemma CleanElements(path: string)
    ensures Clean(path) == "/" || forall k | 0 < k < |Split(Clean(path), '/')| :: Split(Clean(path), '/')[k] != ""
  {
    var kept := Kept(path);
    ResolveElements([], Split(path, '/'), Rooted(path));
    if kept != [] {
      JoinNonEmpty(kept);
      SplitJoin(kept, '/');
      RootedElements(kept);
    } else {
      SplitFree(".", '/');
    }
  }

  /** An absolute path of plain elements is already clean, and splits into just those. */
  lemma {:induction false} PlainPath(parts: seq<string>)
    requires parts != [] && forall k | 0 <= k < |parts| :: PlainElement(parts[k])
    ensures var path := "/" + Join(parts, '/');
            Clean(path) == path && Split(path, '/') == [""] + parts
  {
    var path := "/" + Join(parts, '/');
    SplitRooted(Join(parts, '/'));
    SplitJoin(parts, '/');
    ResolvePlain([], parts, true);
    assert ([""] + parts)[1..] == parts;
    assert ResolveAll([], [""] + parts, true) == ResolveAll([], parts, true);
    assert [] + parts == parts;
  }

  // ---------------------------------------------------------------- what cleaning means

  /** The path of these elements, from the root or relative. */
  function PathWith(parts: seq<string>, rooted: bool): string {
    (if rooted then "/" else "") + Join(parts, '/')
  }

  /** Elements as they stand between slashes; a relative path does not begin with an empty one. */
  predicate PathParts(parts: seq<string>, rooted: bool) {
    parts != [] && (forall k | 0 <= k < |parts| :: Free(parts[k], '/')) && (!rooted ==> parts[0] != "")
  }

  lemma CleanOf(parts: seq<string>, rooted: bool)
    requires PathParts(parts, rooted)
    ensures Rooted(PathWith(parts, rooted)) == rooted
    ensures Kept(PathWith(parts, rooted)) == ResolveAll([], parts, rooted)
  {
    var path := PathWith(parts, rooted);
    SplitJoin(parts, '/');
    if rooted {
      SplitRooted(Join(parts, '/'));
      assert ([""] + parts)[1..] == parts;
      assert ResolveAll([], [""] + parts, true) == ResolveAll([], parts, true);
    } else {
      assert path == Join(parts, '/');
      JoinNonEmpty(parts);
      assert parts[0][0] in parts[0];
    }
  }

  lemma {:induction false} ResolveAppend(kept: seq<string>, a: seq<string>, b: seq<string>, rooted: bool)
    ensures ResolveAll(kept, a + b, rooted) == ResolveAll(ResolveAll(kept, a, rooted), b, rooted)
    decreases |a|
  {
    if a == [] {
      assert a + b == b;
    } else {
      assert (a + b)[1..] == a[1..] + b;
      ResolveAppend(Resolve(kept, a[0], rooted), a[1..], b, rooted);
    }
  }

  /** Empty elements and single dots count for nothing. */
  lemma DotsDropped(a: seq<string>, dot: string, b: seq<string>, rooted: bool)
    requires (dot == "" || dot == ".") && PathParts(a + b, rooted) && PathParts(a + [dot] + b, rooted)
    ensures Clean(PathWith(a + [dot] + b, rooted)) == Clean(PathWith(a + b, rooted))
  {
    CleanOf(a + b, rooted);
    CleanOf(a + [dot] + b, rooted);
    ResolveAppend([], a, b, rooted);
    ResolveAppend([], a + [dot], b, rooted);
    ResolveAppend([], a, [dot], rooted);
    OneResolved(ResolveAll([], a, rooted), dot, rooted);
  }

  lemma OneResolved(kept: seq<string>, part: string, rooted: bool)
    ensures ResolveAll(kept, [part], rooted) == Resolve(kept, part, rooted)
  {
    assert [part][1..] == [];
  }

  /** Two dots take back the element before them. */
  lemma ParentTakesBack(a: seq<string>, part: string, b: seq<string>, rooted: bool)
    requires PlainElement(part) && PathParts(a + b, rooted) && PathParts(a + [part, ".."] + b, rooted)
    ensures Clean(PathWith(a + [part, ".."] + b, rooted)) == Clean(PathWith(a + b, rooted))
  {
    CleanOf(a + b, rooted);
    CleanOf(a + [part, ".."] + b, rooted);
    ResolveAppend([], a, b, rooted);
    ResolveAppend([], a + [part, ".."], b, rooted);
    ResolveAppend([], a, [part, ".."], rooted);
    var kept := ResolveAll([], a, rooted);
    OneResolved(kept + [part], "..", rooted);
    assert [part, ".."][1..] == [".."] && (kept + [part])[..|kept|] == kept;
  }

  /** The root is its own parent. */
  lemma RootIsTop(b: seq<string>)
    requires PathParts(b, true) && PathParts([".."] + b, true)
    ensures Clean(PathWith([".."] + b, true)) == Clean(PathWith(b, true))
  {
    CleanOf(b, true);
    CleanOf([".."] + b, true);
    ResolveAppend([], [".."], b, true);
    OneResolved([], "..", true);
  }

  function Parents(n: nat): seq<string> {
    if n == 0 then [] else [".."] + Parents(n - 1)
  }

  /** A relative path of double dots and then plain elements is clean already, and the empty one becomes a dot. */
  lemma RelativeIsClean(n: nat, parts: seq<string>)
    requires Parents(n) + parts != [] && forall k | 0 <= k < |parts| :: PlainElement(parts[k])
    ensures Clean(PathWith(Parents(n) + parts, false)) == PathWith(Parents(n) + parts, false)
    ensures Clean("") == "."
  {
    var all := Parents(n) + parts;
    ParentsAre(n);
    assert forall k | 0 <= k < |all| :: Free(all[k], '/') && all[k] != "";
    CleanOf(all, false);
    ResolveAppend([], Parents(n), parts, false);
    ParentsKept([], n);
    ResolvePlain(Parents(n), parts, false);
    assert [] + Parents(n) == Parents(n);
    JoinNonEmpty(all);
    assert "" + Join(all, '/') == Join(all, '/');
    SplitFree("", '/');
    OneResolved([], "", false);
  }

  lemma {:induction false} ParentsAre(n: nat)
    ensures |Parents(n)| == n && forall k | 0 <= k < n :: Parents(n)[k] == ".."
  {
    if n > 0 {
      ParentsAre(n - 1);
    }
  }

  lemma {:induction false} ParentsKept(kept: seq<string>, n: nat)
    requires kept == [] || kept[|kept| - 1] == ".."
    ensures ResolveAll(kept, Parents(n), false) == kept + Parents(n)
    decreases n
  {
    if n == 0 {
      assert kept + Parents(0) == kept;
    } else {
      var longer := kept + [".."];
      ParentsKept(longer, n - 1);
      assert Parents(n)[1..] == Parents(n - 1) && longer + Parents(n - 1) == kept + Parents(n);
      assert Resolve(kept, "..", false) == longer;
    }
  }
}
