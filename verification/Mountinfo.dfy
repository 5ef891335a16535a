/** /proc/self/mountinfo: octal escapes, and the FUSE connection lookups of the orphan teardown. */
module Mountinfo {
  import opened Text
  import opened Paths

  // ---------------------------------------------------------------- octal escapes

  /** Go strings are bytes. */
  predicate Bytes(s: string) {
    forall k | 0 <= k < |s| :: s[k] as int < 256
  }

  predicate OctalDigit(c: char) {
    '0' <= c <= '7'
  }

  function Octal(a: char, b: char, c: char): int {
    (a as int - '0' as int) * 64 + (b as int - '0' as int) * 8 + (c as int - '0' as int)
  }

  /** A backslash and three octal digits for one byte. */
  predicate StartsEscape(s: string) {
    && |s| > 3 && s[0] == '\\' && OctalDigit(s[1]) && OctalDigit(s[2]) && OctalDigit(s[3])
    && Octal(s[1], s[2], s[3]) < 256
  }

  function Unescape(s: string): string
    decreases |s|
  {
    if s == "" then ""
    else if StartsEscape(s) then [Octal(s[1], s[2], s[3]) as char] + Unescape(s[4..])
    else [s[0]] + Unescape(s[1..])
  }

  /** Decoding from a position on, one byte at a time. */
  lemma NextByte(s: string, i: nat)
    requires i < |s|
    ensures StartsEscape(s[i..])
        ==> Unescape(s[i..]) == [Octal(s[i + 1], s[i + 2], s[i + 3]) as char] + Unescape(s[i + 4..])
    ensures !StartsEscape(s[i..]) ==> Unescape(s[i..]) == [s[i]] + Unescape(s[i + 1..])
  {
    assert |s[i..]| > 3 ==> s[i..][4..] == s[i + 4..];
    assert s[i..][1..] == s[i + 1..];
  }

  /** unescapeMountinfo */
  method UnescapeMountinfo(s: string) returns (b: string)
    ensures b == Unescape(s)
  {
    b := "";
    var i := 0;
    while i < |s|
      invariant 0 <= i <= |s|
      invariant b + Unescape(s[i..]) == Unescape(s)
    {
      NextByte(s, i);
      if s[i] == '\\' && i + 3 < |s| {
        var x, y, z := s[i + 1], s[i + 2], s[i + 3];
        if OctalDigit(x) && OctalDigit(y) && OctalDigit(z) && Octal(x, y, z) < 256 {
          assert StartsEscape(s[i..]);
          Associate(b, [Octal(x, y, z) as char], Unescape(s[i + 4..]));
          b := b + [Octal(x, y, z) as char];
          i := i + 4;
          continue;
        }
      }
      assert !StartsEscape(s[i..]);
      Associate(b, [s[i]], Unescape(s[i + 1..]));
      b := b + [s[i]];
      i := i + 1;
    }
  }

  /** How the kernel prints a byte of `special`, and any other byte. */
  function EscapeByte(c: char, special: set<char>): string
    requires c as int < 256
  {
    if c !in special then [c]
    else
      var v := c as int;
      ['\\', ('0' as int + v / 64) as char, ('0' as int + v / 8 % 8) as char, ('0' as int + v % 8) as char]
  }

  function Escape(s: string, special: set<char>): string
    requires Bytes(s)
  {
    if s == "" then "" else EscapeByte(s[0], special) + Escape(s[1..], special)
  }

  /**
   * Unescaping undoes the kernel's escaping, whatever set of bytes it escapes, as long as the backslash is one of
   * them.
   */
  lemma {:induction false} UnescapeEscape(s: string, special: set<char>)
    requires Bytes(s) && '\\' in special
    ensures Unescape(Escape(s, special)) == s
  {
    if s != "" {
      UnescapeEscape(s[1..], special);
      UnescapeByte(s[0], Escape(s[1..], special), special);
    }
  }

  lemma UnescapeByte(c: char, rest: string, special: set<char>)
    requires c as int < 256 && '\\' in special
    ensures Unescape(EscapeByte(c, special) + rest) == [c] + Unescape(rest)
  {
    var v, e := c as int, EscapeByte(c, special);
    var t := e + rest;
    if c in special {
      assert v == v / 64 * 64 + v / 8 % 8 * 8 + v % 8;
      assert t[4..] == rest;
    } else {
      assert t[1..] == rest;
    }
  }

  lemma {:induction false} EscapePlain(s: string, special: set<char>)
    requires Bytes(s) && forall c | c in s :: c !in special
    ensures Escape(s, special) == s
  {
    if s != "" {
      EscapePlain(s[1..], special);
    }
  }

  /**
   * The backslash has to be among the escaped bytes: a path that spells an escape would read back as something
   * else.
   */
  lemma BackslashMustBeEscaped(special: set<char>)
    requires '\\' !in special && '0' !in special && '4' !in special
    ensures Bytes("\\040") && Unescape(Escape("\\040", special)) == " "
  {
    var s := "\\040";
    EscapePlain(s, special);
    assert s[4..] == "";
  }

  // ---------------------------------------------------------------- reading a line

  /** ASCII white space, as strings.Fields sees it. */
  predicate White(c: char) {
    c == ' ' || 9 <= c as int <= 13
  }

  predicate Word(s: string) {
    s != "" && forall k | 0 <= k < |s| :: !White(s[k])
  }

  function WordEnd(s: string): (n: nat)
    ensures n <= |s| && (forall k | 0 <= k < n :: !White(s[k])) && (n < |s| ==> White(s[n]))
  {
    if s == "" || White(s[0]) then 0
    else
      var n := 1 + WordEnd(s[1..]);
      assert forall k | 0 < k < n :: s[k] == s[1..][k - 1];
      assert n < |s| ==> s[n] == s[1..][n - 1];
      n
  }

  /** strings.Fields */
  function Fields(s: string): seq<string>
    decreases |s|
  {
    if s == "" then []
    else if White(s[0]) then Fields(s[1..])
    else [s[..WordEnd(s)]] + Fields(s[WordEnd(s)..])
  }

  const SEPARATOR := " - "

  /** strings.Index(line, " - "), or the length of the line when there is none. */
  function SeparatorAt(line: string): (i: nat)
    ensures i <= |line| && (i < |line| ==> HasPrefix(line[i..], SEPARATOR))
  {
    if line == "" || HasPrefix(line, SEPARATOR) then
      assert line[0..] == line;
      0
    else
      var i := 1 + SeparatorAt(line[1..]);
      assert line[1..][i - 1..] == line[i..];
      i
  }

  predicate IsFuse(fstype: string) {
    fstype == "fuse" || HasPrefix(fstype, "fuse.")
  }

  function DecimalValue(s: string): nat
    requires forall k | 0 <= k < |s| :: '0' <= s[k] <= '9'
  {
    if s == "" then 0 else DecimalValue(s[..|s| - 1]) * 10 + (s[|s| - 1] as int - '0' as int)
  }

  predicate Digits(s: string) {
    s != "" && forall k | 0 <= k < |s| :: '0' <= s[k] <= '9'
  }

  /** strconv.Atoi accepts the string. */
  predicate ParsesAsInt(s: string) {
    if s != "" && (s[0] == '-' || s[0] == '+') then
      Digits(s[1..]) && DecimalValue(s[1..]) <= (if s[0] == '-' then 0x8000_0000_0000_0000 else 0x7FFF_FFFF_FFFF_FFFF)
    else
      Digits(s) && DecimalValue(s) <= 0x7FFF_FFFF_FFFF_FFFF
  }

  /** The parts of a line that the lookups look at. */
  datatype Seen = Seen(device: string, point: string, fstype: string)

  /** Nothing for a line that is cut short. */
  function ReadLine(line: string): Option<Seen> {
    var i := SeparatorAt(line);
    if i == |line| then None
    else
      var left, right := Fields(line[..i]), Fields(line[i + 3..]);
      if |left| < 5 || |right| < 1 then None else Some(Seen(left[2], left[4], right[0]))
  }

  /** strings.Cut(device, ":") */
  function MinorOf(device: string): Option<string> {
    var i := IndexOf(device, ':');
    if i == |device| then None else Some(device[i + 1..])
  }

  // ---------------------------------------------------------------- the two lookups on lines

  predicate FuseLineAt(seen: Seen, want: string) {
    && Clean(Unescape(seen.point)) == want && IsFuse(seen.fstype)
    && MinorOf(seen.device).Some? && MinorOf(seen.device).value != "" && ParsesAsInt(MinorOf(seen.device).value)
  }

  function FirstMinor(lines: seq<string>, want: string): Option<string> {
    if lines == [] then None
    else
      var seen := ReadLine(lines[0]);
      if seen.Some? && FuseLineAt(seen.value, want) then MinorOf(seen.value.device) else FirstMinor(lines[1..], want)
  }

  predicate SharingLine(line: string, want: string, id: string) {
    var seen := ReadLine(line);
    seen.Some? && IsFuse(seen.value.fstype) && MinorOf(seen.value.device) == Some(id)
    && Clean(Unescape(seen.value.point)) != want
  }

  /** ParseFuseConnIDFromMountinfo */
  method ParseFuseConnIDFromMountinfo(content: string, mountPath: string) returns (id: Option<string>)
    ensures id == FirstMinor(Split(content, '\n'), Clean(mountPath))
  {
    var want, lines := Clean(mountPath), Split(content, '\n');
    var n := 0;
    while n < |lines|
      invariant 0 <= n <= |lines|
      invariant FirstMinor(lines[n..], want) == FirstMinor(lines, want)
    {
      var line := lines[n];
      assert lines[n..][1..] == lines[n + 1..];
      n := n + 1;
      var sep := SeparatorAt(line);
      if line == "" || sep == |line| { continue; }
      var left := Fields(line[..sep]);
      if |left| < 5 { continue; }
      var point := UnescapeMountinfo(left[4]);
      if Clean(point) != want { continue; }
      var right := Fields(line[sep + 3..]);
      if |right| < 1 || !IsFuse(right[0]) { continue; }
      var minor := MinorOf(left[2]);
      if minor.None? || minor.value == "" || !ParsesAsInt(minor.value) { continue; }
      return minor;
    }
    return None;
  }

  /** The sharing test on one line. */
  method LineShares(line: string, want: string, connId: string) returns (shares: bool)
    ensures shares <==> SharingLine(line, want, connId)
  {
    var sep := SeparatorAt(line);
    if sep == |line| {
      return false;
    }
    var left, right := Fields(line[..sep]), Fields(line[sep + 3..]);
    if |left| < 5 || |right| < 1 || !IsFuse(right[0]) || MinorOf(left[2]) != Some(connId) {
      return false;
    }
    var point := UnescapeMountinfo(left[4]);
    return Clean(point) != want;
  }

  /** fuseConnSharedInMountinfo */
  method FuseConnSharedInMountinfo(content: string, mountPath: string, connId: string) returns (shared: bool)
    ensures shared <==> exists line :: line in Split(content, '\n') && SharingLine(line, Clean(mountPath), connId)
  {
    var want, lines := Clean(mountPath), Split(content, '\n');
    var n := 0;
    while n < |lines|
      invariant 0 <= n <= |lines|
      invariant forall k | 0 <= k < n :: !SharingLine(lines[k], want, connId)
    {
      var shares := LineShares(lines[n], want, connId);
      if shares {
        assert lines[n] in lines;
        return true;
      }
      n := n + 1;
    }
    return false;
  }

  // ---------------------------------------------------------------- tables as the kernel prints them

  /**
   * One mount: fields (1) to (11) of section 3.5 of proc.rst; `optional` holds field (7), `rest` fields (10) and
   * (11).
   */
  datatype Row = Row(
    id: string, parent: string, major: string, minor: string, root: string, point: string,
    options: string, optional: seq<string>, fstype: string, rest: string)

  const SPECIAL: set<char> := {' ', '\t', '\n', '\\'}

  function LeftFields(r: Row): seq<string>
    requires Bytes(r.root) && Bytes(r.point)
  {
    [r.id, r.parent, r.major + ":" + r.minor, Escape(r.root, SPECIAL), Escape(r.point, SPECIAL), r.options] + r.optional
  }

  function PrintRow(r: Row): string
    requires Bytes(r.root) && Bytes(r.point)
  {
    Join(LeftFields(r), ' ') + " - " + r.fstype + " " + r.rest
  }

  /** No white space but what gets escaped, no lone hyphen before the separator, and a 20-bit minor number. */
  predicate GoodRow(r: Row) {
    && Bytes(r.root) && Bytes(r.point)
    && (forall k | 0 <= k < |LeftFields(r)| :: Word(LeftFields(r)[k]) && LeftFields(r)[k] != "-")
    && Free(r.major, ':') && Digits(r.minor) && DecimalValue(r.minor) < 0x10_0000
    && Word(r.fstype) && Free(r.rest, '\n')
  }

  predicate GoodRows(rows: seq<Row>) {
    forall k | 0 <= k < |rows| :: GoodRow(rows[k])
  }

  function PrintedRows(rows: seq<Row>): (lines: seq<string>)
    requires GoodRows(rows)
    ensures |lines| == |rows| && forall k | 0 <= k < |rows| :: lines[k] == PrintRow(rows[k])
  {
    if rows == [] then [] else [PrintRow(rows[0])] + PrintedRows(rows[1..])
  }

  function PrintTable(rows: seq<Row>): string
    requires GoodRows(rows)
  {
    if rows == [] then "" else PrintRow(rows[0]) + ['\n'] + PrintTable(rows[1..])
  }

  /** A FUSE filesystem, of whatever subtype. */
  predicate FuseRow(r: Row) {
    r.fstype == "fuse" || (|r.fstype| >= 5 && r.fstype[..5] == "fuse.")
  }

  /** The minor of the first FUSE mount at the path. */
  function FirstFuseMinor(rows: seq<Row>, path: string): Option<string> {
    if rows == [] then None
    else if FuseRow(rows[0]) && Clean(rows[0].point) == Clean(path) then Some(rows[0].minor)
    else FirstFuseMinor(rows[1..], path)
  }

  // ---------------------------------------------------------------- reading back a printed row

  lemma WordThenRest(w: string, rest: string)
    requires Word(w) && (rest == "" || White(rest[0]))
    ensures Fields(w + rest) == [w] + Fields(rest)
  {
    var t := w + rest;
    assert forall k | 0 <= k < |w| :: t[k] == w[k];
    assert rest != "" ==> t[|w|] == rest[0];
    assert WordEnd(t) == |w|;
    assert t[..|w|] == w && t[|w|..] == rest;
  }

  lemma {:induction false} FieldsJoin(words: seq<string>)
    requires forall k | 0 <= k < |words| :: Word(words[k])
    ensures Fields(Join(words, ' ')) == words
    decreases |words|
  {
    if |words| == 1 {
      WordThenRest(words[0], "");
      assert words[0] + "" == words[0];
    } else if |words| > 1 {
      FieldsJoin(words[1..]);
      var rest := [' '] + Join(words[1..], ' ');
      WordThenRest(words[0], rest);
      assert rest[1..] == Join(words[1..], ' ');
      assert words[0] + rest == words[0] + [' '] + Join(words[1..], ' ');
    }
  }

  lemma SkipChar(c: char, t: string)
    requires !HasPrefix([c] + t, SEPARATOR)
    ensures SeparatorAt([c] + t) == 1 + SeparatorAt(t)
  {
    assert ([c] + t)[1..] == t;
  }

  lemma SkipNonBlank(c: char, t: string)
    requires c != ' '
    ensures SeparatorAt([c] + t) == 1 + SeparatorAt(t)
  {
    DifferAt([c] + t, SEPARATOR, 0);
    SkipChar(c, t);
  }

  lemma FrontAndRest(w: string, t: string)
    requires w != ""
    ensures w + t == [w[0]] + (w[1..] + t)
  {
  }

  /** The separator does not begin within a word. */
  lemma {:induction false} SkipWord(w: string, t: string)
    requires forall k | 0 <= k < |w| :: !White(w[k])
    ensures SeparatorAt(w + t) == |w| + SeparatorAt(t)
    decreases |w|
  {
    if w == "" {
      assert w + t == t;
    } else {
      SkipWord(w[1..], t);
      SkipNonBlank(w[0], w[1..] + t);
      FrontAndRest(w, t);
    }
  }

  /** A word followed by a blank that does not open the separator. */
  lemma SeparatorPast(w: string, rest: string)
    requires Word(w) && !HasPrefix([' '] + rest, SEPARATOR)
    ensures SeparatorAt(w + ([' '] + rest)) == |w| + 1 + SeparatorAt(rest)
  {
    SkipWord(w, [' '] + rest);
    SkipChar(' ', rest);
  }

  lemma SeparatorAfterWord(w: string, right: string)
    requires Word(w)
    ensures SeparatorAt(w + (SEPARATOR + right)) == |w|
  {
    SkipWord(w, SEPARATOR + right);
    assert HasPrefix(SEPARATOR + right, SEPARATOR);
  }

  /** Printed words, cut after the first. */
  lemma JoinedTail(words: seq<string>, right: string)
    requires |words| > 1
    ensures Join(words, ' ') + SEPARATOR + right == words[0] + ([' '] + (Join(words[1..], ' ') + SEPARATOR + right))
  {
  }

  lemma {:induction false} SeparatorFound(words: seq<string>, right: string)
    requires words != [] && forall k | 0 <= k < |words| :: Word(words[k]) && words[k] != "-"
    ensures SeparatorAt(Join(words, ' ') + SEPARATOR + right) == |Join(words, ' ')|
    decreases |words|
  {
    if |words| == 1 {
      SeparatorAfterWord(words[0], right);
      Associate(words[0], SEPARATOR, right);
    } else {
      SeparatorFound(words[1..], right);
      NotTheSeparator(words[1..], right);
      SeparatorPast(words[0], Join(words[1..], ' ') + SEPARATOR + right);
      JoinedTail(words, right);
    }
  }

  lemma NotTheSeparator(words: seq<string>, right: string)
    requires words != [] && Word(words[0]) && words[0] != "-"
    ensures !HasPrefix([' '] + (Join(words, ' ') + SEPARATOR + right), SEPARATOR)
  {
    var w := words[0];
    var t := [' '] + (Join(words, ' ') + SEPARATOR + right);
    assert forall k | 0 <= k < |w| :: t[1 + k] == w[k];
    if |w| == 1 {
      assert w == [w[0]] && t[1] == w[0] != '-';
      DifferAt(t, SEPARATOR, 1);
    } else {
      assert t[2] == w[1] != ' ';
      DifferAt(t, SEPARATOR, 2);
    }
  }

  lemma ReadPrinted(r: Row)
    requires GoodRow(r)
    ensures ReadLine(PrintRow(r)) == Some(Seen(r.major + ":" + r.minor, Escape(r.point, SPECIAL), r.fstype))
  {
    var left := LeftFields(r);
    ReadJoined(left, r.fstype, r.rest);
    assert PrintRow(r) == Join(left, ' ') + SEPARATOR + (r.fstype + " " + r.rest);
    assert left[2] == r.major + ":" + r.minor && left[4] == Escape(r.point, SPECIAL);
  }

  lemma {:induction false} ReadJoined(left: seq<string>, fstype: string, rest: string)
    requires |left| >= 5 && Word(fstype) && forall k | 0 <= k < |left| :: Word(left[k]) && left[k] != "-"
    ensures ReadLine(Join(left, ' ') + SEPARATOR + (fstype + " " + rest)) == Some(Seen(left[2], left[4], fstype))
  {
    var right := fstype + " " + rest;
    SeparatorFound(left, right);
    FieldsJoin(left);
    WordThenRest(fstype, " " + rest);
    Associate(fstype, " ", rest);
    SeparatorCuts(Join(left, ' '), right);
  }

  lemma SeparatorCuts(l: string, r: string)
    ensures (l + SEPARATOR + r)[..|l|] == l && (l + SEPARATOR + r)[|l| + 3..] == r
  {
  }

  lemma MinorPrinted(r: Row)
    requires GoodRow(r)
    ensures MinorOf(r.major + ":" + r.minor) == Some(r.minor) && ParsesAsInt(r.minor)
  {
    IndexOfSplit(r.major, r.minor, ':');
    assert r.major + ":" + r.minor == r.major + [':'] + r.minor;
  }

  lemma {:induction false} WordsHaveNoNewline(words: seq<string>)
    requires forall k | 0 <= k < |words| :: Word(words[k])
    ensures Free(Join(words, ' '), '\n')
    decreases |words|
  {
    if |words| > 1 {
      WordsHaveNoNewline(words[1..]);
    }
  }

  lemma RowIsOneLine(r: Row)
    requires GoodRow(r)
    ensures Free(PrintRow(r), '\n')
  {
    WordsHaveNoNewline(LeftFields(r));
  }

  lemma {:induction false} PrintedLines(rows: seq<Row>)
    requires GoodRows(rows)
    ensures Split(PrintTable(rows), '\n') == PrintedRows(rows) + [""]
    decreases |rows|
  {
    if rows == [] {
      SplitFree("", '\n');
    } else {
      PrintedLines(rows[1..]);
      RowIsOneLine(rows[0]);
      SplitStep(PrintRow(rows[0]), PrintTable(rows[1..]), '\n');
      RowsCons(rows);
    }
  }

  lemma RowsCons(rows: seq<Row>)
    requires GoodRows(rows) && rows != []
    ensures PrintedRows(rows) + [""] == [PrintRow(rows[0])] + (PrintedRows(rows[1..]) + [""])
  {
  }

  // ---------------------------------------------------------------- the lookups on printed tables

  /** ParseFuseConnIDFromMountinfo finds the first FUSE mount at the path, and nothing when there is none. */
  lemma LookupPrinted(rows: seq<Row>, path: string)
    requires GoodRows(rows)
    ensures FirstMinor(Split(PrintTable(rows), '\n'), Clean(path)) == FirstFuseMinor(rows, path)
  {
    PrintedLines(rows);
    LookupLines(rows, path);
  }

  lemma FirstMinorCons(line: string, rest: seq<string>, want: string)
    ensures var seen := ReadLine(line);
            FirstMinor([line] + rest, want)
            == if seen.Some? && FuseLineAt(seen.value, want) then MinorOf(seen.value.device) else FirstMinor(rest, want)
  {
    assert ([line] + rest)[1..] == rest;
  }

  lemma {:induction false} LookupLines(rows: seq<Row>, path: string)
    requires GoodRows(rows)
    ensures FirstMinor(PrintedRows(rows) + [""], Clean(path)) == FirstFuseMinor(rows, path)
    decreases |rows|
  {
    if rows == [] {
      assert PrintedRows(rows) + [""] == [""] + [];
      assert ReadLine("") == None;
      FirstMinorCons("", [], Clean(path));
    } else {
      LookupLines(rows[1..], path);
      RowsCons(rows);
      FirstMinorCons(PrintRow(rows[0]), PrintedRows(rows[1..]) + [""], Clean(path));
      LookupRow(rows[0], path);
    }
  }

  lemma LookupRow(r: Row, path: string)
    requires GoodRow(r)
    ensures ReadLine(PrintRow(r)).Some?
    ensures var seen := ReadLine(PrintRow(r)).value;
            && (FuseLineAt(seen, Clean(path)) <==> FuseRow(r) && Clean(r.point) == Clean(path))
            && MinorOf(seen.device) == Some(r.minor)
  {
    ReadPrinted(r);
    MinorPrinted(r);
    UnescapeEscape(r.point, SPECIAL);
  }

  predicate Shares(r: Row, path: string, id: string) {
    FuseRow(r) && r.minor == id && Clean(r.point) != Clean(path)
  }

  lemma SharingPrinted(r: Row, path: string, id: string)
    requires GoodRow(r)
    ensures SharingLine(PrintRow(r), Clean(path), id) <==> Shares(r, path, id)
  {
    ReadPrinted(r);
    MinorPrinted(r);
    UnescapeEscape(r.point, SPECIAL);
  }

  /** Line by line, and none for what follows the last line break. */
  lemma SharingLines(rows: seq<Row>, path: string, id: string)
    requires GoodRows(rows)
    ensures var lines := Split(PrintTable(rows), '\n');
            && |lines| == |rows| + 1 && !SharingLine(lines[|rows|], Clean(path), id)
            && forall k | 0 <= k < |rows| :: SharingLine(lines[k], Clean(path), id) <==> Shares(rows[k], path, id)
  {
    PrintedLines(rows);
    forall k | 0 <= k < |rows|
      ensures SharingLine(Split(PrintTable(rows), '\n')[k], Clean(path), id) <==> Shares(rows[k], path, id)
    {
      SharingPrinted(rows[k], path, id);
    }
    assert !SharingLine("", Clean(path), id);
  }

  /** fuseConnSharedInMountinfo holds exactly when another mount point shows a FUSE mount with that minor. */
  lemma SharedPrinted(rows: seq<Row>, path: string, id: string)
    requires GoodRows(rows)
    ensures (exists line :: line in Split(PrintTable(rows), '\n') && SharingLine(line, Clean(path), id))
            <==> (exists r :: r in rows && Shares(r, path, id))
  {
    SharingLines(rows, path, id);
    SameSome(Split(PrintTable(rows), '\n'), rows, line => SharingLine(line, Clean(path), id), r => Shares(r, path, id));
  }

  /** Lines that match row for row, and one that matches nothing. */
  lemma SameSome(lines: seq<string>, rows: seq<Row>, f: string -> bool, g: Row -> bool)
    requires |lines| == |rows| + 1 && !f(lines[|rows|])
    requires forall k | 0 <= k < |rows| :: f(lines[k]) <==> g(rows[k])
    ensures (exists line :: line in lines && f(line)) <==> (exists r :: r in rows && g(r))
  {
    forall line | line in lines && f(line) ensures exists r :: r in rows && g(r) {
      var k :| 0 <= k < |lines| && lines[k] == line;
      assert rows[k] in rows;
    }
    forall r | r in rows && g(r) ensures exists line :: line in lines && f(line) {
      var k :| 0 <= k < |rows| && rows[k] == r;
      assert lines[k] in lines;
    }
  }
}
