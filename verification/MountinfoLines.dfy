/** The two mountinfo lookups on any text at all, cut short and malformed lines included. */
module MountinfoLines {
  import opened Text
  import opened Paths
  import opened Mountinfo

  // ---------------------------------------------------------------- octal escapes of any string

  /** A backslash and the three octal digits of a byte, \000 to \377. */
  predicate EscapeAt(s: string, i: nat) {
    i + 3 < |s| && s[i] == '\\' && '0' <= s[i + 1] <= '3' && '0' <= s[i + 2] <= '7' && '0' <= s[i + 3] <= '7'
  }

  predicate HasEscape(s: string) {
    exists i: nat | i < |s| :: EscapeAt(s, i)
  }

  lemma EscapeBelow(s: string)
    requires s != "" && !EscapeAt(s, 0)
    ensures HasEscape(s) <==> HasEscape(s[1..])
  {
    if i: nat :| i < |s| && EscapeAt(s, i) {
      assert EscapeAt(s[1..], i - 1);
    }
    if i: nat :| i < |s[1..]| && EscapeAt(s[1..], i) {
      assert EscapeAt(s, i + 1);
    }
  }

  /** Only escapes are decoded: a string is left as it is exactly if it holds none. */
  lemma {:induction false} UnescapeIff(s: string)
    ensures |Unescape(s)| <= |s|
    ensures Unescape(s) == s <==> !HasEscape(s)
    decreases |s|
  {
    if s != "" {
      if EscapeAt(s, 0) {
        UnescapeIff(s[4..]);
      } else {
        UnescapeIff(s[1..]);
        EscapeBelow(s);
        assert s == [s[0]] + s[1..];
        assert Unescape(s) == s ==> Unescape(s)[1..] == Unescape(s[1..]);
      }
    }
  }

  /** Each escape becomes its byte, whatever stands after it. */
  lemma {:induction false} UnescapeFirst(plain: string, x: char, y: char, z: char, rest: string)
    requires Free(plain, '\\') && '0' <= x <= '3' && '0' <= y <= '7' && '0' <= z <= '7'
    ensures var byte := ((x as int - '0' as int) * 64 + (y as int - '0' as int) * 8 + z as int - '0' as int) as char;
            Unescape(plain + ['\\', x, y, z] + rest) == plain + [byte] + Unescape(rest)
    decreases |plain|
  {
    var s := plain + ['\\', x, y, z] + rest;
    if plain == "" {
      assert s[4..] == rest;
    } else {
      UnescapeFirst(plain[1..], x, y, z, rest);
      assert s[1..] == plain[1..] + ['\\', x, y, z] + rest;
      assert s[0] == plain[0];
    }
  }

  // ---------------------------------------------------------------- one line

  /** The line cut at its first " - ". */
  ghost predicate Cuts(line: string, left: string, right: string) {
    line == left + " - " + right && forall i: nat | i < |left| :: !HasPrefix(line[i..], " - ")
  }

  lemma CutUnique(line: string, a: string, b: string, x: string, y: string)
    requires Cuts(line, a, b) && Cuts(line, x, y)
    ensures a == x && b == y
  {
    assert line[|a|..] == " - " + b && line[|x|..] == " - " + y;
    assert a == line[..|a|] && x == line[..|x|];
    assert b == line[|a| + 3..] && y == line[|x| + 3..];
  }

  lemma {:induction false} SeparatorCut(line: string)
    requires SeparatorAt(line) < |line|
    ensures var i := SeparatorAt(line); i + 3 <= |line| && Cuts(line, line[..i], line[i + 3..])
    decreases |line|
  {
    var i := SeparatorAt(line);
    assert line == line[..i] + line[i..] && line[i..] == " - " + line[i + 3..];
    assert line == line[..i] + " - " + line[i + 3..];
    forall k: nat | k < i ensures !HasPrefix(line[k..], " - ") {
      NothingEarlier(line, k);
    }
  }

  lemma {:induction false} NothingEarlier(line: string, k: nat)
    requires k < SeparatorAt(line)
    ensures !HasPrefix(line[k..], " - ")
    decreases k
  {
    if k == 0 {
      assert line[0..] == line;
    } else {
      NothingEarlier(line[1..], k - 1);
      assert line[1..][k - 1..] == line[k..];
    }
  }

  lemma {:induction false} NoSeparatorNoCut(line: string, left: string, right: string)
    requires Cuts(line, left, right)
    ensures SeparatorAt(line) < |line|
    decreases |line|
  {
    if !HasPrefix(line, " - ") {
      LaterCut(line, left, right);
      NoSeparatorNoCut(line[1..], left[1..], right);
    }
  }

  lemma LaterCut(line: string, left: string, right: string)
    requires line != "" && !HasPrefix(line, " - ") && Cuts(line, left, right)
    ensures left != "" && Cuts(line[1..], left[1..], right)
  {
    assert line[|left|..] == " - " + right;
    assert line[0..] == line;
    assert line[1..] == left[1..] + " - " + right;
    forall k: nat | k < |left[1..]| ensures !HasPrefix(line[1..][k..], " - ") {
      assert line[1..][k..] == line[k + 1..];
    }
  }

  /** A number in base ten: digits after an optional sign, and of 64 bits. */
  predicate Spelled(s: string, sign: string, digits: string) {
    && s == sign + digits && sign in {"", "+", "-"} && Digits(digits)
    && DecimalValue(digits) <= if sign == "-" then 0x8000_0000_0000_0000 else 0x7FFF_FFFF_FFFF_FFFF
  }

  ghost predicate Numeral(s: string) {
    exists sign, digits :: Spelled(s, sign, digits)
  }

  lemma NumeralIff(s: string)
    ensures ParsesAsInt(s) <==> Numeral(s)
  {
    if ParsesAsInt(s) {
      var sign := if s[0] == '-' then "-" else if s[0] == '+' then "+" else "";
      assert s == sign + s[|sign|..];
      assert sign == "" ==> s[|sign|..] == s;
      assert Spelled(s, sign, s[|sign|..]);
    }
    if sign, digits :| Spelled(s, sign, digits) {
      SpelledParses(s, sign, digits);
    }
  }

  lemma SpelledParses(s: string, sign: string, digits: string)
    requires Spelled(s, sign, digits)
    ensures ParsesAsInt(s)
  {
    if sign == "" {
      assert s == digits;
    } else {
      assert s[1..] == digits && s[0] == sign[0];
    }
  }

  /**
   * A mount as the third and fifth field before the separator and the first one after it tell it: the two numbers of
   * the device, the place and the kind.
   */
  ghost predicate Shows(line: string, major: string, minor: string, place: string) {
    exists left, right ::
      && Cuts(line, left, right) && |Fields(left)| >= 5 && |Fields(right)| >= 1
      && Fields(left)[2] == major + [':'] + minor && Free(major, ':')
      && Fields(left)[4] == place
      && (Fields(right)[0] == "fuse" || HasPrefix(Fields(right)[0], "fuse."))
  }

  /** The same whatever the first number of the device is. */
  ghost predicate ShowsMinor(line: string, minor: string, place: string) {
    exists major :: Shows(line, major, minor, place)
  }

  lemma ShowsIff(line: string, minor: string, place: string)
    ensures ShowsMinor(line, minor, place)
            <==> var seen := ReadLine(line);
                 seen.Some? && MinorOf(seen.value.device) == Some(minor) && seen.value.point == place
                 && IsFuse(seen.value.fstype)
  {
    var i := SeparatorAt(line);
    if i < |line| {
      SeparatorCut(line);
      CutShowsIff(line, line[..i], line[i + 3..], minor, place);
    } else if major :| Shows(line, major, minor, place) {
      var l, r :| Cuts(line, l, r);
      NoSeparatorNoCut(line, l, r);
      assert false;
    }
  }

  lemma CutShowsIff(line: string, l: string, r: string, minor: string, place: string)
    requires Cuts(line, l, r)
    ensures ShowsMinor(line, minor, place)
            <==> && |Fields(l)| >= 5 && |Fields(r)| >= 1 && MinorOf(Fields(l)[2]) == Some(minor)
                 && Fields(l)[4] == place && IsFuse(Fields(r)[0])
  {
    forall a, b | Cuts(line, a, b) ensures a == l && b == r {
      CutUnique(line, a, b, l, r);
    }
    if |Fields(l)| >= 5 {
      MinorIff(Fields(l)[2], minor);
    }
    if |Fields(l)| >= 5 && |Fields(r)| >= 1 && MinorOf(Fields(l)[2]) == Some(minor) && Fields(l)[4] == place
       && IsFuse(Fields(r)[0]) {
      var major :| Free(major, ':') && Fields(l)[2] == major + [':'] + minor;
      assert Shows(line, major, minor, place);
    }
  }

  lemma MinorIff(device: string, minor: string)
    ensures MinorOf(device) == Some(minor) <==> exists major :: Free(major, ':') && device == major + [':'] + minor
  {
    var i := IndexOf(device, ':');
    if i < |device| {
      assert device == device[..i] + [':'] + device[i + 1..];
    }
    forall major | Free(major, ':') && device == major + [':'] + minor ensures MinorOf(device) == Some(minor) {
      IndexOfSplit(major, minor, ':');
    }
  }

  // ---------------------------------------------------------------- the lookups

  /** The line shows a FUSE mount at the path, with a minor number that can be read. */
  ghost predicate Names(line: string, path: string, id: string) {
    id != "" && Numeral(id) && exists place :: ShowsMinor(line, id, place) && Clean(Unescape(place)) == Clean(path)
  }

  lemma NamesIff(line: string, path: string, id: string)
    ensures Names(line, path, id)
            <==> var seen := ReadLine(line);
                 seen.Some? && FuseLineAt(seen.value, Clean(path)) && MinorOf(seen.value.device) == Some(id)
  {
    NumeralIff(id);
    forall place ensures ShowsMinor(line, id, place)
                         <==> var seen := ReadLine(line);
                              seen.Some? && MinorOf(seen.value.device) == Some(id) && seen.value.point == place
                              && IsFuse(seen.value.fstype)
    {
      ShowsIff(line, id, place);
    }
  }

  ghost predicate NamesNone(line: string, path: string) {
    forall id :: !Names(line, path, id)
  }

  /** Line number k is the first that names a connection for the path. */
  ghost predicate NamesFirst(lines: seq<string>, path: string, id: string, k: nat) {
    k < |lines| && Names(lines[k], path, id) && forall j | 0 <= j < k :: NamesNone(lines[j], path)
  }

  /**
   * On any text the lookup answers with the minor number of the first line that names a connection for the path, and
   * with nothing exactly if there is no such line.
   */
  lemma {:induction false} LookupIff(lines: seq<string>, path: string, id: string)
    ensures FirstMinor(lines, Clean(path)) == Some(id) <==> exists k: nat :: NamesFirst(lines, path, id, k)
    decreases |lines|
  {
    if lines != [] {
      var seen, rest := ReadLine(lines[0]), lines[1..];
      forall other ensures Names(lines[0], path, other)
                           <==> seen.Some? && FuseLineAt(seen.value, Clean(path))
                                && MinorOf(seen.value.device) == Some(other)
      {
        NamesIff(lines[0], path, other);
      }
      if seen.Some? && FuseLineAt(seen.value, Clean(path)) {
        var found := MinorOf(seen.value.device).value;
        assert Names(lines[0], path, found);
        assert NamesFirst(lines, path, found, 0);
        forall k: nat | NamesFirst(lines, path, id, k) ensures k == 0 && id == found {
        }
      } else {
        LookupIff(rest, path, id);
        NamedLater(lines, path, id);
      }
    }
  }

  lemma NamedLater(lines: seq<string>, path: string, id: string)
    requires lines != [] && NamesNone(lines[0], path)
    ensures (exists k: nat :: NamesFirst(lines, path, id, k)) <==> exists k: nat :: NamesFirst(lines[1..], path, id, k)
  {
    forall k: nat ensures NamesFirst(lines, path, id, k + 1) <==> NamesFirst(lines[1..], path, id, k) {
      NamedOneLater(lines, path, id, k);
    }
    if k: nat :| NamesFirst(lines, path, id, k) {
      assert k > 0 && NamesFirst(lines, path, id, k - 1 + 1);
      assert NamesFirst(lines[1..], path, id, k - 1);
    }
  }

  lemma NamedOneLater(lines: seq<string>, path: string, id: string, k: nat)
    requires lines != [] && NamesNone(lines[0], path)
    ensures NamesFirst(lines, path, id, k + 1) <==> NamesFirst(lines[1..], path, id, k)
  {
    if NamesFirst(lines, path, id, k + 1) {
      forall j | 0 <= j < k ensures NamesNone(lines[1..][j], path) {
        assert NamesNone(lines[j + 1], path);
      }
    }
    if NamesFirst(lines[1..], path, id, k) {
      forall j | 0 <= j < k + 1 ensures NamesNone(lines[j], path) {
        assert j > 0 ==> NamesNone(lines[1..][j - 1], path);
      }
    }
  }

  /** On any text the sharing test looks for a FUSE mount with the minor number at another place. */
  lemma SharingIff(line: string, path: string, id: string)
    ensures SharingLine(line, Clean(path), id)
            <==> exists place :: ShowsMinor(line, id, place) && Clean(Unescape(place)) != Clean(path)
  {
    var seen := ReadLine(line);
    forall place ensures ShowsMinor(line, id, place)
                         <==> seen.Some? && MinorOf(seen.value.device) == Some(id) && seen.value.point == place
                              && IsFuse(seen.value.fstype)
    {
      ShowsIff(line, id, place);
    }
    if SharingLine(line, Clean(path), id) {
      assert ShowsMinor(line, id, seen.value.point);
    }
  }
}
