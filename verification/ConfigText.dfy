/** The INI text of a config: serializeConfigRemotes, and a parser for the grammar it emits. */
module ConfigText {
  import opened Text
  import opened RemoteRewrite
  import opened ConfigIsolation

  // ---------------------------------------------------------------- sorted listings

  /** The byte order of `sort.Strings`. */
  predicate Less(a: string, b: string)
    decreases |a|
  {
    b != "" && (a == "" || a[0] < b[0] || (a[0] == b[0] && Less(a[1..], b[1..])))
  }

  lemma {:induction false} LessTotal(a: string, b: string)
    ensures Less(a, b) || a == b || Less(b, a)
    decreases |a|
  {
    if a != "" && b != "" && a[0] == b[0] {
      LessTotal(a[1..], b[1..]);
      assert a == [a[0]] + a[1..] && b == [b[0]] + b[1..];
    }
  }

  lemma {:induction false} LessTransitive(a: string, b: string, c: string)
    requires Less(a, b) && Less(b, c)
    ensures Less(a, c)
    decreases |a|
  {
    if a != "" && a[0] == b[0] && b[0] == c[0] {
      LessTransitive(a[1..], b[1..], c[1..]);
    }
  }

  lemma {:induction false} LessIrreflexive(a: string)
    ensures !Less(a, a)
    decreases |a|
  {
    if a != "" {
      LessIrreflexive(a[1..]);
    }
  }

  ghost predicate IsListing(names: seq<string>, keys: set<string>) {
    (forall i, j | 0 <= i < j < |names| :: Less(names[i], names[j])) && forall n :: n in names <==> n in keys
  }

  lemma {:induction false} LeastExists(keys: set<string>) returns (least: string)
    requires keys != {}
    ensures least in keys && forall n | n in keys && n != least :: Less(least, n)
    decreases keys
  {
    least :| least in keys;
    if keys != {least} {
      var rest := keys - {least};
      var other := LeastExists(rest);
      LessTotal(least, other);
      forall n | n in rest && n != other && Less(least, other) ensures Less(least, n) {
        LessTransitive(least, other, n);
      }
      if Less(other, least) {
        least := other;
      }
    }
  }

  /** A set of strings has one sorted listing, so nothing rendered from it depends on iteration order. */
  lemma {:induction false} ListingUnique(a: seq<string>, b: seq<string>, keys: set<string>)
    requires IsListing(a, keys) && IsListing(b, keys)
    ensures a == b
    decreases |a|
  {
    if a != [] {
      assert a[0] in b;
    }
    if b != [] {
      assert b[0] in a;
    }
    if a != [] && b != [] {
      SameHead(a, b, keys);
      TailListing(a, keys);
      TailListing(b, keys);
      ListingUnique(a[1..], b[1..], keys - {a[0]});
      assert a == [a[0]] + a[1..] && b == [b[0]] + b[1..];
    }
  }

  lemma SameHead(a: seq<string>, b: seq<string>, keys: set<string>)
    requires IsListing(a, keys) && IsListing(b, keys) && a != [] && b != []
    ensures a[0] == b[0]
  {
    assert a[0] in b && b[0] in a;
    var i :| 0 <= i < |b| && b[i] == a[0];
    var j :| 0 <= j < |a| && a[j] == b[0];
    if i > 0 && j > 0 {
      LessTransitive(a[0], b[0], a[0]);
      LessIrreflexive(a[0]);
    }
  }

  lemma TailListing(a: seq<string>, keys: set<string>)
    requires IsListing(a, keys) && a != []
    ensures IsListing(a[1..], keys - {a[0]})
  {
    forall n ensures n in a[1..] <==> n in keys - {a[0]} {
      if n in a[1..] {
        var i :| 0 <= i < |a| - 1 && a[1..][i] == n;
        assert Less(a[0], a[i + 1]);
        LessIrreflexive(n);
      }
      if n in keys && n != a[0] {
        var i :| 0 <= i < |a| && a[i] == n;
        assert a[1..][i - 1] == n;
      }
    }
  }

  lemma {:induction false} ListingExists(keys: set<string>) returns (names: seq<string>)
    ensures IsListing(names, keys)
    decreases keys
  {
    if keys == {} {
      names := [];
    } else {
      var least := LeastExists(keys);
      var rest := ListingExists(keys - {least});
      names := [least] + rest;
      forall n ensures n in names <==> n in keys {
        assert n in names <==> n == least || n in rest;
      }
    }
  }

  ghost function Listing(keys: set<string>): (names: seq<string>)
    ensures IsListing(names, keys)
  {
    assert exists ns :: IsListing(ns, keys) by {
      var ns := ListingExists(keys);
    }
    var names :| IsListing(names, keys);
    names
  }

  // ---------------------------------------------------------------- rendering

  function RenderKey(key: string, value: string): string {
    key + " = " + value
  }

  function RenderKeys(data: Section, keys: seq<string>): string
    requires forall k | k in keys :: k in data
  {
    if keys == [] then "" else RenderKey(keys[0], data[keys[0]]) + "\n" + RenderKeys(data, keys[1..])
  }

  ghost function RenderSection(name: string, data: Section): string {
    "[" + name + "]" + "\n" + (RenderKeys(data, Listing(data.Keys)) + "\n")
  }

  ghost function RenderSections(all: Config, names: seq<string>): string
    requires forall n | n in names :: n in all
  {
    if names == [] then "" else RenderSection(names[0], all[names[0]]) + RenderSections(all, names[1..])
  }

  /** The text of a config, a function of the map alone. */
  ghost function Serialized(all: Config): string {
    RenderSections(all, Listing(all.Keys))
  }

  /** How a section with one key is spelled out. */
  lemma SpelledOut(name: string, key: string, value: string)
    ensures Serialized(map[name := map[key := value]]) == "[" + name + "]\n" + key + " = " + value + "\n\n"
  {
    var data: Section := map[key := value];
    var all: Config := map[name := data];
    ListingOfOne(name, all.Keys);
    ListingOfOne(key, data.Keys);
    assert RenderKeys(data, [key]) == RenderKey(key, value) + "\n" + "";
    assert RenderSections(all, [name]) == RenderSection(name, data) + "";
  }

  lemma ListingOfOne(n: string, keys: set<string>)
    requires keys == {n}
    ensures Listing(keys) == [n]
  {
    assert IsListing([n], keys);
    ListingUnique(Listing(keys), [n], keys);
  }

  // ---------------------------------------------------------------- parsing

  const DEFAULT_SECTION := "DEFAULT"

  datatype Parser = Reading(current: string, sections: Config) | Failed

  predicate Space(c: char) {
    c in {' ', '\t', '\n', '\r', 11 as char, 12 as char}
  }

  predicate Trimmed(s: string) {
    s != "" ==> !Space(s[0]) && !Space(s[|s| - 1])
  }

  function TrimRight(s: string): string {
    if s != "" && Space(s[|s| - 1]) then TrimRight(s[..|s| - 1]) else s
  }

  function TrimLeft(s: string): string {
    if s != "" && Space(s[0]) then TrimLeft(s[1..]) else s
  }

  function Trim(s: string): string {
    TrimLeft(TrimRight(s))
  }

  predicate Delimiter(c: char) {
    c == '=' || c == ':'
  }

  function DelimiterIndex(s: string): (i: nat)
    ensures i <= |s| && (forall k | 0 <= k < i :: !Delimiter(s[k])) && (i < |s| ==> Delimiter(s[i]))
  {
    if s == "" || Delimiter(s[0]) then 0 else 1 + DelimiterIndex(s[1..])
  }

  predicate Quote(s: string) {
    s != "" && (s[0] == '"' || s[0] == '`')
  }

  predicate Header(t: string) {
    |t| >= 2 && t[0] == '[' && t[|t| - 1] == ']'
  }

  /** A section header, a `key = value` line, or a line without content; quoting is not supported. */
  function ParseLine(line: string, p: Parser): Parser {
    if p.Failed? then p
    else
      var t := Trim(line);
      if t == "" || t[0] == '#' || t[0] == ';' then p
      else if Header(t) then
        OpenSection(p, Trim(t[1..|t| - 1]))
      else
        var i := DelimiterIndex(t);
        if i == |t| || Trim(t[..i]) == "" || Quote(t) || Quote(Trim(t[i + 1..])) then Failed
        else SetValue(p, Trim(t[..i]), Trim(t[i + 1..]))
  }

  function OpenSection(p: Parser, name: string): Parser
    requires p.Reading?
  {
    Reading(name, if name in p.sections then p.sections else p.sections[name := map[]])
  }

  function SetValue(p: Parser, key: string, value: string): Parser
    requires p.Reading?
  {
    var data := if p.current in p.sections then p.sections[p.current] else map[];
    Reading(p.current, p.sections[p.current := data[key := value]])
  }

  function ParseLines(text: string, p: Parser): Parser
    decreases |text|
  {
    var i := IndexOf(text, '\n');
    var p' := ParseLine(text[..i], p);
    if i == |text| then p' else ParseLines(text[i + 1..], p')
  }

  /** parseAllConfigRemotes: every section but DEFAULT. */
  function ParseAllConfigRemotes(text: string): Option<Config> {
    match ParseLines(text, Reading(DEFAULT_SECTION, map[]))
    case Failed => None
    case Reading(_, sections) => Some(sections - {DEFAULT_SECTION})
  }

  // ---------------------------------------------------------------- what a line says

  predicate Blank(c: char) {
    c in {' ', '\t', '\n', '\r', 11 as char, 12 as char}
  }

  predicate Blanks(s: string) {
    forall k | 0 <= k < |s| :: Blank(s[k])
  }

  /** No blank at either end. */
  predicate Bare(s: string) {
    s != "" ==> !Blank(s[0]) && !Blank(s[|s| - 1])
  }

  lemma {:induction false} TrimRightBlanks(s: string, r: string)
    requires Blanks(r)
    ensures TrimRight(s + r) == TrimRight(s)
    decreases |r|
  {
    if r == "" {
      assert s + r == s;
    } else {
      var front := r[..|r| - 1];
      assert (s + r)[..|s + r| - 1] == s + front;
      TrimRightBlanks(s, front);
    }
  }

  lemma {:induction false} TrimLeftBlanks(l: string, s: string)
    requires Blanks(l)
    ensures TrimLeft(l + s) == TrimLeft(s)
    decreases |l|
  {
    if l == "" {
      assert l + s == s;
    } else {
      assert (l + s)[1..] == l[1..] + s;
      TrimLeftBlanks(l[1..], s);
    }
  }

  lemma TrimBlanks(l: string, s: string, r: string)
    requires Blanks(l) && Blanks(r) && Bare(s)
    ensures Trim(l + s + r) == s
  {
    TrimRightBlanks(l + s, r);
    if s == "" {
      assert l + s == l && "" + l == l;
      TrimRightBlanks("", l);
    } else {
      assert (l + s)[|l + s| - 1] == s[|s| - 1];
      TrimLeftBlanks(l, s);
    }
  }

  /** A word that a line may set: not empty, without blanks around it and without a character of special meaning. */
  predicate PlainKey(key: string) {
    key != "" && Bare(key) && '=' !in key && ':' !in key && key[0] !in {'#', ';', '[', '"', '`'}
  }

  predicate PlainValue(value: string) {
    Bare(value) && (value != "" ==> value[0] !in {'"', '`'})
  }

  lemma DelimiterFound(key: string, m: string, d: char, rest: string)
    requires PlainKey(key) && Blanks(m) && d in {'=', ':'}
    ensures DelimiterIndex(key + m + [d] + rest) == |key| + |m|
  {
    var t := key + m + [d] + rest;
    forall k | 0 <= k < |key| + |m| ensures !Delimiter(t[k]) {
      if k < |key| {
        assert t[k] == key[k] && key[k] in key;
      } else {
        assert t[k] == m[k - |key|] && Blank(m[k - |key|]);
      }
    }
    assert t[|key| + |m|] == d;
  }

  /** What follows the delimiter, and the line without the blanks around it. */
  lemma LineTrimmed(l: string, key: string, m: string, d: char, n: string, value: string, o: string)
    requires Blanks(l) && Blanks(n) && Blanks(o) && d in {'=', ':'} && PlainKey(key) && PlainValue(value)
    ensures var rest := if value == "" then "" else n + value;
            Trim(l + (key + m + [d] + n + value) + o) == key + m + [d] + rest
  {
    var rest := if value == "" then "" else n + value;
    var t := key + m + [d] + rest;
    assert t[0] == key[0];
    assert t[|t| - 1] == if value == "" then d else value[|value| - 1];
    if value == "" {
      assert l + (key + m + [d] + n + value) + o == l + t + (n + o);
      TrimBlanks(l, t, n + o);
    } else {
      assert key + m + [d] + n + value == t;
      TrimBlanks(l, t, o);
    }
  }

  /** Key and value of a line stand around the first '=' or ':', with any blanks around them. */
  lemma LineSets(l: string, key: string, m: string, d: char, n: string, value: string, o: string, p: Parser)
    requires p.Reading? && Blanks(l) && Blanks(m) && Blanks(n) && Blanks(o) && d in {'=', ':'}
    requires PlainKey(key) && PlainValue(value)
    ensures ParseLine(l + (key + m + [d] + n + value) + o, p) == SetValue(p, key, value)
  {
    var n' := if value == "" then "" else n;
    LineTrimmed(l, key, m, d, n, value, o);
    DelimiterFound(key, m, d, n' + value);
    PartsTrimmed(key, m, d, n', value);
    assert (if value == "" then "" else n + value) == n' + value;
    LineCut(l + (key + m + [d] + n + value) + o, key + m + [d] + (n' + value), |key| + |m|, key, value, p);
  }

  lemma PartsTrimmed(key: string, m: string, d: char, n: string, value: string)
    requires Blanks(m) && Blanks(n) && PlainKey(key) && PlainValue(value)
    ensures var t := key + m + [d] + (n + value);
            && t[0] == key[0] && Trim(t[..|key| + |m|]) == key && Trim(t[|key| + |m| + 1..]) == value
  {
    KeyAndRest(key, m, d, n + value);
    assert "" + key + m == key + m && n + value + "" == n + value;
    TrimBlanks("", key, m);
    TrimBlanks(n, value, "");
  }

  lemma LineCut(line: string, t: string, i: nat, key: string, value: string, p: Parser)
    requires p.Reading? && t == Trim(line) && i < |t| && DelimiterIndex(t) == i
    requires Trim(t[..i]) == key && Trim(t[i + 1..]) == value && PlainKey(key) && PlainValue(value) && t[0] == key[0]
    ensures ParseLine(line, p) == SetValue(p, key, value)
  {
  }

  lemma KeyAndRest(key: string, m: string, d: char, rest: string)
    requires key != ""
    ensures var t := key + m + [d] + rest;
            t[0] == key[0] && t[..|key| + |m|] == key + m && t[|key| + |m| + 1..] == rest
  {
  }

  /** A name in brackets opens its section. */
  lemma LineOpens(l: string, m: string, name: string, n: string, o: string, p: Parser)
    requires p.Reading? && Blanks(l) && Blanks(m) && Blanks(n) && Blanks(o)
    requires Bare(name)
    ensures ParseLine(l + ("[" + (m + name + n) + "]") + o, p)
         == Reading(name, if name in p.sections then p.sections else p.sections[name := map[]])
  {
    var t := "[" + (m + name + n) + "]";
    TrimBlanks(l, t, o);
    assert t[1..|t| - 1] == m + name + n;
    TrimBlanks(m, name, n);
  }

  /** Blank lines and comments say nothing. */
  lemma LineSaysNothing(l: string, mark: char, rest: string, p: Parser)
    requires p.Reading? && Blanks(l) && mark in {'#', ';'} && Bare([mark] + rest)
    ensures ParseLine(l, p) == p && ParseLine(l + ([mark] + rest), p) == p
  {
    TrimBlanks(l, "", "");
    assert l + "" + "" == l;
    TrimBlanks(l, [mark] + rest, "");
    assert l + ([mark] + rest) + "" == l + ([mark] + rest);
  }

  /** Any other line needs a delimiter. */
  lemma LineFails(l: string, t: string, o: string, p: Parser)
    requires p.Reading? && Blanks(l) && Blanks(o) && t != "" && Bare(t) && t[0] !in {'#', ';', '['}
    requires '=' !in t && ':' !in t
    ensures ParseLine(l + t + o, p) == Failed
  {
    TrimBlanks(l, t, o);
    assert forall k | 0 <= k < |t| :: t[k] in t;
  }

  /** A value goes to the section opened last, and replaces an earlier one of its key. */
  lemma SetsInCurrent(p: Parser, key: string, value: string, section: string, k: string)
    requires p.Reading?
    ensures var q := SetValue(p, key, value);
            && q.Reading? && q.current == p.current
            && q.sections.Keys == p.sections.Keys + {p.current}
            && (section in p.sections && section != p.current ==> q.sections[section] == p.sections[section])
            && key in q.sections[p.current] && q.sections[p.current][key] == value
            && (k != key ==>
                  && (k in q.sections[p.current] <==> p.current in p.sections && k in p.sections[p.current])
                  && (k in q.sections[p.current] ==> q.sections[p.current][k] == p.sections[p.current][k]))
  {
  }

  // ---------------------------------------------------------------- well-formed maps

  predicate GoodName(name: string) {
    Trimmed(name) && Free(name, '\n')
  }

  predicate GoodEntry(key: string, value: string) {
    && key != "" && GoodName(key) && GoodName(value)
    && (forall c | c in key :: !Delimiter(c))
    && key[0] != '#' && key[0] != ';' && !Quote(key) && !Quote(value)
    && (key[0] == '[' ==> value == "" || value[|value| - 1] != ']')
  }

  predicate GoodSection(data: Section) {
    forall k | k in data :: GoodEntry(k, data[k])
  }

  predicate GoodConfig(all: Config) {
    forall n | n in all :: GoodName(n) && GoodSection(all[n])
  }

  predicate WellFormed(all: Config) {
    DEFAULT_SECTION !in all && GoodConfig(all)
  }

  // ---------------------------------------------------------------- parse after serialize

  lemma TrimSpec(s: string)
    ensures Trimmed(Trim(s)) && forall c | c in Trim(s) :: c in s
  {
    TrimRightSpec(s);
    TrimLeftSpec(TrimRight(s));
  }

  lemma {:induction false} TrimRightSpec(s: string)
    ensures var r := TrimRight(s); (r != "" ==> !Space(r[|r| - 1])) && forall c | c in r :: c in s
    decreases |s|
  {
    if s != "" && Space(s[|s| - 1]) {
      TrimRightSpec(s[..|s| - 1]);
    }
  }

  lemma {:induction false} TrimLeftSpec(s: string)
    ensures var r := TrimLeft(s); (r != "" ==> !Space(r[0]) && r[|r| - 1] == s[|s| - 1]) && forall c | c in r :: c in s
    decreases |s|
  {
    if s != "" && Space(s[0]) {
      TrimLeftSpec(s[1..]);
    }
  }

  lemma TrimPadded(s: string)
    requires Trimmed(s)
    ensures Trim(s) == s && Trim(s + " ") == s && Trim(" " + s) == s
  {
    assert (s + " ")[..|s|] == s && (" " + s)[1..] == s;
    assert TrimRight(s + " ") == TrimRight(s) == s;
    if s == "" {
      assert " " + s == s + " ";
    }
  }

  lemma HeaderLine(name: string, p: Parser)
    requires p.Reading? && GoodName(name)
    ensures ParseLine("[" + name + "]", p) == OpenSection(p, name)
  {
    var t := "[" + name + "]";
    TrimPadded(t);
    TrimPadded(name);
    assert t[1..|t| - 1] == name;
  }

  lemma EntryLine(key: string, value: string, p: Parser)
    requires p.Reading? && GoodEntry(key, value)
    ensures ParseLine(RenderKey(key, value), p) == SetValue(p, key, value)
  {
    var t := TrimmedEntry(key, value);
    EntrySplit(key, value, t);
    EntryStart(key, value, t);
  }

  lemma EntryStart(key: string, value: string, t: string)
    requires GoodEntry(key, value) && t == if value == "" then key + " =" else key + " = " + value
    ensures t != "" && t[0] != '#' && t[0] != ';' && !Quote(t) && !Header(t)
  {
    assert t[0] == key[0];
    assert t[|t| - 1] == if value == "" then '=' else value[|value| - 1];
  }

  /** The equals sign is the delimiter found. */
  lemma EntryDelimiter(key: string, rest: string)
    requires GoodEntry(key, "") && key != ""
    ensures DelimiterIndex(key + " =" + rest) == |key| + 1
  {
    var t := key + " =" + rest;
    assert t[|key|] == ' ' && t[|key| + 1] == '=' && forall k | 0 <= k < |key| :: t[k] == key[k];
  }

  lemma EntrySplit(key: string, value: string, t: string)
    requires GoodEntry(key, value) && t == if value == "" then key + " =" else key + " = " + value
    ensures var i := DelimiterIndex(t); i < |t| && Trim(t[..i]) == key && Trim(t[i + 1..]) == value
  {
    var rest := EntryRest(key, value, t);
    EntryDelimiter(key, rest);
    EntryParts(key, rest);
    TrimPadded(key);
    TrimPadded(value);
  }

  lemma EntryRest(key: string, value: string, t: string) returns (rest: string)
    requires t == if value == "" then key + " =" else key + " = " + value
    ensures rest == (if value == "" then "" else " " + value) && t == key + " =" + rest
  {
    rest := if value == "" then "" else " " + value;
    assert " = " == " =" + " ";
    assert key + (" =" + " ") + value == key + " =" + (" " + value);
  }

  lemma EntryParts(key: string, rest: string)
    ensures (key + " =" + rest)[..|key| + 1] == key + " " && (key + " =" + rest)[|key| + 2..] == rest
  {
    assert (key + " =" + rest)[|key|] == ' ';
  }

  lemma TrimmedEntry(key: string, value: string) returns (t: string)
    requires GoodEntry(key, value)
    ensures t == Trim(RenderKey(key, value)) && Trimmed(t)
    ensures t == if value == "" then key + " =" else key + " = " + value
    ensures t[|t| - 1] == if value == "" then '=' else value[|value| - 1]
  {
    t := if value == "" then key + " =" else key + " = " + value;
    TrimPadded(t);
    assert value == "" ==> RenderKey(key, value) == t + " ";
  }

  lemma OneLine(line: string, rest: string, p: Parser)
    requires Free(line, '\n')
    ensures ParseLines(line + "\n" + rest, p) == ParseLines(rest, ParseLine(line, p))
  {
    IndexOfSplit(line, rest, '\n');
  }

  ghost function WithKeys(data: Section, source: Section, keys: seq<string>): Section
    requires forall k | k in keys :: k in source
    decreases |keys|
  {
    if keys == [] then data else WithKeys(data[keys[0] := source[keys[0]]], source, keys[1..])
  }

  lemma {:induction false} ParseKeys(source: Section, keys: seq<string>, rest: string, name: string, sections: Config)
    requires GoodSection(source) && (forall k | k in keys :: k in source) && name in sections
    ensures ParseLines(RenderKeys(source, keys) + rest, Reading(name, sections))
         == ParseLines(rest, Reading(name, sections[name := WithKeys(sections[name], source, keys)]))
    decreases |keys|
  {
    if keys == [] {
      assert "" + rest == rest && sections[name := sections[name]] == sections;
    } else {
      var next := ParseFirstKey(source, keys, rest, name, sections);
      ParseKeys(source, keys[1..], rest, name, next);
    }
  }

  lemma ParseFirstKey(source: Section, keys: seq<string>, rest: string, name: string, sections: Config)
    returns (next: Config)
    requires GoodSection(source) && (forall k | k in keys :: k in source) && name in sections && keys != []
    ensures name in next
    ensures ParseLines(RenderKeys(source, keys) + rest, Reading(name, sections))
         == ParseLines(RenderKeys(source, keys[1..]) + rest, Reading(name, next))
    ensures next[name := WithKeys(next[name], source, keys[1..])]
         == sections[name := WithKeys(sections[name], source, keys)]
  {
    var k := keys[0];
    var line, tail := RenderKey(k, source[k]), RenderKeys(source, keys[1..]) + rest;
    assert RenderKeys(source, keys) + rest == line + "\n" + tail;
    EntryIsOneLine(k, source[k]);
    OneLine(line, tail, Reading(name, sections));
    EntryLine(k, source[k], Reading(name, sections));
    next := sections[name := sections[name][k := source[k]]];
  }

  lemma EntryIsOneLine(key: string, value: string)
    requires GoodEntry(key, value)
    ensures Free(RenderKey(key, value), '\n')
  {
  }

  lemma {:induction false} WithAllKeys(data: Section, source: Section, keys: seq<string>)
    requires forall k | k in keys :: k in source
    requires forall k | k in data :: k in source && data[k] == source[k]
    requires forall k | k in source :: k in data || k in keys
    ensures WithKeys(data, source, keys) == source
    decreases |keys|
  {
    if keys != [] {
      assert forall k | k in keys :: k == keys[0] || k in keys[1..];
      WithAllKeys(data[keys[0] := source[keys[0]]], source, keys[1..]);
    }
  }

  lemma ParseSection(name: string, data: Section, rest: string, p: Parser)
    requires p.Reading? && name !in p.sections && GoodName(name) && GoodSection(data)
    ensures ParseLines(RenderSection(name, data) + rest, p) == ParseLines(rest, Reading(name, p.sections[name := data]))
  {
    var tail := "" + "\n" + rest;
    SectionText(name, data, rest);
    OneLine("[" + name + "]", RenderKeys(data, Listing(data.Keys)) + tail, p);
    HeaderLine(name, p);
    ParseBody(name, data, Listing(data.Keys), tail, p.sections);
    OneLine("", rest, Reading(name, p.sections[name := data]));
  }

  lemma ParseBody(name: string, data: Section, keys: seq<string>, tail: string, sections: Config)
    requires name !in sections && GoodSection(data) && forall k :: k in keys <==> k in data
    ensures ParseLines(RenderKeys(data, keys) + tail, Reading(name, sections[name := map[]]))
         == ParseLines(tail, Reading(name, sections[name := data]))
  {
    var started := sections[name := map[]];
    Overwritten(sections, name, data);
    WithAllKeys(started[name], data, keys);
    ParseKeys(data, keys, tail, name, started);
  }

  lemma Overwritten(sections: Config, name: string, data: Section)
    ensures sections[name := map[]][name] == map[] && sections[name := map[]][name := data] == sections[name := data]
  {
  }

  lemma SectionText(name: string, data: Section, rest: string)
    ensures RenderSection(name, data) + rest
         == "[" + name + "]" + "\n" + (RenderKeys(data, Listing(data.Keys)) + ("" + "\n" + rest))
  {
    var body := RenderKeys(data, Listing(data.Keys));
    assert body + "\n" + rest == body + ("" + "\n" + rest);
  }

  lemma {:induction false} ParseSections(all: Config, names: seq<string>, p: Parser)
    requires p.Reading? && WellFormed(all) && Distinct(names)
    requires forall n | n in names :: n in all && n !in p.sections
    requires forall n | n in p.sections :: n in all && p.sections[n] == all[n]
    requires forall n | n in all :: n in p.sections || n in names
    ensures var q := ParseLines(RenderSections(all, names), p); q.Reading? && q.sections == all
    decreases |names|
  {
    if names == [] {
      assert ParseLine("", p) == p;
    } else {
      var n := names[0];
      ParseSection(n, all[n], RenderSections(all, names[1..]), p);
      assert forall m | m in names :: m == n || m in names[1..];
      forall m | m in names[1..] ensures m != n {
        var i :| 0 <= i < |names| - 1 && names[1..][i] == m;
        assert names[i + 1] != names[0];
      }
      ParseSections(all, names[1..], Reading(n, p.sections[n := all[n]]));
    }
  }

  /** Reading back what was written gives the same sections, keys and values. */
  lemma ParseSerialized(all: Config)
    requires WellFormed(all)
    ensures ParseAllConfigRemotes(Serialized(all)) == Some(all)
  {
    var names := Listing(all.Keys);
    ListingDistinct(names, all.Keys);
    ParseSections(all, names, Reading(DEFAULT_SECTION, map[]));
    assert all - {DEFAULT_SECTION} == all;
  }

  lemma ListingDistinct(names: seq<string>, keys: set<string>)
    requires IsListing(names, keys)
    ensures Distinct(names)
  {
    forall i, j | 0 <= i < j < |names| ensures names[i] != names[j] {
      LessIrreflexive(names[i]);
    }
  }

  // ---------------------------------------------------------------- every parsed map is well-formed

  ghost predicate GoodParser(p: Parser) {
    p.Reading? ==> GoodName(p.current) && GoodConfig(p.sections)
  }

  lemma LineKeepsGood(line: string, p: Parser)
    requires Free(line, '\n') && GoodParser(p)
    ensures GoodParser(ParseLine(line, p))
  {
    var t := Trim(line);
    TrimSpec(line);
    if p.Reading? && t != "" && t[0] != '#' && t[0] != ';' {
      if Header(t) {
        TrimSpec(t[1..|t| - 1]);
      } else {
        var i := DelimiterIndex(t);
        if i < |t| && Trim(t[..i]) != "" && !Quote(t) && !Quote(Trim(t[i + 1..])) {
          SplitLine(t, i);
        }
      }
    }
  }

  lemma SplitLine(t: string, i: nat)
    requires i == DelimiterIndex(t) < |t| && Free(t, '\n') && Trimmed(t) && t[0] != '#' && t[0] != ';'
    requires Trim(t[..i]) != "" && !Quote(t) && !Quote(Trim(t[i + 1..])) && !Header(t)
    ensures GoodEntry(Trim(t[..i]), Trim(t[i + 1..]))
  {
    TrimSpec(t[..i]);
    TrimSpec(t[i + 1..]);
    TrimStartsSame(t[..i]);
    TrimEndsSame(t[i + 1..]);
  }

  lemma {:induction false} TrimStartsSame(s: string)
    requires s != "" && !Space(s[0])
    ensures Trim(s) != "" && Trim(s)[0] == s[0]
    decreases |s|
  {
    if Space(s[|s| - 1]) {
      TrimStartsSame(s[..|s| - 1]);
    }
  }

  lemma TrimEndsSame(s: string)
    requires s != "" ==> !Space(s[|s| - 1])
    ensures Trim(s) != "" ==> Trim(s)[|Trim(s)| - 1] == s[|s| - 1]
  {
    TrimLeftSpec(s);
  }

  lemma {:induction false} LinesKeepGood(text: string, p: Parser)
    requires GoodParser(p)
    ensures GoodParser(ParseLines(text, p))
    decreases |text|
  {
    var i := IndexOf(text, '\n');
    LineKeepsGood(text[..i], p);
    if i < |text| {
      LinesKeepGood(text[i + 1..], ParseLine(text[..i], p));
    }
  }

  /** Parsing normalizes: whatever text parses, its map survives being written and read again. */
  lemma ParseSerializeParse(text: string)
    requires ParseAllConfigRemotes(text).Some?
    ensures WellFormed(ParseAllConfigRemotes(text).value)
    ensures ParseAllConfigRemotes(Serialized(ParseAllConfigRemotes(text).value)) == ParseAllConfigRemotes(text)
  {
    LinesKeepGood(text, Reading(DEFAULT_SECTION, map[]));
    ParseSerialized(ParseAllConfigRemotes(text).value);
  }

  // ---------------------------------------------------------------- the loops

  method SortStrings(keys: set<string>) returns (names: seq<string>)
    ensures names == Listing(keys)
  {
    names := [];
    var rest := keys;
    while rest != {}
      invariant rest <= keys && IsListing(names, keys - rest)
      invariant forall m, n | m in names && n in rest :: Less(m, n)
      decreases rest
    {
      ghost var l := LeastExists(rest);
      var least :| least in rest && forall n | n in rest && n != least :: Less(least, n);
      assert forall n :: n in names + [least] <==> n in names || n == least;
      names, rest := names + [least], rest - {least};
    }
    ListingUnique(names, Listing(keys), keys);
  }

  lemma NextSection(all: Config, names: seq<string>, i: nat, text: string, whole: string)
    requires i < |names| && (forall n | n in names :: n in all)
    requires text + RenderSections(all, names[i..]) == whole
    ensures text + RenderSection(names[i], all[names[i]]) + RenderSections(all, names[i + 1..]) == whole
  {
    assert names[i..][0] == names[i] && names[i..][1..] == names[i + 1..];
  }

  lemma NextKey(data: Section, keys: seq<string>, i: nat, text: string, whole: string)
    requires i < |keys| && (forall k | k in keys :: k in data)
    requires text + RenderKeys(data, keys[i..]) == whole
    ensures text + (RenderKey(keys[i], data[keys[i]]) + "\n") + RenderKeys(data, keys[i + 1..]) == whole
  {
    assert keys[i..][0] == keys[i] && keys[i..][1..] == keys[i + 1..];
  }

  method SerializeConfigRemotes(remotes: Config) returns (text: string)
    ensures text == Serialized(remotes)
  {
    var names := SortStrings(remotes.Keys);
    text := "";
    assert names[0..] == names;
    for i := 0 to |names|
      invariant text + RenderSections(remotes, names[i..]) == Serialized(remotes)
    {
      var section := SerializeSection(names[i], remotes[names[i]]);
      NextSection(remotes, names, i, text, Serialized(remotes));
      text := text + section;
    }
    assert text + "" == text;
  }

  method SerializeSection(name: string, data: Section) returns (text: string)
    ensures text == RenderSection(name, data)
  {
    var keys := SortStrings(data.Keys);
    text := "[" + name + "]" + "\n";
    ghost var whole := text + RenderKeys(data, keys);
    assert keys[0..] == keys;
    for i := 0 to |keys|
      invariant text + RenderKeys(data, keys[i..]) == whole
    {
      NextKey(data, keys, i, text, whole);
      text := text + (RenderKey(keys[i], data[keys[i]]) + "\n");
    }
    assert text + "" == text;
    RenderedSection(name, data);
    text := text + "\n";
  }

  lemma RenderedSection(name: string, data: Section)
    ensures "[" + name + "]" + "\n" + RenderKeys(data, Listing(data.Keys)) + "\n" == RenderSection(name, data)
  {
  }
}
