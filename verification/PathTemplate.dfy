/** Template variables in paths: substitution pass by pass in map order, and when the order does not show. */
module PathTemplate {
  import opened Text

  const PVC_NAME := "$" + "{pvc.metadata.name}"
  const PVC_NAMESPACE := "$" + "{pvc.metadata.namespace}"
  const PV_NAME := "$" + "{pv.metadata.name}"

  // ---------------------------------------------------------------- the passes, as the code runs them

  function Passes(s: string, order: seq<string>, m: map<string, string>): string
    requires forall k | k in order :: k in m
    decreases |order|
  {
    if order == [] then s
    else Passes(if order[0] != "" then ReplaceAll(s, order[0], m[order[0]]) else s, order[1..], m)
  }

  /** Some order in which Go may visit the map. */
  ghost predicate IterationOrder(order: seq<string>, m: map<string, string>) {
    Distinct(order) && forall k :: k in order <==> k in m
  }

  // ---------------------------------------------------------------- variables, and paths cut at their '$' signs

  /** A '$' at the front and nowhere else. */
  predicate DollarWord(k: string) {
    k != "" && k[0] == '$' && Free(k[1..], '$')
  }

  /** Neither string begins with the other. */
  predicate Apart(a: string, b: string) {
    !HasPrefix(a, b) && !HasPrefix(b, a)
  }

  ghost predicate Variables(keys: set<string>) {
    (forall k | k in keys :: DollarWord(k)) && forall j, k | j in keys && k in keys && j != k :: Apart(j, k)
  }

  ghost predicate GoodValues(m: map<string, string>) {
    Variables(m.Keys) && forall k | k in m :: Free(m[k], '$')
  }

  function Flat(ws: seq<string>): string {
    if ws == [] then "" else ws[0] + Flat(ws[1..])
  }

  function HeadOf(s: string): string {
    s[..IndexOf(s, '$')]
  }

  /** The words of a path: each '$' with the text up to the next one. */
  function WordsOf(s: string): seq<string>
    decreases |s|
  {
    var i := IndexOf(s, '$');
    if i == |s| then []
    else
      var rest := s[i + 1..];
      var n := IndexOf(rest, '$');
      [['$'] + rest[..n]] + WordsOf(rest[n..])
  }

  predicate Words(ws: seq<string>) {
    forall i | 0 <= i < |ws| :: DollarWord(ws[i])
  }

  lemma WordsStep(s: string, tail: string, n: nat)
    requires s == ['$'] + tail && n == IndexOf(tail, '$')
    ensures WordsOf(s) == [['$'] + tail[..n]] + WordsOf(tail[n..])
  {
    assert s[0] == '$' && s[1..] == tail;
    assert IndexOf(s, '$') == 0;
  }

  lemma WordIsDollar(tail: string)
    requires Free(tail, '$')
    ensures DollarWord(['$'] + tail)
  {
    assert (['$'] + tail)[1..] == tail;
  }

  lemma CutTail(tail: string, n: nat)
    requires n <= |tail|
    ensures ['$'] + tail == ['$'] + tail[..n] + tail[n..]
  {
  }

  /** One word cut off the front. */
  lemma FirstWord(tail: string) returns (w: string, rest: string)
    ensures WordsOf(['$'] + tail) == [w] + WordsOf(rest) && DollarWord(w) && ['$'] + tail == w + rest
    ensures |rest| <= |tail| && (rest == "" || rest[0] == '$')
  {
    var n := IndexOf(tail, '$');
    w, rest := ['$'] + tail[..n], tail[n..];
    WordIsDollar(tail[..n]);
    WordsStep(['$'] + tail, tail, n);
    CutTail(tail, n);
  }

  lemma WordsFromDollar(s: string)
    requires s == "" || s[0] == '$'
    ensures Words(WordsOf(s)) && s == Flat(WordsOf(s))
    decreases |s|
  {
    if s != "" {
      assert s == ['$'] + s[1..];
      var w, rest := FirstWord(s[1..]);
      WordsFromDollar(rest);
      assert ([w] + WordsOf(rest))[1..] == WordsOf(rest);
    }
  }

  lemma WordsPastHead(head: string, tail: string)
    requires Free(head, '$') && (tail == "" || tail[0] == '$')
    ensures WordsOf(head + tail) == WordsOf(tail)
  {
    var s := head + tail;
    if tail == "" {
      assert s == head && IndexOf(s, '$') == |s| by {
        assert forall k | 0 <= k < |s| :: s[k] != '$';
      }
    } else {
      IndexOfSplit(head, tail[1..], '$');
      assert tail == ['$'] + tail[1..] && s == head + ['$'] + tail[1..];
      assert s[|head| + 1..] == tail[1..];
    }
  }

  lemma HeadAndTail(s: string) returns (tail: string)
    ensures s == HeadOf(s) + tail && Free(HeadOf(s), '$') && (tail == "" || tail[0] == '$')
  {
    tail := s[IndexOf(s, '$')..];
  }

  lemma WordsOfPath(s: string)
    ensures Free(HeadOf(s), '$') && Words(WordsOf(s)) && s == HeadOf(s) + Flat(WordsOf(s))
  {
    var tail := HeadAndTail(s);
    WordsPastHead(HeadOf(s), tail);
    WordsFromDollar(tail);
  }

  predicate ProperPrefix(w: string, k: string) {
    |w| < |k| && HasPrefix(k, w)
  }

  /** No '$' word that could still grow into a variable is followed by a different variable. */
  ghost predicate Confluent(ws: seq<string>, keys: set<string>) {
    forall i, k, j | 0 <= i < |ws| - 1 && k in keys && j in keys && ProperPrefix(ws[i], k) && HasPrefix(ws[i + 1], j) ::
      j == k
  }

  // ---------------------------------------------------------------- one pass

  /** Text that a replaced word leaves to the word before it, and the words that remain. */
  datatype Merged = Merged(text: string, words: seq<string>)

  function PassWords(ws: seq<string>, k: string, v: string): Merged {
    if ws == [] then Merged("", [])
    else
      var r := PassWords(ws[1..], k, v);
      if HasPrefix(ws[0], k) then Merged(v + ws[0][|k|..] + r.text, r.words)
      else Merged("", [ws[0] + r.text] + r.words)
  }

  lemma {:induction false} SkipPlain(a: string, t: string, k: string, v: string)
    requires Free(a, '$') && DollarWord(k)
    ensures ReplaceAll(a + t, k, v) == a + ReplaceAll(t, k, v)
    decreases |a|
  {
    if a == "" {
      assert a + t == t;
    } else {
      var s := a + t;
      assert s[0] == a[0] && s[1..] == a[1..] + t && s == [a[0]] + s[1..] && k[0] == '$';
      SkipPlain(a[1..], t, k, v);
      NoMatchHere(s, k, v);
      assert [a[0]] + (a[1..] + ReplaceAll(t, k, v)) == a + ReplaceAll(t, k, v);
    }
  }

  lemma NoMatchHere(s: string, k: string, v: string)
    requires s != "" && k != "" && !HasPrefix(s, k)
    ensures ReplaceAll(s, k, v) == [s[0]] + ReplaceAll(s[1..], k, v)
  {
    assert s == [s[0]] + s[1..];
  }

  lemma TakeWord(t: string, k: string, v: string)
    requires k != ""
    ensures ReplaceAll(k + t, k, v) == v + ReplaceAll(t, k, v)
  {
    assert (k + t)[..|k|] == k && (k + t)[|k|..] == t;
  }

  /** The text after a word: empty, or the next word. */
  lemma NextWord(ws: seq<string>)
    requires Words(ws)
    ensures Flat(ws) == "" || Flat(ws)[0] == '$'
  {
  }

  /** A variable can only match at the start of a word, and within it. */
  lemma NoMatchAtWord(w: string, t: string, k: string)
    requires DollarWord(w) && DollarWord(k) && (t == "" || t[0] == '$')
    ensures HasPrefix(w + t, k) <==> HasPrefix(w, k)
  {
    var s := w + t;
    if |k| <= |w| {
      assert s[..|k|] == w[..|k|];
    } else if |k| <= |s| {
      assert s[..|k|][|w|] == '$' && k[|w|] == k[1..][|w| - 1];
      assert k[|w|] in k[1..];
    }
  }

  lemma PassTakesWord(w: string, t: string, k: string, v: string)
    requires DollarWord(w) && DollarWord(k) && HasPrefix(w, k)
    ensures ReplaceAll(w + t, k, v) == v + w[|k|..] + ReplaceAll(t, k, v)
  {
    var tail := w[|k|..];
    assert w + t == k + (tail + t);
    assert forall c | c in tail :: c in w[1..];
    TakeWord(tail + t, k, v);
    SkipPlain(tail, t, k, v);
    Associate(v, tail, ReplaceAll(t, k, v));
  }

  lemma PassSkipsWord(w: string, t: string, k: string, v: string)
    requires DollarWord(w) && DollarWord(k) && !HasPrefix(w, k) && (t == "" || t[0] == '$')
    ensures ReplaceAll(w + t, k, v) == w + ReplaceAll(t, k, v)
  {
    var s := w + t;
    NoMatchAtWord(w, t, k);
    NoMatchHere(s, k, v);
    assert s[0] == w[0] && s[1..] == w[1..] + t;
    SkipPlain(w[1..], t, k, v);
    Associate([w[0]], w[1..], ReplaceAll(t, k, v));
    assert [w[0]] + w[1..] == w;
  }

  lemma FlatCons(w: string, ws: seq<string>)
    ensures Flat([w] + ws) == w + Flat(ws)
  {
    assert ([w] + ws)[1..] == ws;
  }

  /** ReplaceAll works word by word. */
  lemma PassIsWordwise(ws: seq<string>, k: string, v: string)
    requires Words(ws) && DollarWord(k)
    ensures var p := PassWords(ws, k, v); ReplaceAll(Flat(ws), k, v) == p.text + Flat(p.words)
  {
    if ws != [] {
      var w, t, r := ws[0], Flat(ws[1..]), PassWords(ws[1..], k, v);
      NextWord(ws[1..]);
      PassIsWordwise(ws[1..], k, v);
      if HasPrefix(w, k) {
        PassTakesWord(w, t, k, v);
        Associate(v + w[|k|..], r.text, Flat(r.words));
      } else {
        PassSkipsWord(w, t, k, v);
        FlatCons(w + r.text, r.words);
        Associate(w, r.text, Flat(r.words));
      }
    }
  }

  lemma PassOnPath(h: string, ws: seq<string>, k: string, v: string)
    requires Free(h, '$') && Words(ws) && DollarWord(k)
    ensures var p := PassWords(ws, k, v); ReplaceAll(h + Flat(ws), k, v) == h + p.text + Flat(p.words)
  {
    var p := PassWords(ws, k, v);
    SkipPlain(h, Flat(ws), k, v);
    PassIsWordwise(ws, k, v);
    assert h + (p.text + Flat(p.words)) == h + p.text + Flat(p.words);
  }

  lemma PassKeepsWords(ws: seq<string>, k: string, v: string)
    requires Words(ws) && Free(v, '$') && DollarWord(k)
    ensures var p := PassWords(ws, k, v); Free(p.text, '$') && Words(p.words)
  {
    if ws != [] {
      PassKeepsWords(ws[1..], k, v);
      var w, r := ws[0], PassWords(ws[1..], k, v);
      if HasPrefix(w, k) {
        assert forall c | c in w[|k|..] :: c in w[1..];
      } else {
        assert (w + r.text)[1..] == w[1..] + r.text;
      }
    }
  }

  // ---------------------------------------------------------------- filling in some variables at once

  ghost predicate BeginsWithAny(w: string, keys: set<string>) {
    exists k :: k in keys && HasPrefix(w, k)
  }

  ghost function KeyAt(w: string, keys: set<string>): (k: string)
    requires BeginsWithAny(w, keys)
    ensures k in keys && HasPrefix(w, k)
  {
    var k :| k in keys && HasPrefix(w, k);
    k
  }

  lemma KeyIsUnique(w: string, keys: set<string>, j: string, k: string)
    requires Variables(keys) && j in keys && k in keys && HasPrefix(w, j) && HasPrefix(w, k)
    ensures j == k
  {
    if |j| <= |k| {
      assert k[..|j|] == w[..|k|][..|j|] == w[..|j|];
    } else {
      assert j[..|k|] == w[..|j|][..|k|] == w[..|k|];
    }
  }

  /** Every word that begins with one of these variables gets its value, all in one go. */
  ghost function Fill(ws: seq<string>, keys: set<string>, m: map<string, string>): Merged
    requires keys <= m.Keys
  {
    if ws == [] then Merged("", [])
    else
      var r := Fill(ws[1..], keys, m);
      if BeginsWithAny(ws[0], keys) then
        var k := KeyAt(ws[0], keys);
        Merged(m[k] + ws[0][|k|..] + r.text, r.words)
      else Merged("", [ws[0] + r.text] + r.words)
  }

  ghost function Filled(h: string, ws: seq<string>, keys: set<string>, m: map<string, string>): string
    requires keys <= m.Keys
  {
    h + Fill(ws, keys, m).text + Flat(Fill(ws, keys, m).words)
  }

  /** The simultaneous substitution. */
  ghost function Simultaneous(s: string, m: map<string, string>): string {
    Filled(HeadOf(s), WordsOf(s), m.Keys, m)
  }

  lemma FillNothing(ws: seq<string>, m: map<string, string>)
    ensures Fill(ws, {}, m) == Merged("", ws)
  {
    if ws != [] {
      FillNothing(ws[1..], m);
      assert ws[0] + "" == ws[0];
      assert ws == [ws[0] + ""] + ws[1..];
    }
  }

  lemma FillKeepsWords(ws: seq<string>, keys: set<string>, m: map<string, string>)
    requires GoodValues(m) && keys <= m.Keys && Words(ws)
    ensures Free(Fill(ws, keys, m).text, '$') && Words(Fill(ws, keys, m).words)
  {
    if ws != [] {
      FillKeepsWords(ws[1..], keys, m);
      var w, r := ws[0], Fill(ws[1..], keys, m);
      if BeginsWithAny(w, keys) {
        var k := KeyAt(w, keys);
        assert DollarWord(k) && forall c | c in w[|k|..] :: c in w[1..];
      } else {
        assert (w + r.text)[1..] == w[1..] + r.text;
      }
    }
  }

  /** Text left to a word stems from a variable right behind it. */
  lemma NoKeyNoText(ws: seq<string>, keys: set<string>, m: map<string, string>)
    requires keys <= m.Keys && (ws == [] || !BeginsWithAny(ws[0], keys))
    ensures Fill(ws, keys, m).text == ""
  {
  }

  /** A word that begins with a variable only together with the text behind it. */
  lemma LongerPrefix(w: string, text: string, k: string)
    ensures HasPrefix(w + text, k) && !HasPrefix(w, k) ==> ProperPrefix(w, k) && text != ""
  {
    if |k| <= |w| {
      assert (w + text)[..|k|] == w[..|k|];
    } else if |k| <= |w + text| {
      assert (w + text)[..|k|][..|w|] == w;
    }
  }

  lemma FirstPair(ws: seq<string>, keys: set<string>, k: string, j: string)
    requires Confluent(ws, keys) && |ws| > 1 && k in keys && j in keys && ProperPrefix(ws[0], k) && HasPrefix(ws[1], j)
    ensures j == k
  {
    assert HasPrefix(ws[0 + 1], j);
  }

  lemma ConfluentTail(ws: seq<string>, keys: set<string>)
    requires ws != [] && Confluent(ws, keys)
    ensures Confluent(ws[1..], keys)
  {
    var tail := ws[1..];
    forall i, k, j | 0 <= i < |tail| - 1 && k in keys && j in keys && ProperPrefix(tail[i], k)
        && HasPrefix(tail[i + 1], j)
      ensures j == k
    {
      assert tail[i] == ws[i + 1] && tail[i + 1] == ws[i + 1 + 1];
    }
  }

  lemma NoKeyBehind(ws: seq<string>, done: set<string>, keys: set<string>, k: string)
    requires Confluent(ws, keys) && |ws| > 1 && done <= keys && k in keys && k !in done && ProperPrefix(ws[0], k)
    ensures !BeginsWithAny(ws[1], done)
  {
    forall j | j in done ensures !HasPrefix(ws[1], j) {
      if HasPrefix(ws[1], j) {
        FirstPair(ws, keys, k, j);
      }
    }
  }

  /** Under confluence, text that was left to a word does not make it begin with another variable. */
  lemma NoNewMatch(ws: seq<string>, done: set<string>, m: map<string, string>, k: string)
    requires ws != [] && Confluent(ws, m.Keys) && done <= m.Keys && k in m && k !in done && !HasPrefix(ws[0], k)
    ensures !HasPrefix(ws[0] + Fill(ws[1..], done, m).text, k)
  {
    LongerPrefix(ws[0], Fill(ws[1..], done, m).text, k);
    if ProperPrefix(ws[0], k) {
      if |ws| > 1 {
        NoKeyBehind(ws, done, m.Keys, k);
      }
      NoKeyNoText(ws[1..], done, m);
    }
  }

  /** One more pass after some variables are filled in is one more variable filled in. */
  lemma FillOneMore(ws: seq<string>, done: set<string>, m: map<string, string>, k: string)
    requires GoodValues(m) && Words(ws) && Confluent(ws, m.Keys) && done <= m.Keys && k in m && k !in done
    ensures var f, g := Fill(ws, done, m), Fill(ws, done + {k}, m);
            var p := PassWords(f.words, k, m[k]);
            g.text == f.text + p.text && g.words == p.words
  {
    if ws != [] {
      ConfluentTail(ws, m.Keys);
      FillOneMore(ws[1..], done, m, k);
      if BeginsWithAny(ws[0], done) {
        FillOldKey(ws, done, m, k);
      } else if HasPrefix(ws[0], k) {
        FillThisKey(ws, done, m, k);
      } else {
        NoNewMatch(ws, done, m, k);
        FillNoKey(ws, done, m, k);
      }
    }
  }

  /** The statement of FillOneMore for one list of words. */
  ghost predicate OneMore(ws: seq<string>, done: set<string>, m: map<string, string>, k: string)
    requires done <= m.Keys && k in m
  {
    var f, g := Fill(ws, done, m), Fill(ws, done + {k}, m);
    var p := PassWords(f.words, k, m[k]);
    g.text == f.text + p.text && g.words == p.words
  }

  lemma FillOldKey(ws: seq<string>, done: set<string>, m: map<string, string>, k: string)
    requires GoodValues(m) && ws != [] && done <= m.Keys && k in m && BeginsWithAny(ws[0], done)
    requires OneMore(ws[1..], done, m, k)
    ensures OneMore(ws, done, m, k)
  {
    var j := KeyAt(ws[0], done);
    assert j in done + {k} && HasPrefix(ws[0], j);
    KeyIsUnique(ws[0], m.Keys, j, KeyAt(ws[0], done + {k}));
  }

  lemma PassCons(w: string, ws: seq<string>, k: string, v: string)
    ensures var r := PassWords(ws, k, v);
            PassWords([w] + ws, k, v)
            == if HasPrefix(w, k) then Merged(v + w[|k|..] + r.text, r.words) else Merged("", [w + r.text] + r.words)
  {
    assert ([w] + ws)[1..] == ws;
  }

  lemma PrefixAndRest(w: string, t: string, k: string)
    requires HasPrefix(w, k)
    ensures HasPrefix(w + t, k) && (w + t)[|k|..] == w[|k|..] + t
  {
    assert (w + t)[..|k|] == w[..|k|];
  }

  lemma FillThisKey(ws: seq<string>, done: set<string>, m: map<string, string>, k: string)
    requires GoodValues(m) && ws != [] && done <= m.Keys && k in m && !BeginsWithAny(ws[0], done)
    requires HasPrefix(ws[0], k) && OneMore(ws[1..], done, m, k)
    ensures OneMore(ws, done, m, k)
  {
    var w, r := ws[0], Fill(ws[1..], done, m);
    assert k in done + {k} && HasPrefix(w, k);
    KeyIsUnique(w, m.Keys, k, KeyAt(w, done + {k}));
    PrefixAndRest(w, r.text, k);
    PassCons(w + r.text, r.words, k, m[k]);
    var p := PassWords(r.words, k, m[k]);
    Associate(m[k], w[|k|..] + r.text, p.text);
    Associate(w[|k|..], r.text, p.text);
    Associate(m[k], w[|k|..], r.text + p.text);
  }

  lemma FillNoKey(ws: seq<string>, done: set<string>, m: map<string, string>, k: string)
    requires GoodValues(m) && ws != [] && done <= m.Keys && k in m && !BeginsWithAny(ws[0], done)
    requires !HasPrefix(ws[0], k) && OneMore(ws[1..], done, m, k)
    requires !HasPrefix(ws[0] + Fill(ws[1..], done, m).text, k)
    ensures OneMore(ws, done, m, k)
  {
    var w, r := ws[0], Fill(ws[1..], done, m);
    assert !BeginsWithAny(w, done + {k});
    PassCons(w + r.text, r.words, k, m[k]);
    Associate(w, r.text, PassWords(r.words, k, m[k]).text);
  }

  // ---------------------------------------------------------------- confluent paths

  lemma PassesFrom(h: string, ws: seq<string>, done: set<string>, order: seq<string>, m: map<string, string>)
    requires GoodValues(m) && Free(h, '$') && Words(ws) && Confluent(ws, m.Keys) && done <= m.Keys && Distinct(order)
    requires forall k | k in order :: k in m && k !in done
    ensures done + Elements(order) <= m.Keys
    ensures Passes(Filled(h, ws, done, m), order, m) == Filled(h, ws, done + Elements(order), m)
    decreases |order|
  {
    if order == [] {
      assert done + Elements(order) == done;
    } else {
      var k, tail := order[0], order[1..];
      PassFills(h, ws, done, m, k);
      assert order == [k] + tail;
      assert done + Elements(order) == done + {k} + Elements(tail);
      forall j | j in tail ensures j in m && j !in done + {k} {
        var i :| 0 <= i < |tail| && tail[i] == j;
        assert order[i + 1] == j && order[0] == k;
      }
      PassesFrom(h, ws, done + {k}, tail, m);
    }
  }

  lemma PassFills(h: string, ws: seq<string>, done: set<string>, m: map<string, string>, k: string)
    requires GoodValues(m) && Free(h, '$') && Words(ws) && Confluent(ws, m.Keys) && done <= m.Keys && k in m
        && k !in done
    ensures ReplaceAll(Filled(h, ws, done, m), k, m[k]) == Filled(h, ws, done + {k}, m)
  {
    var f := Fill(ws, done, m);
    FillKeepsWords(ws, done, m);
    FillOneMore(ws, done, m, k);
    PassOnPath(h + f.text, f.words, k, m[k]);
    Associate(h, f.text, PassWords(f.words, k, m[k]).text);
  }

  /** On a confluent path every iteration order gives the simultaneous substitution. */
  lemma OrderDoesNotMatter(s: string, order: seq<string>, m: map<string, string>)
    requires GoodValues(m) && Confluent(WordsOf(s), m.Keys) && IterationOrder(order, m)
    ensures Passes(s, order, m) == Simultaneous(s, m)
  {
    var h, ws := HeadOf(s), WordsOf(s);
    WordsOfPath(s);
    FillNothing(ws, m);
    assert Filled(h, ws, {}, m) == s by {
      assert h + "" == h;
    }
    PassesFrom(h, ws, {}, order, m);
    assert {} + Elements(order) == m.Keys;
  }

  // ---------------------------------------------------------------- paths on which the order shows

  /** The word, right before one that begins with the variable. */
  ghost predicate HasPair(ws: seq<string>, u: string, j: string) {
    exists i :: 0 <= i < |ws| - 1 && ws[i] == u && HasPrefix(ws[i + 1], j)
  }

  lemma PairSplit(ws: seq<string>, u: string, j: string)
    requires HasPair(ws, u, j)
    ensures |ws| > 1 && ((ws[0] == u && HasPrefix(ws[1], j)) || HasPair(ws[1..], u, j))
  {
    var i :| 0 <= i < |ws| - 1 && ws[i] == u && HasPrefix(ws[i + 1], j);
    if i > 0 {
      assert ws[1..][i - 1] == u && HasPrefix(ws[1..][i - 1 + 1], j);
    }
  }

  lemma PairLater(w: string, ws: seq<string>, u: string, j: string)
    requires HasPair(ws, u, j)
    ensures HasPair([w] + ws, u, j)
  {
    var i :| 0 <= i < |ws| - 1 && ws[i] == u && HasPrefix(ws[i + 1], j);
    assert ([w] + ws)[i + 1] == u && HasPrefix(([w] + ws)[i + 1 + 1], j);
  }

  lemma PairHere(u: string, w: string, ws: seq<string>, j: string)
    requires HasPrefix(w, j)
    ensures HasPair([u, w] + ws, u, j)
  {
    assert ([u, w] + ws)[0] == u && HasPrefix(([u, w] + ws)[0 + 1], j);
  }

  lemma PrefixOfLonger(w: string, t: string, k: string)
    requires HasPrefix(w, k)
    ensures HasPrefix(w + t, k)
  {
    assert (w + t)[..|k|] == w[..|k|];
  }

  /** A pass of a third variable leaves the pair in place. */
  lemma PassKeepsPair(ws: seq<string>, u: string, j: string, k: string, v: string)
    requires HasPair(ws, u, j) && !HasPrefix(u, k) && Variables({j, k}) && j != k
    ensures HasPair(PassWords(ws, k, v).words, u, j)
  {
    PairSplit(ws, u, j);
    var r := PassWords(ws[1..], k, v);
    if ws[0] == u && HasPrefix(ws[1], j) {
      if HasPrefix(ws[1], k) {
        KeyIsUnique(ws[1], {j, k}, j, k);
      }
      var below := PassWords(ws[1..][1..], k, v);
      PrefixOfLonger(ws[1], below.text, j);
      PairHere(u, ws[1] + below.text, below.words, j);
      assert u + "" == u;
      assert PassWords(ws, k, v).words == [u, ws[1] + below.text] + below.words;
    } else {
      PassKeepsPair(ws[1..], u, j, k, v);
      if !HasPrefix(ws[0], k) {
        PairLater(ws[0] + r.text, r.words, u, j);
      }
    }
  }

  /** How much the passes of a variable add in length, `d` for each word that begins with it. */
  function Added(ws: seq<string>, k: string, d: int): int {
    if ws == [] then 0 else (if HasPrefix(ws[0], k) then d else 0) + Added(ws[1..], k, d)
  }

  lemma PassLength(ws: seq<string>, k: string, v: string)
    ensures var p := PassWords(ws, k, v); |p.text| + |Flat(p.words)| == |Flat(ws)| + Added(ws, k, |v| - |k|)
  {
    if ws != [] {
      PassLength(ws[1..], k, v);
      var r := PassWords(ws[1..], k, v);
      assert ([ws[0] + r.text] + r.words)[1..] == r.words;
    }
  }

  lemma AddedCons(w: string, ws: seq<string>, k: string, d: int)
    ensures Added([w] + ws, k, d) == (if HasPrefix(w, k) then d else 0) + Added(ws, k, d)
  {
    assert ([w] + ws)[1..] == ws;
  }

  /** The value that completes `u` to k makes the pair one more word that begins with k. */
  lemma AddedGrows(ws: seq<string>, u: string, x: string, j: string, k: string, d: nat)
    requires Variables({j, k}) && j != k && k == u + x && x != ""
    ensures Added(PassWords(ws, j, x).words, k, d) >= Added(ws, k, d) + if HasPair(ws, u, j) then d else 0
  {
    if ws != [] {
      var w, r := ws[0], PassWords(ws[1..], j, x);
      AddedGrows(ws[1..], u, x, j, k, d);
      NoOtherKey(u, x, k, {j, k}, j);
      if HasPair(ws, u, j) {
        PairSplit(ws, u, j);
      }
      if HasPrefix(w, j) {
        NotBoth(w, j, k);
      } else {
        AddedCons(w + r.text, r.words, k, d);
        if HasPrefix(w, k) {
          PrefixOfLonger(w, r.text, k);
        }
        if w == u && |ws| > 1 && HasPrefix(ws[1], j) {
          Completed(ws, u, x, j, k);
        }
      }
    }
  }

  lemma NotBoth(w: string, j: string, k: string)
    requires Variables({j, k}) && j != k && HasPrefix(w, j)
    ensures !HasPrefix(w, k)
  {
    if HasPrefix(w, k) {
      KeyIsUnique(w, {j, k}, j, k);
    }
  }

  lemma Completed(ws: seq<string>, u: string, x: string, j: string, k: string)
    requires |ws| > 1 && ws[0] == u && HasPrefix(ws[1], j) && k == u + x && x != ""
    ensures !HasPrefix(u, k) && HasPrefix(u + PassWords(ws[1..], j, x).text, k)
  {
    var below := PassWords(ws[1..][1..], j, x).text;
    assert PassWords(ws[1..], j, x).text == x + ws[1][|j|..] + below;
    assert (u + (x + ws[1][|j|..] + below))[..|k|] == k;
  }

  lemma NoOtherKey(u: string, x: string, k: string, keys: set<string>, z: string)
    requires Variables(keys) && k in keys && z in keys && z != k && k == u + x && x != ""
    ensures !HasPrefix(u, z)
  {
    assert Apart(z, k) && k[..|u|] == u;
    if HasPrefix(u, z) {
      PrefixOfPrefix(u, k, z);
    }
  }

  lemma PrefixOfPrefix(u: string, k: string, j: string)
    requires ProperPrefix(u, k) && HasPrefix(u, j)
    ensures HasPrefix(k, j)
  {
    assert k[..|j|] == k[..|u|][..|j|];
  }

  /** A value of one character that does not end j completes no word to j. */
  predicate Filler(v: string, j: string) {
    j != "" && |v| >= |j| && forall i | 0 <= i < |v| :: v[i] != j[|j| - 1]
  }

  lemma FillerCompletesNothing(w: string, v: string, t: string, j: string)
    requires Filler(v, j) && !HasPrefix(w, j)
    ensures !HasPrefix(w + v + t, j)
  {
    var s := w + v + t;
    if |j| <= |w| {
      assert s[..|j|] == w[..|j|];
    } else {
      assert s[|j| - 1] == v[|j| - 1 - |w|] != j[|j| - 1];
      DifferAt(s, j, |j| - 1);
    }
  }

  lemma AddedSame(ws: seq<string>, k: string, v: string, j: string, e: int)
    requires Variables({j, k}) && j != k && Filler(v, j)
    ensures Added(PassWords(ws, k, v).words, j, e) == Added(ws, j, e)
  {
    if ws != [] {
      var w, r := ws[0], PassWords(ws[1..], k, v);
      AddedSame(ws[1..], k, v, j, e);
      if HasPrefix(w, k) {
        if HasPrefix(w, j) {
          KeyIsUnique(w, {j, k}, j, k);
        }
      } else {
        AddedCons(w + r.text, r.words, j, e);
        SameBeginning(w, ws[1..], k, v, j);
      }
    }
  }

  lemma SameBeginning(w: string, rest: seq<string>, k: string, v: string, j: string)
    requires Filler(v, j)
    ensures HasPrefix(w + PassWords(rest, k, v).text, j) <==> HasPrefix(w, j)
  {
    var text := PassWords(rest, k, v).text;
    if HasPrefix(w, j) {
      PrefixOfLonger(w, text, j);
    } else if text == "" {
      assert w + text == w;
    } else {
      var t := rest[0][|k|..] + PassWords(rest[1..], k, v).text;
      FillerCompletesNothing(w, v, t, j);
      assert w + text == w + v + t;
    }
  }

  lemma TwoPassesDiffer(h: string, ws: seq<string>, u: string, x: string, j: string, k: string, v: string)
    requires Free(h, '$') && Words(ws) && HasPair(ws, u, j) && Variables({j, k}) && j != k && k == u + x && x != ""
    requires Filler(v, j) && |v| > |k| && Free(v, '$') && Free(x, '$')
    ensures ReplaceAll(ReplaceAll(h + Flat(ws), j, x), k, v) != ReplaceAll(ReplaceAll(h + Flat(ws), k, v), j, x)
  {
    var d, e := |v| - |k|, |x| - |j|;
    assert DollarWord(j) && DollarWord(k);
    PairGrows(ws, u, x, j, k, d);
    AddedSame(ws, k, v, j, e);
    TwoPassesLength(h, ws, j, x, k, v, e, d);
    TwoPassesLength(h, ws, k, v, j, x, d, e);
  }

  lemma PairGrows(ws: seq<string>, u: string, x: string, j: string, k: string, d: nat)
    requires HasPair(ws, u, j) && Variables({j, k}) && j != k && k == u + x && x != "" && d > 0
    ensures Added(PassWords(ws, j, x).words, k, d) > Added(ws, k, d)
  {
    AddedGrows(ws, u, x, j, k, d);
  }

  lemma TwoPassesLength(
    h: string, ws: seq<string>, a: string, x: string, b: string, y: string, d: int, e: int)
    requires Free(h, '$') && Words(ws) && DollarWord(a) && DollarWord(b) && Free(x, '$')
    requires d == |x| - |a| && e == |y| - |b|
    ensures |ReplaceAll(ReplaceAll(h + Flat(ws), a, x), b, y)|
         == |h| + |Flat(ws)| + Added(ws, a, d) + Added(PassWords(ws, a, x).words, b, e)
  {
    var p := PassWords(ws, a, x);
    PassOnPath(h, ws, a, x);
    PassKeepsWords(ws, a, x);
    PassOnPath(h + p.text, p.words, b, y);
    PassLength(ws, a, x);
    PassLength(p.words, b, y);
  }

  /** The path after passes of other variables still has the pair. */
  lemma PassesKeepPair(h: string, ws: seq<string>, order: seq<string>, m: map<string, string>, u: string, j: string)
    returns (h': string, ws': seq<string>)
    requires GoodValues(m) && Free(h, '$') && Words(ws) && HasPair(ws, u, j) && j in m
    requires forall k | k in order :: k in m && k != j && !HasPrefix(u, k)
    ensures Passes(h + Flat(ws), order, m) == h' + Flat(ws') && Free(h', '$') && Words(ws') && HasPair(ws', u, j)
    decreases |order|
  {
    h', ws' := h, ws;
    if order != [] {
      var k := order[0];
      var p := PassWords(ws, k, m[k]);
      PassOnPath(h, ws, k, m[k]);
      PassKeepsWords(ws, k, m[k]);
      PassKeepsPair(ws, u, j, k, m[k]);
      h', ws' := PassesKeepPair(h + p.text, p.words, order[1..], m, u, j);
    }
  }

  lemma ListingOf(keys: set<string>) returns (order: seq<string>)
    ensures Distinct(order) && forall k :: k in order <==> k in keys
    decreases keys
  {
    order := [];
    if k :| k in keys {
      var rest := ListingOf(keys - {k});
      order := rest + [k];
    }
  }

  /** Values that make a growing word visible: one completes it, one is long and completes nothing. */
  function Telling(keys: set<string>, x: string, j: string, k: string, v: string): map<string, string> {
    map z | z in keys :: if z == j then x else if z == k then v else ""
  }

  lemma FillerExists(j: string, n: nat) returns (v: string)
    requires j != ""
    ensures Filler(v, j) && |v| > n && Free(v, '$')
  {
    var d := if j[|j| - 1] == 'a' then 'b' else 'a';
    v := seq(|j| + n + 1, _ => d);
  }

  lemma SomePair(ws: seq<string>, keys: set<string>) returns (u: string, x: string, k: string, j: string)
    requires !Confluent(ws, keys)
    ensures HasPair(ws, u, j) && u in ws && k in keys && j in keys && j != k && k == u + x && x != ""
  {
    var i: int;
    i, k, j :| 0 <= i < |ws| - 1 && k in keys && j in keys && ProperPrefix(ws[i], k) && HasPrefix(ws[i + 1], j)
        && j != k;
    u, x := ws[i], k[|ws[i]|..];
  }

  /** The two orders agree on all other variables and differ in the last two. */
  lemma RestNotWord(m: map<string, string>, rest: seq<string>, u: string, j: string, k: string)
    requires Variables(m.Keys) && j in m && k in m && k == u + m[j] && m[j] != ""
    requires forall z | z in rest :: z in m && z != k
    ensures forall z | z in rest :: !HasPrefix(u, z)
  {
    forall z | z in rest ensures !HasPrefix(u, z) {
      NoOtherKey(u, m[j], k, m.Keys, z);
    }
  }

  lemma OrderShowsAt(
    s: string, m: map<string, string>, rest: seq<string>, u: string, j: string, k: string)
    requires GoodValues(m) && j in m && k in m && j != k && k == u + m[j] && m[j] != ""
    requires HasPair(WordsOf(s), u, j) && Filler(m[k], j) && |m[k]| > |k|
    requires forall z | z in rest :: z in m && z != j && z != k
    ensures Passes(s, rest + [j] + [k], m) != Passes(s, rest + [k] + [j], m)
  {
    WordsOfPath(s);
    RestNotWord(m, rest, u, j, k);
    var h', ws' := PassesKeepPair(HeadOf(s), WordsOf(s), rest, m, u, j);
    TwoPassesDiffer(h', ws', u, m[j], j, k, m[k]);
    LastTwo(s, rest, j, k, m);
    LastTwo(s, rest, k, j, m);
  }

  lemma OrderShows(s: string, keys: set<string>) returns (m: map<string, string>, a: seq<string>, b: seq<string>)
    requires Variables(keys) && !Confluent(WordsOf(s), keys)
    ensures m.Keys == keys && GoodValues(m) && IterationOrder(a, m) && IterationOrder(b, m)
    ensures Passes(s, a, m) != Passes(s, b, m)
  {
    WordsOfPath(s);
    var u, x, k, j := SomePair(WordsOf(s), keys);
    var v := FillerExists(j, |k|);
    m := Telling(keys, x, j, k, v);
    TellingIsGood(keys, u, x, j, k, v);
    var rest := ListingOf(keys - {j, k});
    OrderShowsAt(s, m, rest, u, j, k);
    a, b := rest + [j] + [k], rest + [k] + [j];
    TwoMore(keys, rest, j, k);
    TwoMore(keys, rest, k, j);
  }

  lemma TwoMore(keys: set<string>, rest: seq<string>, a: string, b: string)
    requires Distinct(rest) && a in keys && b in keys && a != b && forall z :: z in rest <==> z in keys - {a, b}
    ensures Distinct(rest + [a] + [b]) && forall z :: z in rest + [a] + [b] <==> z in keys
  {
    DistinctSnoc(rest, a);
    DistinctSnoc(rest + [a], b);
  }

  lemma TellingIsGood(keys: set<string>, u: string, x: string, j: string, k: string, v: string)
    requires Variables(keys) && DollarWord(u) && k in keys && k == u + x && Free(v, '$')
    ensures Telling(keys, x, j, k, v).Keys == keys && GoodValues(Telling(keys, x, j, k, v))
  {
    assert forall c | c in x :: c in k[1..] by {
      assert k[1..] == u[1..] + x;
    }
  }

  lemma LastTwo(s: string, rest: seq<string>, a: string, b: string, m: map<string, string>)
    requires a in m && b in m && a != "" && b != "" && forall k | k in rest :: k in m
    ensures Passes(s, rest + [a] + [b], m) == ReplaceAll(ReplaceAll(Passes(s, rest, m), a, m[a]), b, m[b])
  {
    PassesSnoc(s, rest + [a], b, m);
    PassesSnoc(s, rest, a, m);
  }

  /** Whatever the '$'-free values, no two iteration orders give different results. */
  ghost predicate OrderNeverShows(s: string, keys: set<string>) {
    forall m: map<string, string>, a, b | m.Keys == keys && GoodValues(m) && IterationOrder(a, m)
        && IterationOrder(b, m) ::
      Passes(s, a, m) == Passes(s, b, m)
  }

  /** The order never shows exactly on confluent paths. */
  lemma OrderNeverShowsIff(s: string, keys: set<string>)
    requires Variables(keys)
    ensures OrderNeverShows(s, keys) <==> Confluent(WordsOf(s), keys)
  {
    if Confluent(WordsOf(s), keys) {
      forall m: map<string, string>, a, b | m.Keys == keys && GoodValues(m) && IterationOrder(a, m)
          && IterationOrder(b, m)
        ensures Passes(s, a, m) == Passes(s, b, m)
      {
        OrderDoesNotMatter(s, a, m);
        OrderDoesNotMatter(s, b, m);
      }
    } else {
      var m, a, b := OrderShows(s, keys);
    }
  }

  /** The variables the controller knows are admissible. */
  lemma KnownVariables()
    ensures Variables({PVC_NAME, PVC_NAMESPACE, PV_NAME})
  {
    DollarWords();
    assert PVC_NAME[19] == '}' && PVC_NAMESPACE[19] == 's';
    DifferAt(PVC_NAME, PVC_NAMESPACE, 19);
    assert PV_NAME[4] == '.' && PVC_NAME[4] == 'c' && PVC_NAMESPACE[4] == 'c';
    DifferAt(PVC_NAME, PV_NAME, 4);
    DifferAt(PVC_NAMESPACE, PV_NAME, 4);
  }

  lemma PlainTail(k: string, tail: string)
    requires k == "$" + tail && Free(tail, '$')
    ensures DollarWord(k)
  {
    assert k[1..] == tail;
  }

  lemma DollarWords()
    ensures DollarWord(PVC_NAME) && DollarWord(PVC_NAMESPACE) && DollarWord(PV_NAME)
  {
    PlainTail(PVC_NAME, "{pvc.metadata.name}");
    PlainTail(PVC_NAMESPACE, "{pvc.metadata.namespace}");
    PlainTail(PV_NAME, "{pv.metadata.name}");
  }

  // ---------------------------------------------------------------- the loop

  /** replaceWithMap */
  method ReplaceWithMap(str: string, m: map<string, string>) returns (r: string)
    ensures exists order :: IterationOrder(order, m) && r == Passes(str, order, m)
    ensures GoodValues(m) && Confluent(WordsOf(str), m.Keys) ==> r == Simultaneous(str, m)
  {
    r := str;
    var rest := m.Keys;
    ghost var order: seq<string> := [];
    while rest != {}
      invariant rest <= m.Keys
      invariant forall k :: k in order <==> k in m.Keys - rest
      invariant Distinct(order)
      invariant r == Passes(str, order, m)
      decreases rest
    {
      var k :| k in rest;
      assert k !in order;
      PassesSnoc(str, order, k, m);
      DistinctSnoc(order, k);
      if k != "" {
        r := ReplaceAll(r, k, m[k]);
      }
      order, rest := order + [k], rest - {k};
    }
    if GoodValues(m) && Confluent(WordsOf(str), m.Keys) {
      OrderDoesNotMatter(str, order, m);
    }
  }

  lemma DistinctSnoc(order: seq<string>, k: string)
    requires Distinct(order) && k !in order
    ensures Distinct(order + [k]) && forall x :: x in order + [k] <==> x in order || x == k
  {
  }

  lemma {:induction false} PassesSnoc(s: string, order: seq<string>, k: string, m: map<string, string>)
    requires k in m && forall j | j in order :: j in m
    ensures Passes(s, order + [k], m)
         == if k != "" then ReplaceAll(Passes(s, order, m), k, m[k]) else Passes(s, order, m)
    decreases |order|
  {
    if order == [] {
      assert (order + [k])[1..] == [];
    } else {
      assert (order + [k])[1..] == order[1..] + [k];
      PassesSnoc(if order[0] != "" then ReplaceAll(s, order[0], m[order[0]]) else s, order[1..], k, m);
    }
  }
}
