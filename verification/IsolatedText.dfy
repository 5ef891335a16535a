/** isolateConfigRemotes from text to text: what is loaded for a volume is exactly the isolated map. */
module IsolatedText {
  import opened Text
  import opened RemoteRewrite
  import opened ConfigIsolation
  import opened ConfigText

  datatype TextIsolation =
    | IsolatedData(configData: string, remote: string)
    | BadText
    | NoRemotesInText
    | UnknownRemoteInText

  /** A usable isolation prefix: what MakeConfigName leaves alone, without a colon. */
  predicate GoodPrefix(prefix: string) {
    prefix != "" && GoodName(prefix) && !Quote(prefix) && Free(prefix, ':')
  }

  /**
   * How a rewritten string relates to the original: same end, start from the original or the prefix, no foreign
   * characters.
   */
  ghost predicate Shaped(r: string, v: string, prefix: string) {
    && (v != "" ==> r != "" && r[|r| - 1] == v[|v| - 1] && (r[0] == v[0] || (prefix != "" && r[0] == prefix[0])))
    && forall c | c in r :: c in v || c in prefix
  }

  /** Same start as the original or the prefix, and only characters of the two. */
  ghost predicate Grown(r: string, p: string, prefix: string)
    requires prefix != "" && p != ""
  {
    r != "" && (r[0] == p[0] || r[0] == prefix[0]) && forall c | c in r :: c in p || c in prefix
  }

  lemma GrownTwice(r: string, q: string, p: string, prefix: string)
    requires prefix != "" && p != "" && Grown(q, p, prefix) && Grown(r, q, prefix)
    ensures Grown(r, p, prefix)
  {
  }

  lemma StepShape(p: string, names: set<string>, prefix: string, len: nat)
    requires prefix != "" && p != ""
    ensures Grown(InsertStep(p, names, prefix, len), p, prefix)
  {
  }

  lemma {:induction false} InsertAtShape(p: string, names: set<string>, prefix: string, len: nat)
    requires prefix != "" && p != ""
    ensures Grown(InsertAt(p, names, prefix, len), p, prefix)
    decreases len
  {
    var p', r := InsertStep(p, names, prefix, len), InsertAt(p, names, prefix, len);
    StepShape(p, names, prefix, len);
    if len > 0 {
      AfterStep(p, names, prefix, len);
      InsertAtShape(p', names, prefix, len - 1);
      GrownTwice(r, p', p, prefix);
    } else {
      assert r == p';
    }
  }

  lemma PieceShape(p: string, names: set<string>, prefix: string)
    requires prefix != ""
    ensures var r := RewritePiece(p, names, prefix);
            && (p != "" ==> r != "") && (r != "" ==> r[0] == prefix[0] || (p != "" && r[0] == p[0]))
            && forall c | c in r :: c in p || c in prefix
  {
    if p != "" {
      InsertAtShape(p, names, prefix, |p|);
    } else {
      assert RewritePiece(p, names, prefix) == "" || RewritePiece(p, names, prefix) == prefix by {
        assert "" + prefix + "" == prefix;
      }
    }
  }

  lemma {:induction false} RewrittenShape(v: string, names: set<string>, prefix: string)
    requires prefix != ""
    ensures Shaped(Rewritten(v, names, prefix), v, prefix)
    decreases |v|
  {
    if IndexOf(v, ':') < |v| {
      var p, rest, tail := FirstPiece(v, names, prefix);
      PieceShape(p, names, prefix);
      RewrittenShape(rest, names, prefix);
      JoinShape(RewritePiece(p, names, prefix), tail, p, rest, prefix);
    }
  }

  lemma FirstPiece(v: string, names: set<string>, prefix: string)
    returns (p: string, rest: string, tail: string)
    requires IndexOf(v, ':') < |v|
    ensures |rest| < |v| && v == p + [':'] + rest && tail == Rewritten(rest, names, prefix)
    ensures Rewritten(v, names, prefix) == RewritePiece(p, names, prefix) + [':'] + tail
    ensures rest == "" ==> tail == ""
  {
    var i := IndexOf(v, ':');
    p, rest := v[..i], v[i + 1..];
    tail := Rewritten(rest, names, prefix);
  }

  lemma JoinShape(q: string, tail: string, p: string, rest: string, prefix: string)
    requires prefix != "" && (p != "" ==> q != "") && (q != "" ==> q[0] == prefix[0] || (p != "" && q[0] == p[0]))
    requires (forall c | c in q :: c in p || c in prefix) && Shaped(tail, rest, prefix)
    requires rest == "" ==> tail == ""
    ensures Shaped(q + [':'] + tail, p + [':'] + rest, prefix)
  {
    var r, v := q + [':'] + tail, p + [':'] + rest;
    assert forall c | c in v :: c in p || c == ':' || c in rest;
    assert forall c | c in p || c == ':' || c in rest :: c in v by {
      assert v[|p|] == ':';
      forall c | c in rest ensures c in v {
        var k :| 0 <= k < |rest| && rest[k] == c;
        assert v[|p| + 1 + k] == c;
      }
      forall c | c in p ensures c in v {
        var k :| 0 <= k < |p| && p[k] == c;
        assert v[k] == c;
      }
    }
    assert v[0] == if p != "" then p[0] else ':';
    assert r[0] == if q != "" then q[0] else ':';
    assert rest != "" ==> v[|v| - 1] == rest[|rest| - 1] && r[|r| - 1] == tail[|tail| - 1];
  }

  /** Isolation keeps the map writable. */
  lemma IsolatedWellFormed(all: Config, prefix: string)
    requires WellFormed(all) && GoodPrefix(prefix)
    ensures WellFormed(IsolatedConfig(all, prefix + "-"))
  {
    var full := prefix + "-";
    var iso := IsolatedConfig(all, full);
    forall s | s in iso ensures GoodName(s) && s != DEFAULT_SECTION && GoodSection(iso[s]) {
      var n :| n in all && s == full + n;
      PrefixedNameGood(prefix, n);
      IsolatedSectionGood(all[n], all.Keys, prefix);
    }
  }

  lemma PrefixedNameGood(prefix: string, n: string)
    requires GoodPrefix(prefix) && GoodName(n)
    ensures GoodName(prefix + "-" + n) && prefix + "-" + n != DEFAULT_SECTION
  {
    var s := prefix + "-" + n;
    assert s[|prefix|] == '-' && '-' !in DEFAULT_SECTION && s[0] == prefix[0];
    assert n != "" ==> s[|s| - 1] == n[|n| - 1];
  }

  lemma IsolatedSectionGood(data: Section, names: set<string>, prefix: string)
    requires GoodSection(data) && GoodPrefix(prefix)
    ensures GoodSection(IsolatedSection(data, names, prefix + "-"))
  {
    forall k | k in data && IsReferenceKey(k) ensures GoodEntry(k, Rewritten(data[k], names, prefix + "-")) {
      ReferenceStaysGood(k, data[k], names, prefix);
    }
  }

  lemma ReferenceStaysGood(key: string, value: string, names: set<string>, prefix: string)
    requires GoodEntry(key, value) && IsReferenceKey(key) && GoodPrefix(prefix)
    ensures GoodEntry(key, Rewritten(value, names, prefix + "-"))
  {
    var full := prefix + "-";
    RewrittenShape(value, names, full);
    assert full[0] == prefix[0];
    assert ToLower(key)[0] == ToLowerChar(key[0]) && ToLowerChar('[') == '[';
    if value == "" {
      assert Rewritten("", names, full) == "";
    }
  }

  /** Text in, text out: parse, isolate, serialize. */
  method IsolateConfigData(configData: string, logicalRemote: string, prefix: string) returns (r: TextIsolation)
    ensures r.BadText? <==> ParseAllConfigRemotes(configData).None?
    ensures r.NoRemotesInText? <==> ParseAllConfigRemotes(configData) == Some(map[])
    ensures r.IsolatedData?
        <==> ParseAllConfigRemotes(configData).Some? && logicalRemote in ParseAllConfigRemotes(configData).value
    ensures r.IsolatedData? ==> r.remote == prefix + "-" + logicalRemote
    ensures r.IsolatedData? && GoodPrefix(prefix) && AllFree(ParseAllConfigRemotes(configData).value.Keys, ':') ==>
              && r.configData == Serialized(IsolatedConfig(ParseAllConfigRemotes(configData).value, prefix + "-"))
              && ParseAllConfigRemotes(r.configData)
                 == Some(IsolatedConfig(ParseAllConfigRemotes(configData).value, prefix + "-"))
  {
    var parsed := ParseAllConfigRemotes(configData);
    if parsed.None? {
      return BadText;
    }
    var isolation := IsolateConfigRemotes(parsed.value, logicalRemote, prefix);
    match isolation
    case NoRemotes => return NoRemotesInText;
    case UnknownRemote => return UnknownRemoteInText;
    case Isolated(config, remote) =>
      var text := SerializeConfigRemotes(config);
      if GoodPrefix(prefix) && AllFree(parsed.value.Keys, ':') {
        ParseSerializeParse(configData);
        IsolatedWellFormed(parsed.value, prefix);
        ParseSerialized(config);
      }
      return IsolatedData(text, remote);
  }
}
