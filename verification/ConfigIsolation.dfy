/** isolateConfigRemotes on parsed configs: every section is renamed, every nested reference is rewritten. */
module ConfigIsolation {
  import opened Text
  import opened RemoteRewrite

  type Section = map<string, string>
  type Config = map<string, Section>

  datatype Isolation = Isolated(config: Config, remote: string) | NoRemotes | UnknownRemote

  predicate IsReferenceKey(key: string) {
    ToLower(key) == "remote" || ToLower(key) == "upstreams"
  }

  /** The word, each of its small letters written small or capital. */
  predicate Spells(key: string, word: string) {
    |key| == |word|
    && forall i | 0 <= i < |word| :: key[i] == word[i] || (key[i] as int + 32 == word[i] as int && 'A' <= key[i] <= 'Z')
  }

  /** The keys that hold references to other remotes. */
  predicate Refers(key: string) {
    Spells(key, "remote") || Spells(key, "upstreams")
  }

  lemma LowerSpells(key: string, word: string)
    requires forall i | 0 <= i < |word| :: 'a' <= word[i] <= 'z'
    ensures ToLower(key) == word <==> Spells(key, word)
  {
    var low := ToLower(key);
    assert |low| == |key| && forall i | 0 <= i < |key| :: low[i] == ToLowerChar(key[i]);
    if low == word {
      assert forall i | 0 <= i < |word| :: low[i] == word[i];
    }
    if Spells(key, word) {
      assert forall i | 0 <= i < |word| :: low[i] == word[i];
      assert low == word;
    }
  }

  lemma ReferenceKeys()
    ensures forall key :: IsReferenceKey(key) <==> Refers(key)
  {
    forall key ensures IsReferenceKey(key) <==> Refers(key) {
      LowerSpells(key, "remote");
      LowerSpells(key, "upstreams");
    }
  }

  /** `name:` tokens in reference keys become `prefix-name:`; every other value is copied. */
  function IsolatedSection(data: Section, names: set<string>, prefix: string): Section {
    map k | k in data :: if IsReferenceKey(k) then Rewritten(data[k], names, prefix) else data[k]
  }

  lemma PrefixInjective(prefix: string, m: string, n: string)
    ensures prefix + m == prefix + n <==> m == n
  {
    if prefix + m == prefix + n {
      assert m == (prefix + m)[|prefix|..] && n == (prefix + n)[|prefix|..];
    }
  }

  function IsolatedConfig(all: Config, prefix: string): (iso: Config)
    ensures forall n | n in all :: prefix + n in iso && iso[prefix + n] == IsolatedSection(all[n], all.Keys, prefix)
    ensures forall s | s in iso :: exists n :: n in all && s == prefix + n
  {
    assert forall m, n | m in all && n in all && prefix + m == prefix + n :: m == n by {
      forall m, n | m in all && n in all && prefix + m == prefix + n ensures m == n {
        PrefixInjective(prefix, m, n);
      }
    }
    map n | n in all :: prefix + n := IsolatedSection(all[n], all.Keys, prefix)
  }

  /** Names and prefix use neither ':' nor a reference separator; `prefix` includes the joining '-'. */
  ghost predicate Legal(all: Config, prefix: string, seps: set<char>) {
    && prefix != "" && Free(prefix, ':') && (forall c | c in prefix :: c !in seps)
    && AllFree(all.Keys, ':') && SepFree(all.Keys, seps)
  }

  /** Section `a` refers to the remote `t`. */
  ghost predicate Edge(all: Config, seps: set<char>, a: string, t: string) {
    a in all && exists k :: k in all[a] && Refers(k) && t in Tokens(all[a][k], seps)
  }

  /** No section name is a proper suffix of a reference anywhere in the config. */
  ghost predicate Clean(all: Config, seps: set<char>) {
    forall a, k | a in all && k in all[a] && Refers(k) :: Unambiguous(all[a][k], all.Keys, seps)
  }

  /** Every reference value of the isolated config is the original with each reference renamed once. */
  ghost predicate RenamedOnce(all: Config, prefix: string, seps: set<char>) {
    forall a, k | a in all && k in all[a] && Refers(k) :: ValueRenamedOnce(all, prefix, seps, a, k)
  }

  ghost predicate ValueRenamedOnce(all: Config, prefix: string, seps: set<char>, a: string, k: string)
    requires a in all && k in all[a]
  {
    var iso := IsolatedConfig(all, prefix);
    k in iso[prefix + a] && iso[prefix + a][k] == Simultaneous(all[a][k], all.Keys, prefix, seps)
  }

  /** Value by value: those of the keys spelled "remote" or "upstreams" are rewritten, every other one is copied. */
  lemma IsolatedValue(all: Config, prefix: string, a: string, k: string)
    requires a in all && k in all[a]
    ensures k in IsolatedConfig(all, prefix)[prefix + a]
    ensures IsolatedConfig(all, prefix)[prefix + a][k]
         == if Spells(k, "remote") || Spells(k, "upstreams") then Rewritten(all[a][k], all.Keys, prefix) else all[a][k]
  {
    LowerSpells(k, "remote");
    LowerSpells(k, "upstreams");
  }

  /** On a clean config the rewritten values are the originals with each of their references renamed once. */
  lemma ReferencesRenamed(all: Config, prefix: string, seps: set<char>, a: string, k: string)
    requires Legal(all, prefix, seps) && Clean(all, seps) && a in all && k in all[a]
    ensures k in IsolatedConfig(all, prefix)[prefix + a]
    ensures IsolatedConfig(all, prefix)[prefix + a][k]
         == if Spells(k, "remote") || Spells(k, "upstreams")
            then Simultaneous(all[a][k], all.Keys, prefix, seps)
            else all[a][k]
  {
    IsolatedValue(all, prefix, a, k);
    if Refers(k) {
      RewriteIsSimultaneousIff(all[a][k], all.Keys, prefix, seps);
    }
  }

  /** The renaming does what it is for exactly on the clean configs. */
  lemma RenamedOnceIff(all: Config, prefix: string, seps: set<char>)
    requires Legal(all, prefix, seps)
    ensures RenamedOnce(all, prefix, seps) <==> Clean(all, seps)
  {
    forall a, k | a in all && k in all[a] && Refers(k)
      ensures ValueRenamedOnce(all, prefix, seps, a, k) <==> Unambiguous(all[a][k], all.Keys, seps)
    {
      IsolatedValue(all, prefix, a, k);
      RewriteIsSimultaneousIff(all[a][k], all.Keys, prefix, seps);
    }
  }

  /**
   * A config that is not clean: one section name ends in another, and a reference to the longer one comes out with the
   * prefix in it twice. It then names a section only if the config happens to have one called that way.
   */
  lemma NestedNamesBreak(
    all: Config, prefix: string, seps: set<char>, a: string, k: string, u: string, n: string)
    requires Legal(all, prefix, seps) && a in all && k in all[a] && Refers(k)
    requires u != "" && u + n in all && n in all && all[a][k] == u + n + ":"
    requires forall x | x in all && HasSuffix(u + n, x) :: x == n || x == u + n
    ensures !Clean(all, seps) && !RenamedOnce(all, prefix, seps)
    ensures var iso, wrong := IsolatedConfig(all, prefix), prefix + u + prefix + n;
            k in iso[prefix + a] && iso[prefix + a][k] == wrong + ":" && (wrong in iso <==> u + prefix + n in all)
  {
    assert prefix + u + prefix + n == prefix + (u + prefix + n);
    NestedUnclean(all[a][k], u, n, all.Keys, seps);
    RenamedOnceIff(all, prefix, seps);
    OnlyPiece(u + n, all.Keys, prefix);
    NestedPiece(u, n, all.Keys, prefix);
    IsolatedValue(all, prefix, a, k);
    InsideOrNot(all, prefix, prefix + u + prefix + n, u + prefix + n);
  }

  lemma NestedUnclean(value: string, u: string, n: string, names: set<string>, seps: set<char>)
    requires u != "" && value == u + n + ":" && n in names && Free(u + n, ':') && forall c | c in u + n :: c !in seps
    ensures !Unambiguous(value, names, seps)
  {
    OnlyToken(u + n, seps);
    assert ProperSuffix(u + n, n) && u + n in Tokens(value, seps);
  }

  lemma InsideOrNot(all: Config, prefix: string, s: string, n: string)
    requires s == prefix + n
    ensures s in IsolatedConfig(all, prefix) <==> n in all
  {
    SectionsCarriedOver(all, prefix);
    assert s[|prefix|..] == n && s[..|prefix|] == prefix;
  }

  lemma OnlyToken(t: string, seps: set<char>)
    requires Free(t, ':') && forall c | c in t :: c !in seps
    ensures Tokens(t + ":", seps) == [t]
  {
    assert t + ":" == t + ":" + "" && Tokens("", seps) == [];
    TokensCons(t, "", seps);
    TokenPrepend("", t, seps);
    NothingBefore(t);
  }

  lemma OnlyPiece(t: string, names: set<string>, prefix: string)
    requires Free(t, ':')
    ensures Rewritten(t + ":", names, prefix) == RewritePiece(t, names, prefix) + ":"
  {
    assert t + ":" == t + [':'] + "" && Rewritten("", names, prefix) == "";
    IndexOfSplit(t, "", ':');
    RewrittenStep(t + ":", names, prefix);
  }

  const INNER := "s3"
  const OUTER := "my-s3"
  const USER := "secret"
  const KEY := "remote"

  /** Such a config, under any prefix: the reference of `secret` points nowhere. */
  lemma NestedExample(all: Config, prefix: string)
    requires all.Keys == {INNER, OUTER, USER} && all[USER] == map[KEY := OUTER + ":"]
    requires prefix != "" && Free(prefix, ':')
    ensures !RenamedOnce(all, prefix, {})
    ensures var iso, wrong := IsolatedConfig(all, prefix), prefix + "my-" + prefix + INNER;
            KEY in iso[prefix + USER] && iso[prefix + USER][KEY] == wrong + ":" && wrong !in iso
  {
    ExampleWords(prefix);
    var tail := "my-" + prefix + INNER;
    assert tail !in all;
    NestedNamesBreak(all, prefix, {}, USER, KEY, "my-", INNER);
  }

  lemma ExampleWords(prefix: string)
    ensures "my-" + INNER == OUTER && Refers(KEY) && !HasSuffix(OUTER, USER)
    ensures Free(INNER, ':') && Free(OUTER, ':') && Free(USER, ':')
    ensures var tail := "my-" + prefix + INNER; prefix != "" ==> tail != INNER && tail != OUTER && tail != USER
  {
    assert ToLower(KEY) == "remote";
    assert ("my-" + prefix + INNER)[0] == 'm';
  }

  /** Section renaming is a bijection, and only the values of reference keys change. */
  lemma SectionsCarriedOver(all: Config, prefix: string)
    ensures forall s :: s in IsolatedConfig(all, prefix) <==> HasPrefix(s, prefix) && s[|prefix|..] in all
    ensures forall n | n in all :: (prefix + n)[|prefix|..] == n
    ensures forall n | n in all :: prefix + n in IsolatedConfig(all, prefix)
              && var before, after := all[n], IsolatedConfig(all, prefix)[prefix + n];
                 before.Keys == after.Keys && forall k | k in before && !Refers(k) :: after[k] == before[k]
  {
    ReferenceKeys();
    var iso := IsolatedConfig(all, prefix);
    forall s ensures s in iso <==> HasPrefix(s, prefix) && s[|prefix|..] in all {
      if s in iso {
        var n :| n in all && s == prefix + n;
        assert s[|prefix|..] == n && s[..|prefix|] == prefix;
      }
      if HasPrefix(s, prefix) && s[|prefix|..] in all {
        assert s == prefix + s[|prefix|..];
      }
    }
  }

  /**
   * The reference graph is carried over exactly: in-config edges map to in-config edges and back,
   * references to remotes outside the config stay as they are and are not captured by a renamed section.
   */
  lemma GraphCarriedOver(all: Config, prefix: string, seps: set<char>, a: string, t: string)
    requires Legal(all, prefix, seps) && Clean(all, seps) && a in all
    ensures var iso := IsolatedConfig(all, prefix);
            && (t in all ==> (Edge(all, seps, a, t) <==> Edge(iso, seps, prefix + a, prefix + t)))
            && (t !in all && Edge(all, seps, a, t) ==> Edge(iso, seps, prefix + a, t) && t !in iso)
            && (t in iso && Edge(iso, seps, prefix + a, t)
                ==> Edge(all, seps, a, t[|prefix|..]) && t[|prefix|..] in all)
  {
    var iso := IsolatedConfig(all, prefix);
    SectionsCarriedOver(all, prefix);
    if Edge(all, seps, a, t) {
      var k :| k in all[a] && Refers(k) && t in Tokens(all[a][k], seps);
      ForwardEdge(all, prefix, seps, a, k, t);
    }
    forall t' | Edge(iso, seps, prefix + a, t') && t' in iso ensures Edge(all, seps, a, t'[|prefix|..]) {
      var k :| k in iso[prefix + a] && Refers(k) && t' in Tokens(iso[prefix + a][k], seps);
      BackwardEdge(all, prefix, seps, a, k, t');
    }
    assert (prefix + t)[|prefix|..] == t;
  }

  lemma TokensCarriedOver(all: Config, prefix: string, seps: set<char>, a: string, k: string)
    requires Legal(all, prefix, seps) && Clean(all, seps) && a in all && k in all[a] && Refers(k)
    ensures k in IsolatedConfig(all, prefix)[prefix + a]
    ensures Tokens(IsolatedConfig(all, prefix)[prefix + a][k], seps)
         == RenamedTokens(Tokens(all[a][k], seps), all.Keys, prefix)
  {
    ReferencesRenamed(all, prefix, seps, a, k);
    TokensOfSimultaneous(all[a][k], all.Keys, prefix, seps);
  }

  lemma ForwardEdge(all: Config, prefix: string, seps: set<char>, a: string, k: string, t: string)
    requires Legal(all, prefix, seps) && Clean(all, seps) && a in all && k in all[a] && Refers(k)
    requires t in Tokens(all[a][k], seps)
    ensures Edge(IsolatedConfig(all, prefix), seps, prefix + a, RenamedToken(t, all.Keys, prefix))
    ensures t !in all ==> t !in IsolatedConfig(all, prefix)
  {
    TokensCarriedOver(all, prefix, seps, a, k);
    var ts := Tokens(all[a][k], seps);
    var i :| 0 <= i < |ts| && ts[i] == t;
    assert a in all && prefix + a in IsolatedConfig(all, prefix);
    assert RenamedTokens(ts, all.Keys, prefix)[i] == RenamedToken(t, all.Keys, prefix);
    if t !in all {
      NotCaptured(all, prefix, seps, t);
    }
  }

  /** A reference outside the config that is not ambiguous is no renamed section name. */
  lemma NotCaptured(all: Config, prefix: string, seps: set<char>, t: string)
    requires prefix != "" && forall n | n in all :: !ProperSuffix(t, n)
    ensures t !in IsolatedConfig(all, prefix)
  {
    SectionsCarriedOver(all, prefix);
    if HasPrefix(t, prefix) {
      var n := t[|prefix|..];
      assert ProperSuffix(t, n);
    }
  }

  lemma BackwardEdge(all: Config, prefix: string, seps: set<char>, a: string, k: string, t': string)
    requires Legal(all, prefix, seps) && Clean(all, seps) && a in all && k in all[a] && Refers(k)
    requires t' in IsolatedConfig(all, prefix) && k in IsolatedConfig(all, prefix)[prefix + a]
    requires t' in Tokens(IsolatedConfig(all, prefix)[prefix + a][k], seps)
    ensures HasPrefix(t', prefix) && t'[|prefix|..] in all && t'[|prefix|..] in Tokens(all[a][k], seps)
  {
    SectionsCarriedOver(all, prefix);
    TokensCarriedOver(all, prefix, seps, a, k);
    var ts := Tokens(all[a][k], seps);
    var i :| 0 <= i < |ts| && RenamedToken(ts[i], all.Keys, prefix) == t';
    if ts[i] !in all {
      NotCaptured(all, prefix, seps, ts[i]);
    } else {
      assert (prefix + ts[i])[|prefix|..] == ts[i];
    }
  }

  // ---------------------------------------------------------------- sections of different volumes

  const HASH_LENGTH: nat := 16

  /** remotePrefixForVolume; `digest` is the hex sha256 of the volume id. */
  function RemotePrefixForVolume(digest: string, override: string): (prefix: string)
    requires |digest| >= HASH_LENGTH
    ensures override != "" ==> prefix == override
    ensures override == "" ==> |prefix| == 3 + HASH_LENGTH && HasPrefix(prefix, "csi") && HasPrefix(digest, prefix[3..])
  {
    if override != "" then override else "csi" + digest[..HASH_LENGTH]
  }

  /** Whatever configs the two volumes carry, their loaded sections never have a name in common. */
  ghost predicate AlwaysDisjoint(p1: string, p2: string) {
    forall all1: Config, all2: Config :: IsolatedConfig(all1, p1).Keys !! IsolatedConfig(all2, p2).Keys
  }

  /** Two prefixes keep their volumes apart exactly when neither begins with the other. */
  lemma DisjointIff(p1: string, p2: string)
    ensures AlwaysDisjoint(p1, p2) <==> !HasPrefix(p1, p2) && !HasPrefix(p2, p1)
  {
    if HasPrefix(p1, p2) {
      var all2, all1 := Collision(p2, p1);
      assert !(IsolatedConfig(all1, p1).Keys !! IsolatedConfig(all2, p2).Keys);
    } else if HasPrefix(p2, p1) {
      var all1, all2 := Collision(p1, p2);
    } else {
      forall all1: Config, all2: Config ensures IsolatedConfig(all1, p1).Keys !! IsolatedConfig(all2, p2).Keys {
        forall s | s in IsolatedConfig(all1, p1) ensures s !in IsolatedConfig(all2, p2) {
          SectionsCarriedOver(all1, p1);
          SectionsCarriedOver(all2, p2);
          if s in IsolatedConfig(all2, p2) {
            NoCommonExtension(s, p1, p2);
          }
        }
      }
    }
  }

  lemma NoCommonExtension(s: string, p1: string, p2: string)
    requires HasPrefix(s, p1) && HasPrefix(s, p2)
    ensures HasPrefix(p1, p2) || HasPrefix(p2, p1)
  {
    if |p1| <= |p2| {
      assert s[..|p2|][..|p1|] == s[..|p1|];
    } else {
      assert s[..|p1|][..|p2|] == s[..|p2|];
    }
  }

  /** Two configs whose sections collide when one prefix begins with the other. */
  lemma Collision(shorter: string, longer: string) returns (all1: Config, all2: Config)
    requires HasPrefix(longer, shorter)
    ensures !(IsolatedConfig(all1, shorter).Keys !! IsolatedConfig(all2, longer).Keys)
  {
    var x := longer[|shorter|..] + "a";
    all1, all2 := map[x := map[]], map["a" := map[]];
    assert longer + "a" == shorter + x;
    SharedSection(all1, shorter, x, all2, longer, "a", longer + "a");
  }

  lemma SharedSection(all1: Config, p1: string, n1: string, all2: Config, p2: string, n2: string, section: string)
    requires n1 in all1 && n2 in all2 && section == p1 + n1 && section == p2 + n2
    ensures !(IsolatedConfig(all1, p1).Keys !! IsolatedConfig(all2, p2).Keys)
  {
    assert section in IsolatedConfig(all1, p1) && section in IsolatedConfig(all2, p2);
  }

  /** Default prefixes have a fixed length, so volumes with different digests never touch each other's sections. */
  lemma DefaultPrefixesDisjoint(d1: string, d2: string)
    requires |d1| >= HASH_LENGTH && |d2| >= HASH_LENGTH && d1[..HASH_LENGTH] != d2[..HASH_LENGTH]
    ensures AlwaysDisjoint(RemotePrefixForVolume(d1, "") + "-", RemotePrefixForVolume(d2, "") + "-")
  {
    var p1, p2 := RemotePrefixForVolume(d1, "") + "-", RemotePrefixForVolume(d2, "") + "-";
    assert d1[..HASH_LENGTH] == p1[3..3 + HASH_LENGTH] && d2[..HASH_LENGTH] == p2[3..3 + HASH_LENGTH];
    assert |p1| == |p2| && p1[..|p1|] == p1 && p2[..|p2|] == p2;
    DisjointIff(p1, p2);
  }

  // ---------------------------------------------------------------- the loops

  method IsolateConfigRemotes(all: Config, logicalRemote: string, prefix: string) returns (r: Isolation)
    ensures r.NoRemotes? <==> all == map[]
    ensures r.UnknownRemote? <==> all != map[] && logicalRemote !in all
    ensures r.Isolated? ==> r.remote == prefix + "-" + logicalRemote && r.remote in r.config
    ensures r.Isolated? && Free(prefix, ':') && AllFree(all.Keys, ':') ==> r.config == IsolatedConfig(all, prefix + "-")
  {
    if all == map[] {
      return NoRemotes;
    }
    if logicalRemote !in all {
      return UnknownRemote;
    }
    var rename := BuildRename(all.Keys, prefix);
    var isolated := BuildIsolated(all, rename, prefix + "-");
    return Isolated(isolated, rename[logicalRemote]);
  }

  method BuildRename(names: set<string>, prefix: string) returns (rename: map<string, string>)
    ensures rename.Keys == names && PrefixRename(rename, prefix + "-")
  {
    rename := map[];
    var todo := names;
    while todo != {}
      invariant todo <= names && rename.Keys == names - todo && PrefixRename(rename, prefix + "-")
      decreases todo
    {
      var name :| name in todo;
      rename := rename[name := prefix + "-" + name];
      todo := todo - {name};
    }
  }

  method BuildIsolated(all: Config, rename: map<string, string>, ghost prefix: string) returns (isolated: Config)
    requires rename.Keys == all.Keys && PrefixRename(rename, prefix)
    ensures isolated.Keys == IsolatedConfig(all, prefix).Keys
    ensures Free(prefix, ':') && AllFree(all.Keys, ':') ==> isolated == IsolatedConfig(all, prefix)
  {
    isolated := map[];
    var todo := all.Keys;
    ghost var goal := IsolatedConfig(all, prefix);
    ghost var legal := Free(prefix, ':') && AllFree(all.Keys, ':');
    while todo != {}
      invariant todo <= all.Keys
      invariant Covers(isolated, rename, all.Keys - todo)
      invariant Within(isolated, goal, legal)
      decreases todo
    {
      var name :| name in todo;
      isolated := StepIsolated(all, rename, prefix, isolated, name, goal, legal);
      assert all.Keys - (todo - {name}) == all.Keys - todo + {name};
      todo := todo - {name};
    }
    assert all.Keys - todo == all.Keys;
    CoveredIsAll(all, rename, prefix, isolated, legal);
  }

  ghost predicate Covers(part: Config, rename: map<string, string>, names: set<string>) {
    forall n | n in names :: n in rename && rename[n] in part
  }

  lemma CoveredIsAll(all: Config, rename: map<string, string>, prefix: string, isolated: Config, same: bool)
    requires rename.Keys == all.Keys && PrefixRename(rename, prefix)
    requires Covers(isolated, rename, all.Keys) && Within(isolated, IsolatedConfig(all, prefix), same)
    ensures isolated.Keys == IsolatedConfig(all, prefix).Keys
    ensures same ==> isolated == IsolatedConfig(all, prefix)
  {
    forall s | s in IsolatedConfig(all, prefix) ensures s in isolated {
      var n :| n in all && s == prefix + n;
      assert rename[n] == s;
    }
  }

  /** One round of the outer loop. */
  method StepIsolated(all: Config, rename: map<string, string>, ghost prefix: string, isolated: Config, name: string,
                      ghost goal: Config, ghost legal: bool) returns (extended: Config)
    requires rename.Keys == all.Keys && PrefixRename(rename, prefix) && name in all
    requires goal == IsolatedConfig(all, prefix) && Within(isolated, goal, legal)
    requires legal ==> Free(prefix, ':') && AllFree(all.Keys, ':')
    ensures forall names | Covers(isolated, rename, names) :: Covers(extended, rename, names + {name})
    ensures Within(extended, goal, legal)
  {
    var data := RewriteSection(all[name], rename, prefix);
    assert rename[name] == prefix + name;
    extended := isolated[rename[name] := data];
  }

  /** `part` has only sections of `goal`, and, when asked for, with the same content. */
  ghost predicate Within(part: Config, goal: Config, same: bool) {
    forall s | s in part :: s in goal && (same ==> part[s] == goal[s])
  }

  method RewriteSection(data: Section, rename: map<string, string>, ghost prefix: string) returns (newData: Section)
    requires PrefixRename(rename, prefix)
    ensures newData.Keys == data.Keys
    ensures Free(prefix, ':') && AllFree(rename.Keys, ':') ==> newData == IsolatedSection(data, rename.Keys, prefix)
    ensures forall k | k in data && !Spells(k, "remote") && !Spells(k, "upstreams") :: newData[k] == data[k]
  {
    ReferenceKeys();
    newData := map[];
    var todo := data.Keys;
    while todo != {}
      invariant todo <= data.Keys && newData.Keys == data.Keys - todo
      invariant forall k | k in newData && !Refers(k) :: newData[k] == data[k]
      invariant Free(prefix, ':') && AllFree(rename.Keys, ':') ==>
                  forall k | k in newData :: newData[k] == IsolatedSection(data, rename.Keys, prefix)[k]
      decreases todo
    {
      var key :| key in todo;
      var value := data[key];
      if IsReferenceKey(key) {
        value := RewriteRemoteReferences(value, rename);
      }
      newData := newData[key := value];
      todo := todo - {key};
    }
  }
}
