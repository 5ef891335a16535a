/** Publish parameters, persisted mount states, and what each node finds in the shared secret store. */
module MountStore {
  import opened Text

  // ---------------------------------------------------------------- publish parameters

  const REMOTE := "remote"
  const REMOTE_PATH := "remotePath"
  const CONFIG_DATA := "configData"
  const BACKEND_TYPE := "remoteType"
  const REMOTE_PREFIX := "remotePrefix"

  type Params = map<string, string>

  datatype PublishParams = PublishParams(
    remoteName: string, remotePath: string, configData: string, remoteType: string, remotePrefix: string,
    params: Params)

  datatype Extraction = Extracted(pvp: PublishParams) | MissingRemote | MissingConfig | InvalidName(key: string)

  predicate IsReserved(key: string) {
    key == REMOTE || key == REMOTE_PATH || key == CONFIG_DATA || key == BACKEND_TYPE || key == REMOTE_PREFIX
  }

  function Get(params: Params, key: string): string {
    if key in params then params[key] else ""
  }

  /** normalizeRcloneFlag */
  function Normalized(key: string): string {
    var trimmed := if HasPrefix(key, "--") then key[2..] else key;
    ToLower(ReplaceAll(trimmed, "-", "_"))
  }

  /** One character of a normalized name. */
  function NormalizedChar(c: char): char {
    if c == '-' then '_' else if 'A' <= c <= 'Z' then (c as int + 32) as char else c
  }

  lemma {:induction false} ReplaceChar(s: string, a: char, b: char)
    ensures |ReplaceAll(s, [a], [b])| == |s|
    ensures forall i | 0 <= i < |s| :: ReplaceAll(s, [a], [b])[i] == if s[i] == a then b else s[i]
    decreases |s|
  {
    if s != "" {
      ReplaceChar(s[1..], a, b);
      assert s[..1] == [s[0]];
      assert ReplaceAll(s, [a], [b]) == [if s[0] == a then b else s[0]] + ReplaceAll(s[1..], [a], [b]);
    }
  }

  /** Two leading hyphens go, other hyphens become underscores, and capital letters small ones. */
  lemma NormalizedIs(key: string)
    ensures var t := if |key| >= 2 && key[0] == '-' && key[1] == '-' then key[2..] else key;
            |Normalized(key)| == |t| && forall i | 0 <= i < |t| :: Normalized(key)[i] == NormalizedChar(t[i])
  {
    assert HasPrefix(key, "--") <==> |key| >= 2 && key[0] == '-' && key[1] == '-' by {
      if |key| >= 2 {
        assert key[..2] == [key[0], key[1]] && "--" == ['-', '-'];
      }
    }
    var t := if HasPrefix(key, "--") then key[2..] else key;
    ReplaceChar(t, '-', '_');
    assert ['-'] == "-" && ['_'] == "_";
  }

  /** No normalized name holds a capital letter, so none is the name under which the prefix is saved. */
  lemma NormalizedNotPrefix(key: string)
    ensures Normalized(key) != REMOTE_PREFIX
  {
    assert REMOTE_PREFIX[6] == 'P';
    if |Normalized(key)| > 6 {
      assert Normalized(key)[6] != 'P';
    }
  }

  /** The free parameters of a publish: every other key under its normalized name. */
  ghost predicate Collected(raw: Params, params: Params) {
    && (forall n :: n in params <==> exists k :: k in raw && !IsReserved(k) && Normalized(k) == n)
    && (forall n | n in params :: exists k :: k in raw && !IsReserved(k) && Normalized(k) == n && raw[k] == params[n])
  }

  /** Two spellings of one parameter with different values. */
  ghost predicate Clash(raw: Params) {
    exists j, k :: j in raw && k in raw && !IsReserved(j) && !IsReserved(k) && Normalized(j) == Normalized(k)
                   && raw[j] != raw[k]
  }

  /** The parameters a publish may work with, given the raw ones. */
  ghost predicate Extracts(raw: Params, pvp: PublishParams) {
    && Get(raw, REMOTE) != "" && (Get(raw, CONFIG_DATA) != "" || Get(raw, BACKEND_TYPE) != "")
    && pvp.remoteName == Get(raw, REMOTE) && pvp.remotePath == Get(raw, REMOTE_PATH)
    && pvp.configData == Get(raw, CONFIG_DATA) && pvp.remoteType == Get(raw, BACKEND_TYPE)
    && pvp.remotePrefix == Get(raw, REMOTE_PREFIX) && Collected(raw, pvp.params)
  }

  /** Every parameter but the five with a meaning of their own is passed on, and nothing else is. */
  lemma OthersPassedOn(raw: Params, pvp: PublishParams)
    requires Extracts(raw, pvp)
    ensures var own := {"remote", "remotePath", "configData", "remoteType", "remotePrefix"};
            && (forall k | k in raw && k !in own :: Normalized(k) in pvp.params)
            && (forall n | n in pvp.params :: exists k :: k in raw && k !in own && Normalized(k) == n
                                                          && raw[k] == pvp.params[n])
  {
    var own := {"remote", "remotePath", "configData", "remoteType", "remotePrefix"};
    assert forall k :: IsReserved(k) <==> k in own;
    forall n | n in pvp.params
      ensures exists k :: k in raw && k !in own && Normalized(k) == n && raw[k] == pvp.params[n]
    {
      var k :| k in raw && !IsReserved(k) && Normalized(k) == n && raw[k] == pvp.params[n];
      assert k !in own;
    }
  }

  lemma NoPrefixAmongParams(raw: Params, params: Params)
    requires Collected(raw, params)
    ensures REMOTE_PREFIX !in params
  {
    if REMOTE_PREFIX in params {
      var k :| k in raw && Normalized(k) == REMOTE_PREFIX;
      NormalizedNotPrefix(k);
    }
  }

  /** Without a clash the order in which the map is walked does not show. */
  lemma CollectedUnique(raw: Params, a: Params, b: Params)
    requires Collected(raw, a) && Collected(raw, b) && !Clash(raw)
    ensures a == b
  {
    forall n | n in a ensures n in b && a[n] == b[n] {
    }
    forall n | n in b ensures n in a {
    }
  }

  /** With one, both values are possible outcomes. */
  lemma ClashIsVisible(raw: Params, params: Params)
    requires Collected(raw, params) && Clash(raw)
    ensures exists other :: Collected(raw, other) && other != params
  {
    var j, k :| j in raw && k in raw && !IsReserved(j) && !IsReserved(k) && Normalized(j) == Normalized(k)
                && raw[j] != raw[k];
    var n := Normalized(j);
    var value := if params[n] == raw[j] then raw[k] else raw[j];
    var other := params[n := value];
    assert other[n] != params[n];
    assert Collected(raw, other);
  }

  /** Each error exactly when it is due: a name without letters or digits is an error, a missing value comes first. */
  ghost predicate ExtractionOf(raw: Params, r: Extraction) {
    && (r.MissingRemote? <==> Get(raw, REMOTE) == "")
    && (r.MissingConfig?
        <==> Get(raw, REMOTE) != "" && Get(raw, CONFIG_DATA) == "" && Get(raw, BACKEND_TYPE) == "")
    && (r.InvalidName? ==> r.key in raw && !IsReserved(r.key) && Normalized(r.key) == "")
    && (r.Extracted? ==> Extracts(raw, r.pvp) && "" !in r.pvp.params)
  }

  method ExtractPublishParams(raw: Params) returns (r: Extraction)
    ensures ExtractionOf(raw, r)
  {
    var remote, config, kind := Get(raw, REMOTE), Get(raw, CONFIG_DATA), Get(raw, BACKEND_TYPE);
    if remote == "" {
      return MissingRemote;
    }
    if config == "" && kind == "" {
      return MissingConfig;
    }
    var params: Params := map[];
    var todo := raw.Keys;
    while todo != {}
      invariant todo <= raw.Keys && "" !in params
      invariant forall k | k in raw && k !in todo && !IsReserved(k) :: Normalized(k) in params
      invariant forall n | n in params ::
                  exists k :: k in raw && !IsReserved(k) && Normalized(k) == n && raw[k] == params[n]
      decreases |todo|
    {
      var k :| k in todo;
      todo := todo - {k};
      if !IsReserved(k) {
        var name := Normalized(k);
        if name == "" {
          return InvalidName(k);
        }
        params := params[name := raw[k]];
      }
    }
    return Extracted(PublishParams(remote, Get(raw, REMOTE_PATH), config, kind, Get(raw, REMOTE_PREFIX), params));
  }

  // ---------------------------------------------------------------- states and secrets

  datatype MountState = MountState(
    volumeId: string, stagingPath: string, targetPath: string, configData: string, remoteName: string,
    remotePath: string, remoteType: string, mountParams: Params, mountOptions: seq<string>, readOnly: bool)

  /** Secret values; the two JSON documents are kept as what they decode to. */
  datatype Value = Plain(text: string) | ParamsJson(params: Params) | OptionsJson(options: seq<string>)

  /** The keys of a state secret. */
  datatype Field =
    | VolumeId | StagingPath | TargetPath | ConfigData | RemoteName | RemotePath | RemoteType
    | MountParams | MountOptions | ReadOnly

  datatype Secret = Secret(node: string, data: map<Field, Value>)

  /** mountParamsForState */
  function MountParamsForState(pvp: PublishParams): Params {
    if pvp.remotePrefix == "" then pvp.params else pvp.params[REMOTE_PREFIX := pvp.remotePrefix]
  }

  /** buildSecret, without the timestamp. */
  function BuildSecret(node: string, st: MountState): Secret {
    Secret(node, map[
      VolumeId := Plain(st.volumeId), StagingPath := Plain(st.stagingPath), TargetPath := Plain(st.targetPath),
      ConfigData := Plain(st.configData), RemoteName := Plain(st.remoteName), RemotePath := Plain(st.remotePath),
      RemoteType := Plain(st.remoteType), MountParams := ParamsJson(st.mountParams),
      MountOptions := OptionsJson(st.mountOptions), ReadOnly := Plain(if st.readOnly then "true" else "false")])
  }

  function TextIn(s: Secret, key: Field): string {
    if key in s.data && s.data[key].Plain? then s.data[key].text else ""
  }

  /** deserializeSecret */
  function DeserializeSecret(s: Secret): MountState {
    var staging, target := TextIn(s, StagingPath), TextIn(s, TargetPath);
    MountState(
      TextIn(s, VolumeId), if staging == "" then target else staging, target, TextIn(s, ConfigData),
      TextIn(s, RemoteName), TextIn(s, RemotePath), TextIn(s, RemoteType),
      if MountParams in s.data && s.data[MountParams].ParamsJson? then s.data[MountParams].params else map[],
      if MountOptions in s.data && s.data[MountOptions].OptionsJson? then s.data[MountOptions].options else [],
      TextIn(s, ReadOnly) == "true")
  }

  /** A stored state comes back as it was, with the target as the staging path of a direct mount. */
  lemma SecretRoundTrip(node: string, st: MountState)
    ensures DeserializeSecret(BuildSecret(node, st)) == st.(stagingPath := RemountPath(st))
  {
    var s := BuildSecret(node, st);
    assert TextIn(s, ReadOnly) == (if st.readOnly then "true" else "false");
    assert "true"[0] != "false"[0];
  }

  /** What a secret lacks reads as nothing, and read-only is what it says so of in just that word. */
  lemma ReadsWhatIsThere(s: Secret)
    ensures DeserializeSecret(s).readOnly <==> ReadOnly in s.data && s.data[ReadOnly] == Plain("true")
    ensures VolumeId !in s.data ==> DeserializeSecret(s).volumeId == ""
    ensures ConfigData !in s.data ==> DeserializeSecret(s).configData == ""
    ensures RemoteName !in s.data ==> DeserializeSecret(s).remoteName == ""
    ensures RemotePath !in s.data ==> DeserializeSecret(s).remotePath == ""
    ensures MountParams !in s.data ==> DeserializeSecret(s).mountParams == map[]
    ensures MountOptions !in s.data ==> DeserializeSecret(s).mountOptions == []
  {
  }

  function RemountPath(st: MountState): string {
    if st.stagingPath == "" then st.targetPath else st.stagingPath
  }

  /** Saving a loaded state again, as every remount does, changes nothing that the next load would see. */
  lemma ResavingIsStable(node: string, st: MountState)
    ensures var once := DeserializeSecret(BuildSecret(node, st)); DeserializeSecret(BuildSecret(node, once)) == once
  {
    SecretRoundTrip(node, st);
    SecretRoundTrip(node, DeserializeSecret(BuildSecret(node, st)));
  }

  // ---------------------------------------------------------------- the secret store

  /** What the secret name is a digest of; digests are taken to be collision-free. */
  function Identity(volume: string, target: string): string {
    if target == "" then volume else volume + ['\0'] + target
  }

  lemma IdentityInjective(v: string, t: string, w: string, u: string)
    requires Free(v, '\0') && Free(w, '\0')
    ensures Identity(v, t) == Identity(w, u) <==> v == w && t == u
  {
    if t != "" && u != "" && Identity(v, t) == Identity(w, u) {
      FirstCutUnique(v, t, w, u, '\0');
    } else if (t == "") != (u == "") {
      assert '\0' in Identity(v, t) || '\0' in Identity(w, u);
    }
  }

  type Store = map<string, Secret>

  /** One call of some node's state manager that reached the API. */
  datatype StoreOp =
    | Save(node: string, state: MountState)
    | Delete(node: string, volume: string, target: string)

  function KeyOf(op: StoreOp): string {
    match op
    case Save(_, st) => Identity(st.volumeId, st.targetPath)
    case Delete(_, v, t) => Identity(v, t)
  }

  function AfterOp(store: Store, op: StoreOp): Store {
    match op
    case Save(node, st) => store[KeyOf(op) := BuildSecret(node, st)]
    case Delete(_, _, _) => store - {KeyOf(op)}
  }

  function AfterOps(store: Store, ops: seq<StoreOp>): Store
    decreases |ops|
  {
    if ops == [] then store else AfterOp(AfterOps(store, ops[..|ops| - 1]), ops[|ops| - 1])
  }

  /** LoadState: the secrets that carry the node's label, by their identity. */
  function Loaded(store: Store, node: string): map<string, MountState> {
    map key | key in store && store[key].node == node :: DeserializeSecret(store[key])
  }

  /** What the node would find if it had the store to itself. */
  function OwnOps(ops: seq<StoreOp>, node: string): seq<StoreOp>
    decreases |ops|
  {
    if ops == [] then []
    else OwnOps(ops[..|ops| - 1], node) + if ops[|ops| - 1].node == node then [ops[|ops| - 1]] else []
  }

  function Expected(ops: seq<StoreOp>, node: string): map<string, MountState> {
    Loaded(AfterOps(map[], OwnOps(ops, node)), node)
  }

  /** The last call about the key, by any node. */
  function LastAbout(ops: seq<StoreOp>, key: string): Option<StoreOp>
    decreases |ops|
  {
    if ops == [] then None
    else if KeyOf(ops[|ops| - 1]) == key then Some(ops[|ops| - 1])
    else LastAbout(ops[..|ops| - 1], key)
  }

  lemma {:induction false} StoreAt(ops: seq<StoreOp>, key: string)
    ensures var store, last := AfterOps(map[], ops), LastAbout(ops, key);
            && (key in store <==> last.Some? && last.value.Save?)
            && (key in store ==> store[key] == BuildSecret(last.value.node, last.value.state))
    decreases |ops|
  {
    if ops != [] {
      StoreAt(ops[..|ops| - 1], key);
    }
  }

  lemma OwnOpsAppend(ops: seq<StoreOp>, node: string)
    requires ops != []
    ensures var front, last := OwnOps(ops[..|ops| - 1], node), ops[|ops| - 1];
            OwnOps(ops, node) == if last.node == node then front + [last] else front
  {
  }

  lemma {:induction false} LastOwn(ops: seq<StoreOp>, node: string, key: string)
    ensures var last, own := LastAbout(ops, key), LastAbout(OwnOps(ops, node), key);
            && (own.Some? ==> own.value.node == node && last.Some?)
            && (last.Some? && last.value.node == node ==> own == last)
    decreases |ops|
  {
    if ops != [] {
      var front, last := ops[..|ops| - 1], ops[|ops| - 1];
      LastOwn(front, node, key);
      OwnOpsAppend(ops, node);
      if last.node == node {
        assert (OwnOps(front, node) + [last])[..|OwnOps(front, node)|] == OwnOps(front, node);
      }
    }
  }

  /** The node's states are right at this key. */
  predicate FoundRight(ops: seq<StoreOp>, node: string, key: string) {
    var found, own := Loaded(AfterOps(map[], ops), node), Expected(ops, node);
    (key in found <==> key in own) && (key in found ==> found[key] == own[key])
  }

  /**
   * Over any interleaving of calls by any nodes, a node finds what it saved and has not deleted exactly when
   * nobody else was the last to touch the identity of a state it still counts on.
   */
  lemma FoundRightIff(ops: seq<StoreOp>, node: string, key: string)
    ensures FoundRight(ops, node, key)
            <==> (key in Expected(ops, node) ==> LastAbout(ops, key).Some? && LastAbout(ops, key).value.node == node)
  {
    StoreAt(ops, key);
    StoreAt(OwnOps(ops, node), key);
    LastOwn(ops, node, key);
  }

  /** In particular LoadState is right on every node when no two nodes ever use one (volume, target) identity. */
  lemma UnsharedIsRight(ops: seq<StoreOp>, node: string)
    requires forall i, j | 0 <= i < |ops| && 0 <= j < |ops| && KeyOf(ops[i]) == KeyOf(ops[j]) ::
               ops[i].node == ops[j].node
    ensures Loaded(AfterOps(map[], ops), node) == Expected(ops, node)
  {
    forall key ensures FoundRight(ops, node, key) {
      FoundRightIff(ops, node, key);
      LastOwn(ops, node, key);
      OwnUse(ops, node, key);
    }
    RightEverywhere(ops, node);
  }

  lemma RightEverywhere(ops: seq<StoreOp>, node: string)
    requires forall key :: FoundRight(ops, node, key)
    ensures Loaded(AfterOps(map[], ops), node) == Expected(ops, node)
  {
    var found, own := Loaded(AfterOps(map[], ops), node), Expected(ops, node);
    forall key ensures (key in found <==> key in own) && (key in found ==> found[key] == own[key]) {
      assert FoundRight(ops, node, key);
    }
  }

  lemma OwnUse(ops: seq<StoreOp>, node: string, key: string)
    requires forall i, j | 0 <= i < |ops| && 0 <= j < |ops| && KeyOf(ops[i]) == KeyOf(ops[j]) ::
               ops[i].node == ops[j].node
    ensures key in Expected(ops, node) ==> LastAbout(ops, key).Some? && LastAbout(ops, key).value.node == node
  {
    StoreAt(OwnOps(ops, node), key);
    if key in Expected(ops, node) {
      var i := LastAboutIn(ops, key);
      var j := OwnAboutIn(ops, node, key);
    }
  }

  lemma {:induction false} LastAboutIn(ops: seq<StoreOp>, key: string) returns (i: nat)
    ensures LastAbout(ops, key).Some? ==> i < |ops| && ops[i] == LastAbout(ops, key).value && KeyOf(ops[i]) == key
    ensures LastAbout(ops, key).None? ==> forall k | 0 <= k < |ops| :: KeyOf(ops[k]) != key
    decreases |ops|
  {
    i := 0;
    if ops != [] {
      i := LastAboutIn(ops[..|ops| - 1], key);
      if KeyOf(ops[|ops| - 1]) == key {
        i := |ops| - 1;
      }
    }
  }

  lemma {:induction false} OwnAboutIn(ops: seq<StoreOp>, node: string, key: string) returns (j: nat)
    requires LastAbout(OwnOps(ops, node), key).Some?
    ensures j < |ops| && KeyOf(ops[j]) == key && ops[j].node == node
    decreases |ops|
  {
    var front, last := ops[..|ops| - 1], ops[|ops| - 1];
    OwnOpsAppend(ops, node);
    if last.node == node && KeyOf(last) == key {
      j := |ops| - 1;
    } else {
      if last.node == node {
        assert (OwnOps(front, node) + [last])[..|OwnOps(front, node)|] == OwnOps(front, node);
      }
      j := OwnAboutIn(front, node, key);
    }
  }

  /** getDefaultStagingPath: nothing in it names the node. */
  function DefaultStagingPath(driver: string, volume: string): string {
    "/var/lib/kubelet/plugins/kubernetes.io/csi/" + driver + "/pv/" + volume + "/globalmount"
  }

  /** One volume staged at its default path on two nodes: the first node no longer finds its state after a restart. */
  lemma SharedStagingPathLosesState(
    driver: string, volume: string, a: string, b: string, st: MountState)
    requires a != b && st.volumeId == volume && st.targetPath == DefaultStagingPath(driver, volume)
    ensures var path := DefaultStagingPath(driver, volume);
            var ops := [Save(a, st), Save(b, st)];
            Identity(volume, path) in Expected(ops, a) && Loaded(AfterOps(map[], ops), a) == map[]
  {
    var path := DefaultStagingPath(driver, volume);
    var ops, key := [Save(a, st), Save(b, st)], Identity(volume, path);
    assert ops[..1] == [Save(a, st)] && ops[..1][..0] == [];
    assert OwnOps(ops[..1][..0], a) == [];
    assert OwnOps(ops[..1], a) == [Save(a, st)];
    assert OwnOps(ops, a) == [Save(a, st)] + [];
    StoreAt(OwnOps(ops, a), key);
    assert LastAbout([Save(a, st)], key) == Some(Save(a, st));
    assert AfterOps(map[], ops[..1][..0]) == map[];
    assert AfterOps(map[], ops[..1]) == map[key := BuildSecret(a, st)];
    assert AfterOps(map[], ops) == map[key := BuildSecret(b, st)];
  }

  // ---------------------------------------------------------------- the state manager

  /** The Secrets API of the driver's namespace, shared by all nodes. */
  class SecretsApi {
    var secrets: Store

    constructor ()
      ensures secrets == map[]
    {
      secrets := map[];
    }
  }

  datatype SaveReply = Saved | InvalidState | ApiFailed

  class MountStateManager {
    const node: string
    const api: SecretsApi

    constructor (node: string, api: SecretsApi)
      ensures this.node == node && this.api == api
    {
      this.node, this.api := node, api;
    }

    /** SaveState: create, and on a name already taken get and update; any of the three calls may fail. */
    method SaveState(state: MountState, createOk: bool, getOk: bool, updateOk: bool) returns (r: SaveReply)
      modifies api
      ensures r.InvalidState? <==> state.volumeId == "" || state.targetPath == ""
      ensures r.Saved? <==>
                && !r.InvalidState?
                && if Identity(state.volumeId, state.targetPath) in old(api.secrets)
                   then getOk && updateOk
                   else createOk
      ensures api.secrets == if r.Saved? then AfterOp(old(api.secrets), Save(node, state)) else old(api.secrets)
    {
      if state.volumeId == "" || state.targetPath == "" {
        return InvalidState;
      }
      var name, secret := Identity(state.volumeId, state.targetPath), BuildSecret(node, state);
      if name !in api.secrets {
        if !createOk {
          return ApiFailed;
        }
        api.secrets := api.secrets[name := secret];
        return Saved;
      }
      if !getOk || !updateOk {
        return ApiFailed;
      }
      api.secrets := api.secrets[name := secret];
      return Saved;
    }

    /** DeleteState: a secret that is not there is as good as deleted. */
    method DeleteState(volume: string, target: string, deleteOk: bool) returns (ok: bool)
      modifies api
      ensures ok <==> volume != "" && (Identity(volume, target) in old(api.secrets) ==> deleteOk)
      ensures api.secrets == if ok then AfterOp(old(api.secrets), Delete(node, volume, target)) else old(api.secrets)
    {
      if volume == "" {
        return false;
      }
      var name := Identity(volume, target);
      if name in api.secrets && !deleteOk {
        return false;
      }
      api.secrets := api.secrets - {name};
      return true;
    }

    /** LoadState: the listed secrets in some order, each once, or an error if the list call fails. */
    method LoadState(listOk: bool) returns (r: Option<seq<MountState>>)
      ensures r.Some? <==> listOk
      ensures r.Some? ==>
                && |r.value| == |Loaded(api.secrets, node)|
                && forall st :: st in r.value <==>
                     exists k :: k in Loaded(api.secrets, node) && Loaded(api.secrets, node)[k] == st
    {
      if !listOk {
        return None;
      }
      var states: seq<MountState> := [];
      var labelled := Loaded(api.secrets, node);
      var todo := labelled.Keys;
      while todo != {}
        invariant todo <= labelled.Keys && |states| + |todo| == |labelled|
        invariant forall st :: st in states <==> exists k :: k in labelled && k !in todo && labelled[k] == st
        decreases |todo|
      {
        var k :| k in todo;
        todo := todo - {k};
        states := states + [labelled[k]];
      }
      return Some(states);
    }
  }
}
