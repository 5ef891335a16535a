/** Publish, stage and remount: from raw parameters to the mount call, and again from the stored state. */
module Remount {
  import opened Text
  import opened ConfigIsolation
  import opened ConfigText
  import opened IsolatedText
  import opened MountStore
  import RemoteRewrite

  /** What reaches the loaded config and the mount function. */
  datatype MountCall = MountCall(loaded: Config, fsPath: string, path: string, options: seq<string>, params: Params)

  datatype Published = Published(call: MountCall, state: MountState)

  /** The hex digest of a volume id. */
  type Hash = string -> string

  ghost predicate GoodHash(hash: Hash) {
    forall v :: |hash(v)| >= HASH_LENGTH
  }

  // ---------------------------------------------------------------- the steps the three have in common

  /** generateConfigData; `generated` is what the backend parameters give, empty if there are none. */
  function WithConfig(pvp: PublishParams, generated: string): PublishParams {
    if pvp.configData == "" && pvp.remoteType != "" then pvp.(configData := generated) else pvp
  }

  /** prepareIsolatedConfig: config and remote name are overwritten. */
  ghost function WithIsolation(pvp: PublishParams, digest: string): Option<PublishParams>
    requires |digest| >= HASH_LENGTH
  {
    var all, prefix := ParseAllConfigRemotes(pvp.configData), RemotePrefixForVolume(digest, pvp.remotePrefix);
    if all.None? || pvp.remoteName !in all.value then None
    else Some(pvp.(configData := Serialized(IsolatedConfig(all.value, prefix + "-")),
                   remoteName := PrefixedRemote(pvp, digest)))
  }

  /** buildFsPath */
  function FsPath(remote: string, path: string): string {
    if path != "" then remote + ":" + path else remote + ":"
  }

  function PrefixedRemote(pvp: PublishParams, digest: string): string
    requires |digest| >= HASH_LENGTH
  {
    RemotePrefixForVolume(digest, pvp.remotePrefix) + "-" + pvp.remoteName
  }

  /** The call for a loaded config: remote and path of the isolated parameters, everything else as given. */
  function CallFor(loaded: Config, pvp: PublishParams, digest: string, path: string, options: seq<string>): MountCall
    requires |digest| >= HASH_LENGTH
  {
    MountCall(loaded, FsPath(PrefixedRemote(pvp, digest), pvp.remotePath), path, options, pvp.params)
  }

  /** The state that keeps config and remote name from before the isolation. */
  function StateFor(
    pvp: PublishParams, volume: string, staging: string, target: string, options: seq<string>, readOnly: bool)
    : MountState
  {
    MountState(volume, staging, target, pvp.configData, pvp.remoteName, pvp.remotePath, pvp.remoteType,
               MountParamsForState(pvp), options, readOnly)
  }

  /** Prefixes that MakeConfigName leaves alone and section names without a colon; others rclone does not accept. */
  ghost predicate Plain(pvp: PublishParams, digest: string)
    requires |digest| >= HASH_LENGTH
  {
    GoodPrefix(RemotePrefixForVolume(digest, pvp.remotePrefix))
    && match ParseAllConfigRemotes(pvp.configData)
       case Some(all) => RemoteRewrite.AllFree(all.Keys, ':')
       case None => true
  }

  method PrepareIsolatedConfig(pvp: PublishParams, digest: string) returns (r: Option<PublishParams>)
    requires |digest| >= HASH_LENGTH
    ensures Plain(pvp, digest) ==> r == WithIsolation(pvp, digest)
    ensures r.Some? ==> r.value == pvp.(configData := r.value.configData, remoteName := PrefixedRemote(pvp, digest))
  {
    var isolation := IsolateConfigData(pvp.configData, pvp.remoteName, RemotePrefixForVolume(digest, pvp.remotePrefix));
    match isolation {
      case IsolatedData(config, remote) => r := Some(pvp.(configData := config, remoteName := remote));
      case _ => r := None;
    }
  }

  // ---------------------------------------------------------------- publish

  function OptionsOf(flags: Option<seq<string>>, readOnly: bool): seq<string> {
    if flags.None? then [] else if readOnly then flags.value + ["read-only"] else flags.value
  }

  /** nodePublishVolumeDirect, from the extracted parameters on; `flags` are the mount flags of a mount capability. */
  ghost function PublishOf(
    pvp: PublishParams, generated: string, volume: string, hash: Hash, target: string,
    flags: Option<seq<string>>, readOnly: bool): Option<Published>
    requires GoodHash(hash)
  {
    var options := OptionsOf(flags, readOnly);
    var logical := WithConfig(pvp, generated);
    if volume == "" || target == "" || logical.configData == "" then None
    else
      match WithIsolation(logical, hash(volume))
      case None => None
      case Some(isolated) =>
        match ParseAllConfigRemotes(isolated.configData)
        case None => None
        case Some(loaded) =>
          Some(Published(CallFor(loaded, logical, hash(volume), target, options),
                         StateFor(logical, volume, "", target, options, readOnly)))
  }

  method PublishDirect(
    raw: Params, generated: string, volume: string, hash: Hash, target: string,
    flags: Option<seq<string>>, readOnly: bool)
    returns (r: Option<Published>, e: Option<Extraction>)
    requires GoodHash(hash)
    ensures e.None? <==> volume == "" || target == ""
    ensures e.Some? ==> ExtractionOf(raw, e.value)
    ensures e.None? || !e.value.Extracted? ==> r.None?
    ensures e.Some? && e.value.Extracted? && Plain(WithConfig(e.value.pvp, generated), hash(volume)) ==>
              r == PublishOf(e.value.pvp, generated, volume, hash, target, flags, readOnly)
    ensures r.Some? ==>
              var logical, options := WithConfig(e.value.pvp, generated), OptionsOf(flags, readOnly);
              && logical.configData != ""
              && r.value.call == CallFor(r.value.call.loaded, logical, hash(volume), target, options)
              && r.value.state == StateFor(logical, volume, "", target, options, readOnly)
  {
    if volume == "" || target == "" {
      return None, None;
    }
    var options: seq<string> := [];
    if flags.Some? {
      options := flags.value;
      if readOnly {
        options := options + ["read-only"];
      }
    }
    var extraction := ExtractPublishParams(raw);
    e := Some(extraction);
    if !extraction.Extracted? {
      return None, e;
    }
    var p := WithConfig(extraction.pvp, generated);
    if p.configData == "" {
      return None, e;
    }
    var originalConfigData, originalRemoteName := p.configData, p.remoteName;
    var isolated := PrepareIsolatedConfig(p, hash(volume));
    if isolated.None? {
      return None, e;
    }
    p := isolated.value;
    var loaded := ParseAllConfigRemotes(p.configData);
    if loaded.None? {
      return None, e;
    }
    var call := MountCall(loaded.value, FsPath(p.remoteName, p.remotePath), target, options, p.params);
    var state := MountState(volume, "", target, originalConfigData, originalRemoteName, p.remotePath, p.remoteType,
                            MountParamsForState(p), options, readOnly);
    return Some(Published(call, state)), e;
  }

  /** stageVolume, from the extracted parameters on. */
  ghost function StageOf(
    pvp: PublishParams, generated: string, volume: string, hash: Hash, staging: string, flags: Option<seq<string>>)
    : Option<Published>
    requires GoodHash(hash)
  {
    var options := if flags.None? then [] else flags.value;
    var logical := WithConfig(pvp, generated);
    if volume == "" || staging == "" || logical.configData == "" then None
    else
      match WithIsolation(logical, hash(volume))
      case None => None
      case Some(isolated) =>
        match ParseAllConfigRemotes(isolated.configData)
        case None => None
        case Some(loaded) =>
          Some(Published(CallFor(loaded, logical, hash(volume), staging, options),
                         StateFor(logical, volume, staging, staging, options, false)))
  }

  // ---------------------------------------------------------------- remount

  /** The parameters RemountState rebuilds: a saved prefix is taken out of the mount parameters. */
  function Rebuilt(st: MountState): PublishParams {
    var prefix := if REMOTE_PREFIX in st.mountParams then st.mountParams[REMOTE_PREFIX] else "";
    var params := if REMOTE_PREFIX in st.mountParams then st.mountParams - {REMOTE_PREFIX} else st.mountParams;
    PublishParams(st.remoteName, st.remotePath, st.configData, st.remoteType, prefix, params)
  }

  /** RemountState from the loaded state to the mount call. */
  ghost function RemountOf(st: MountState, hash: Hash): Option<MountCall>
    requires GoodHash(hash)
  {
    if st.volumeId == "" || st.targetPath == "" then None
    else
      match WithIsolation(Rebuilt(st), hash(st.volumeId))
      case None => None
      case Some(isolated) =>
        match ParseAllConfigRemotes(isolated.configData)
        case None => None
        case Some(loaded) =>
          Some(CallFor(loaded, Rebuilt(st), hash(st.volumeId), RemountPath(st), st.mountOptions))
  }

  method RemountState(st: MountState, hash: Hash) returns (r: Option<MountCall>)
    requires GoodHash(hash)
    ensures Plain(Rebuilt(st), hash(st.volumeId)) ==> r == RemountOf(st, hash)
    ensures st.volumeId == "" || st.targetPath == "" ==> r.None?
    ensures r.Some? ==>
              r.value == CallFor(r.value.loaded, Rebuilt(st), hash(st.volumeId), RemountPath(st), st.mountOptions)
  {
    if st.volumeId == "" || st.targetPath == "" {
      return None;
    }
    var mountPath := st.stagingPath;
    if mountPath == "" {
      mountPath := st.targetPath;
    }
    var mountParams, remotePrefix := st.mountParams, "";
    if REMOTE_PREFIX in mountParams {
      remotePrefix := mountParams[REMOTE_PREFIX];
      mountParams := mountParams - {REMOTE_PREFIX};
    }
    var p := PublishParams(st.remoteName, st.remotePath, st.configData, st.remoteType, remotePrefix, mountParams);
    var isolated := PrepareIsolatedConfig(p, hash(st.volumeId));
    if isolated.None? {
      return None;
    }
    p := isolated.value;
    var loaded := ParseAllConfigRemotes(p.configData);
    if loaded.None? {
      return None;
    }
    return Some(MountCall(loaded.value, FsPath(p.remoteName, p.remotePath), mountPath, st.mountOptions, p.params));
  }

  // ---------------------------------------------------------------- which filesystem is mounted, and how

  /** The remote and the path of a filesystem name: what stands before and after its first colon. */
  predicate Names(fsPath: string, remote: string, path: string) {
    var i := IndexOf(fsPath, ':');
    i < |fsPath| && fsPath[..i] == remote && fsPath[i + 1..] == path
  }

  lemma FsPathNames(remote: string, path: string)
    requires Free(remote, ':')
    ensures Names(FsPath(remote, path), remote, path)
  {
    IndexOfSplit(remote, path, ':');
    assert FsPath(remote, path) == remote + [':'] + path;
  }

  /** The mount flags in their order, and then "read-only" if that was asked for. */
  predicate Options(options: seq<string>, flags: seq<string>, readOnly: bool) {
    && |flags| <= |options| && options[..|flags|] == flags
    && options[|flags|..] == if readOnly then ["read-only"] else []
  }

  /** The volume's section name for the remote the parameters ask for. */
  function SectionFor(raw: Params, digest: string): string
    requires |digest| >= 16
  {
    (if Get(raw, "remotePrefix") != "" then Get(raw, "remotePrefix") else "csi" + digest[..16])
    + "-" + Get(raw, "remote")
  }

  lemma AskedSection(raw: Params, pvp: PublishParams, generated: string, digest: string)
    requires Extracts(raw, pvp) && |digest| >= HASH_LENGTH
    ensures PrefixedRemote(WithConfig(pvp, generated), digest) == SectionFor(raw, digest)
    ensures WithConfig(pvp, generated).remotePath == Get(raw, "remotePath")
    ensures WithConfig(pvp, generated).configData
         == if Get(raw, "configData") != "" then Get(raw, "configData") else generated
    ensures WithConfig(pvp, generated).params == pvp.params
    ensures WithConfig(pvp, generated).remoteType == Get(raw, "remoteType")
  {
  }

  /**
   * A publish mounts the remote and the path that its raw parameters name, at its target, with its flags, and saves
   * what a remount needs: the config and the names from before the isolation.
   */
  lemma MountsWhatWasAsked(
    raw: Params, pvp: PublishParams, generated: string, volume: string, hash: Hash, target: string,
    flags: Option<seq<string>>, readOnly: bool)
    requires GoodHash(hash) && Extracts(raw, pvp) && Free(SectionFor(raw, hash(volume)), ':')
    ensures var published := PublishOf(pvp, generated, volume, hash, target, flags, readOnly);
            published.Some? ==>
              var call, st := published.value.call, published.value.state;
              && Names(call.fsPath, SectionFor(raw, hash(volume)), Get(raw, "remotePath"))
              && call.path == target && call.params == pvp.params
              && (if flags.Some? then Options(call.options, flags.value, readOnly) else call.options == [])
              && st.volumeId == volume && st.targetPath == target && st.stagingPath == ""
              && st.configData == (if Get(raw, "configData") != "" then Get(raw, "configData") else generated)
              && st.remoteName == Get(raw, "remote") && st.remotePath == Get(raw, "remotePath")
              && st.remoteType == Get(raw, "remoteType")
              && st.mountOptions == call.options && st.readOnly == readOnly
  {
    AskedSection(raw, pvp, generated, hash(volume));
    FsPathNames(SectionFor(raw, hash(volume)), Get(raw, "remotePath"));
  }

  /** The same for a stage; a staged mount is never read-only. */
  lemma StagesWhatWasAsked(
    raw: Params, pvp: PublishParams, generated: string, volume: string, hash: Hash, staging: string,
    flags: Option<seq<string>>)
    requires GoodHash(hash) && Extracts(raw, pvp) && Free(SectionFor(raw, hash(volume)), ':')
    ensures var staged := StageOf(pvp, generated, volume, hash, staging, flags);
            staged.Some? ==>
              var call, st := staged.value.call, staged.value.state;
              && Names(call.fsPath, SectionFor(raw, hash(volume)), Get(raw, "remotePath"))
              && call.path == staging && call.params == pvp.params
              && (if flags.Some? then Options(call.options, flags.value, false) else call.options == [])
              && st.volumeId == volume && st.targetPath == staging && st.stagingPath == staging
              && st.configData == (if Get(raw, "configData") != "" then Get(raw, "configData") else generated)
              && st.remoteName == Get(raw, "remote") && st.remotePath == Get(raw, "remotePath")
              && st.remoteType == Get(raw, "remoteType")
              && st.mountOptions == call.options && !st.readOnly
  {
    AskedSection(raw, pvp, generated, hash(volume));
    FsPathNames(SectionFor(raw, hash(volume)), Get(raw, "remotePath"));
  }

  /** A remount mounts the remote and the path of the saved state, at its staging path or else its target. */
  lemma RemountsWhatWasSaved(st: MountState, hash: Hash)
    requires GoodHash(hash) && Free(PrefixedRemote(Rebuilt(st), hash(st.volumeId)), ':')
    ensures RemountOf(st, hash).Some? ==>
              var call := RemountOf(st, hash).value;
              && Names(call.fsPath, PrefixedRemote(Rebuilt(st), hash(st.volumeId)), st.remotePath)
              && HasSuffix(PrefixedRemote(Rebuilt(st), hash(st.volumeId)), "-" + st.remoteName)
              && call.path == (if st.stagingPath != "" then st.stagingPath else st.targetPath)
              && call.options == st.mountOptions
  {
    var digest := hash(st.volumeId);
    FsPathNames(PrefixedRemote(Rebuilt(st), digest), st.remotePath);
    var head, tail := RemotePrefixForVolume(digest, Rebuilt(st).remotePrefix), "-" + st.remoteName;
    assert head + "-" + st.remoteName == head + tail && (head + tail)[|head|..] == tail;
  }

  /** Different remote paths never give the same mount call. */
  lemma PathsTold(
    a: PublishParams, b: PublishParams, generated: string, volume: string, hash: Hash, target: string,
    flags: Option<seq<string>>, readOnly: bool)
    requires GoodHash(hash) && a.(remotePath := b.remotePath) == b
    requires Free(PrefixedRemote(WithConfig(a, generated), hash(volume)), ':')
    ensures var p, q := PublishOf(a, generated, volume, hash, target, flags, readOnly),
                        PublishOf(b, generated, volume, hash, target, flags, readOnly);
            p.Some? && q.Some? ==> (p.value.call == q.value.call <==> a.remotePath == b.remotePath)
  {
    var remote := PrefixedRemote(WithConfig(a, generated), hash(volume));
    FsPathNames(remote, a.remotePath);
    FsPathNames(remote, b.remotePath);
  }

  /** The parameters name a config and one of its remotes. */
  predicate NamesItsRemote(pvp: PublishParams) {
    ParseAllConfigRemotes(pvp.configData).Some? && pvp.remoteName in ParseAllConfigRemotes(pvp.configData).value
  }

  /** Isolation succeeds on just these, and what it writes is read back as the isolated config. */
  lemma IsolationLoads(pvp: PublishParams, digest: string)
    requires |digest| >= HASH_LENGTH && Plain(pvp, digest)
    ensures WithIsolation(pvp, digest).Some? <==> NamesItsRemote(pvp)
    ensures NamesItsRemote(pvp) ==>
              && pvp.configData != "" && Free(PrefixedRemote(pvp, digest), ':')
              && ParseAllConfigRemotes(WithIsolation(pvp, digest).value.configData)
                 == Some(IsolatedConfig(ParseAllConfigRemotes(pvp.configData).value,
                                        RemotePrefixForVolume(digest, pvp.remotePrefix) + "-"))
  {
    if NamesItsRemote(pvp) {
      var all := ParseAllConfigRemotes(pvp.configData).value;
      var prefix := RemotePrefixForVolume(digest, pvp.remotePrefix);
      ParseSerializeParse(pvp.configData);
      IsolatedWellFormed(all, prefix);
      ParseSerialized(IsolatedConfig(all, prefix + "-"));
      RemoteFree(prefix, pvp.remoteName);
      if pvp.configData == "" {
        NothingParsed();
      }
    }
  }

  lemma NothingParsed()
    ensures ParseAllConfigRemotes("") == Some(map[])
  {
    assert ParseLine("", Reading(DEFAULT_SECTION, map[])) == Reading(DEFAULT_SECTION, map[]);
  }

  /** What a mount loads: the isolated form of its config, with the remote it mounts among the sections. */
  ghost predicate LoadsIsolated(call: MountCall, pvp: PublishParams, digest: string)
    requires |digest| >= HASH_LENGTH && NamesItsRemote(pvp)
  {
    && call.loaded == IsolatedConfig(ParseAllConfigRemotes(pvp.configData).value,
                                     RemotePrefixForVolume(digest, pvp.remotePrefix) + "-")
    && call.fsPath[..IndexOf(call.fsPath, ':')] in call.loaded
  }

  lemma CallLoads(call: MountCall, pvp: PublishParams, digest: string, path: string, options: seq<string>)
    requires |digest| >= HASH_LENGTH && Plain(pvp, digest) && NamesItsRemote(pvp)
    requires Some(call.loaded) == ParseAllConfigRemotes(WithIsolation(pvp, digest).value.configData)
    requires call == CallFor(call.loaded, pvp, digest, path, options)
    ensures LoadsIsolated(call, pvp, digest)
  {
    IsolationLoads(pvp, digest);
    FsPathNames(PrefixedRemote(pvp, digest), pvp.remotePath);
  }

  /** A publish mounts exactly if it is asked for a remote of its config, and then that remote is loaded for it. */
  lemma PublishesIff(
    pvp: PublishParams, generated: string, volume: string, hash: Hash, target: string,
    flags: Option<seq<string>>, readOnly: bool)
    requires GoodHash(hash) && Plain(WithConfig(pvp, generated), hash(volume))
    ensures var logical, published := WithConfig(pvp, generated),
                                      PublishOf(pvp, generated, volume, hash, target, flags, readOnly);
            && (published.Some? <==> volume != "" && target != "" && NamesItsRemote(logical))
            && (published.Some? ==> LoadsIsolated(published.value.call, logical, hash(volume)))
  {
    var logical := WithConfig(pvp, generated);
    IsolationLoads(logical, hash(volume));
    var published := PublishOf(pvp, generated, volume, hash, target, flags, readOnly);
    if published.Some? {
      CallLoads(published.value.call, logical, hash(volume), target, OptionsOf(flags, readOnly));
    }
  }

  lemma StagesIff(
    pvp: PublishParams, generated: string, volume: string, hash: Hash, staging: string, flags: Option<seq<string>>)
    requires GoodHash(hash) && Plain(WithConfig(pvp, generated), hash(volume))
    ensures var logical, staged := WithConfig(pvp, generated),
                                   StageOf(pvp, generated, volume, hash, staging, flags);
            && (staged.Some? <==> volume != "" && staging != "" && NamesItsRemote(logical))
            && (staged.Some? ==> LoadsIsolated(staged.value.call, logical, hash(volume)))
  {
    var logical := WithConfig(pvp, generated);
    IsolationLoads(logical, hash(volume));
    var staged := StageOf(pvp, generated, volume, hash, staging, flags);
    if staged.Some? {
      CallLoads(staged.value.call, logical, hash(volume), staging, staged.value.call.options);
    }
  }

  lemma RemountsIff(st: MountState, hash: Hash)
    requires GoodHash(hash) && Plain(Rebuilt(st), hash(st.volumeId))
    ensures var call := RemountOf(st, hash);
            && (call.Some? <==> st.volumeId != "" && st.targetPath != "" && NamesItsRemote(Rebuilt(st)))
            && (call.Some? ==> LoadsIsolated(call.value, Rebuilt(st), hash(st.volumeId)))
  {
    IsolationLoads(Rebuilt(st), hash(st.volumeId));
    var call := RemountOf(st, hash);
    if call.Some? {
      CallLoads(call.value, Rebuilt(st), hash(st.volumeId), RemountPath(st), st.mountOptions);
    }
  }

  lemma RemoteFree(prefix: string, name: string)
    requires Free(prefix, ':') && Free(name, ':')
    ensures Free(prefix + "-" + name, ':')
  {
  }

  // ---------------------------------------------------------------- remounting recomputes the mount

  /** The parameters survive saving and restoring exactly when none of them has the name reserved for the prefix. */
  lemma RestoredIff(st: MountState, pvp: PublishParams)
    requires SavedFrom(st, pvp)
    ensures Rebuilt(st) == pvp <==> REMOTE_PREFIX !in pvp.params
  {
    if REMOTE_PREFIX !in pvp.params {
      assert pvp.params[REMOTE_PREFIX := pvp.remotePrefix] - {REMOTE_PREFIX} == pvp.params;
    } else {
      assert REMOTE_PREFIX !in Rebuilt(st).params;
    }
  }

  /** The state holds these parameters. */
  predicate SavedFrom(st: MountState, pvp: PublishParams) {
    && st.remoteName == pvp.remoteName && st.remotePath == pvp.remotePath && st.configData == pvp.configData
    && st.remoteType == pvp.remoteType && st.mountParams == MountParamsForState(pvp)
  }

  /** A remount from a state that holds these parameters. */
  lemma RemountedParts(
    st: MountState, logical: PublishParams, isolated: PublishParams, loaded: Config, hash: Hash, path: string)
    requires GoodHash(hash) && SavedFrom(st, logical) && REMOTE_PREFIX !in logical.params
    requires st.volumeId != "" && st.targetPath == path && path != ""
    requires st.stagingPath == "" || st.stagingPath == path
    requires WithIsolation(logical, hash(st.volumeId)) == Some(isolated)
    requires ParseAllConfigRemotes(isolated.configData) == Some(loaded)
    ensures Rebuilt(st) == logical
    ensures RemountOf(st, hash) == Some(CallFor(loaded, logical, hash(st.volumeId), path, st.mountOptions))
  {
    RestoredIff(st, logical);
  }

  /**
   * Whatever was published from whatever raw parameters: remounting from the stored secret loads the same config and
   * mounts the same filesystem at the same path with the same options and parameters, a custom prefix included.
   */
  lemma RemountRecomputes(
    node: string, raw: Params, pvp: PublishParams, generated: string, volume: string, hash: Hash, target: string,
    flags: Option<seq<string>>, readOnly: bool)
    requires GoodHash(hash) && Extracts(raw, pvp)
    ensures var published := PublishOf(pvp, generated, volume, hash, target, flags, readOnly);
            published.Some? ==>
              var st := DeserializeSecret(BuildSecret(node, published.value.state));
              Rebuilt(st) == WithConfig(pvp, generated) && RemountOf(st, hash) == Some(published.value.call)
  {
    var published := PublishOf(pvp, generated, volume, hash, target, flags, readOnly);
    if published.Some? {
      var logical := WithConfig(pvp, generated);
      var isolated := WithIsolation(logical, hash(volume)).value;
      NoPrefixAmongParams(raw, pvp.params);
      SecretRoundTrip(node, published.value.state);
      RemountedParts(DeserializeSecret(BuildSecret(node, published.value.state)), logical, isolated,
                     ParseAllConfigRemotes(isolated.configData).value, hash, target);
    }
  }

  /** The same for a staged volume. */
  lemma StageRemountRecomputes(
    node: string, raw: Params, pvp: PublishParams, generated: string, volume: string, hash: Hash, staging: string,
    flags: Option<seq<string>>)
    requires GoodHash(hash) && Extracts(raw, pvp)
    ensures var staged := StageOf(pvp, generated, volume, hash, staging, flags);
            staged.Some? ==>
              RemountOf(DeserializeSecret(BuildSecret(node, staged.value.state)), hash) == Some(staged.value.call)
  {
    var staged := StageOf(pvp, generated, volume, hash, staging, flags);
    if staged.Some? {
      var logical := WithConfig(pvp, generated);
      var isolated := WithIsolation(logical, hash(volume)).value;
      NoPrefixAmongParams(raw, pvp.params);
      SecretRoundTrip(node, staged.value.state);
      RemountedParts(DeserializeSecret(BuildSecret(node, staged.value.state)), logical, isolated,
                     ParseAllConfigRemotes(isolated.configData).value, hash, staging);
    }
  }

  ghost function CallOf(p: Option<Published>): Option<MountCall> {
    if p.Some? then Some(p.value.call) else None
  }

  /** Publish, lose the process, load the secret, remount: the second mount call is the first. */
  method PublishThenRestart(
    node: string, raw: Params, generated: string, volume: string, hash: Hash, target: string,
    flags: Option<seq<string>>, readOnly: bool)
    returns (first: Option<MountCall>, second: Option<MountCall>, e: Option<Extraction>)
    requires GoodHash(hash)
    ensures e.None? <==> volume == "" || target == ""
    ensures e.Some? ==> ExtractionOf(raw, e.value)
    ensures e.Some? && e.value.Extracted? && Plain(WithConfig(e.value.pvp, generated), hash(volume)) ==>
              && first == CallOf(PublishOf(e.value.pvp, generated, volume, hash, target, flags, readOnly))
              && second == first
    ensures first.Some? && second.Some? ==> second.value == first.value.(loaded := second.value.loaded)
  {
    first, second := None, None;
    var published;
    published, e := PublishDirect(raw, generated, volume, hash, target, flags, readOnly);
    if published.Some? {
      first := Some(published.value.call);
      var st := DeserializeSecret(BuildSecret(node, published.value.state));
      second := RemountState(st, hash);
      SecretRoundTrip(node, published.value.state);
      NoPrefixAmongParams(raw, e.value.pvp.params);
      RestoredIff(st, WithConfig(e.value.pvp, generated));
      if Plain(WithConfig(e.value.pvp, generated), hash(volume)) {
        RemountRecomputes(node, raw, e.value.pvp, generated, volume, hash, target, flags, readOnly);
      }
    }
  }
}
