/** Staging mode: when each operation succeeds, and exactly what it leaves in the maps, the sections and the states. */
module StagingEffects {
  import opened Paths
  import opened Staging

  // ---------------------------------------------------------------- mounting

  /** The target is ready for a mount: nothing was there, or something unhealthy was cleaned away. */
  predicate Ready(a: StageAnswers) {
    a.prepare.TargetFresh? || (a.prepare.TargetHealthy? && !a.healthySecond && a.detach.Detached?)
  }

  /** The config was loaded and the mount is up. */
  predicate Mounts(m: MountAnswers) {
    m.load.Loaded? && m.mountOk
  }

  /**
   * A new mount leaves its context at its path, its sections loaded, its volume cached if it is a staged one, and its
   * state saved exactly if that worked; nothing else changes.
   */
  lemma MountedEffects(w: View, v: string, p: string, m: MountAnswers, cache: bool, mc: MountContext?)
    ensures var o := Mounting(w, v, p, m, cache, mc);
            && (o.reply == Done <==> m.load.Loaded? && m.mountOk) && o.reply != StagedElsewhere
            && (o.reply == Done ==>
                  && p in o.view.contexts && o.view.contexts[p] == mc
                  && (forall q | q != p :: q in o.view.contexts <==> q in w.contexts)
                  && (forall q | q != p && q in w.contexts :: o.view.contexts[q] == w.contexts[q])
                  && o.view.sections == w.sections + m.load.names
                  && o.view.staged == (if cache then w.staged[v := Staged(p, mc, false)] else w.staged)
                  && (forall k :: k in o.view.saved <==> k in w.saved || (m.saveOk && k == (v, p))))
            && (o.reply != Done ==>
                  && o.view.contexts == w.contexts && o.view.staged == w.staged && o.view.saved == w.saved
                  && (m.load.NoConfig? ==> o.view.sections == w.sections)
                  && (m.load.LoadFails? ==> o.view.sections == w.sections + m.load.part)
                  && (m.load.Loaded? ==> o.view.sections == w.sections - m.load.names))
  {
  }

  // ---------------------------------------------------------------- stageVolume

  /** The volume is cached at this path and healthy. */
  predicate Already(w: View, v: string, p: string, a: StageAnswers) {
    v in w.staged && w.staged[v].path == p && a.healthyFirst
  }

  /** The request gets past the cache: not cached, or cached here, unhealthy and cleaned up. */
  predicate PastCache(w: View, v: string, p: string, a: StageAnswers) {
    v in w.staged ==> w.staged[v].path == p && !a.healthyFirst && a.cleanupOk
  }

  predicate Finds(w: View, v: string, p: string, a: StageAnswers) {
    PastCache(w, v, p, a) && a.prepare.TargetHealthy? && a.healthySecond
  }

  predicate StageMounts(w: View, v: string, p: string, a: StageAnswers) {
    PastCache(w, v, p, a) && Ready(a) && Mounts(a.mounting)
  }

  /** stageVolume succeeds in three ways, refuses another path of a cached volume, and fails otherwise. */
  lemma StageIff(w: View, v: string, p: string, a: StageAnswers, mc: MountContext?)
    ensures var o := Stage(w, v, p, a, mc);
            && (o.reply == Done <==> Already(w, v, p, a) || Finds(w, v, p, a) || StageMounts(w, v, p, a))
            && (o.reply == StagedElsewhere <==> v in w.staged && w.staged[v].path != p)
  {
  }

  /** The sections that go with an unhealthy entry of the volume. */
  ghost function Forgotten(w: View, v: string, p: string): set<string> {
    if v in w.staged && CtxAt(w, p) != null then CtxAt(w, p).remotes else {}
  }

  /** A new staging mount: stored, cached, loaded, and saved exactly if that worked. */
  lemma StageMountsEffects(w: View, v: string, p: string, a: StageAnswers, mc: MountContext?)
    requires StageMounts(w, v, p, a)
    ensures var t := Stage(w, v, p, a, mc).view;
            && p in t.contexts && t.contexts[p] == mc && (forall q | q != p :: CtxAt(t, q) == CtxAt(w, q))
            && t.staged == w.staged[v := Staged(p, mc, false)]
            && t.sections == w.sections - Forgotten(w, v, p) + a.mounting.load.names
            && (forall k :: k in t.saved <==> k in w.saved || (a.mounting.saveOk && k == (v, p)))
  {
    var n := if v in w.staged then ContextDropped(Unstaged(w, v), p) else w;
    var n' := if a.prepare.TargetHealthy? then n.(contexts := n.contexts - {p}) else n;
    assert Stage(w, v, p, a, mc) == StageFrom(n, v, p, a, mc) == Mounting(n', v, p, a.mounting, true, mc);
    MountedEffects(n', v, p, a.mounting, true, mc);
    assert v in w.staged ==> (w.staged - {v})[v := Staged(p, mc, false)] == w.staged[v := Staged(p, mc, false)];
  }

  /** Taking over a mount that is already up: cached with the context stored for it, nothing loaded or saved. */
  lemma FindsEffects(w: View, v: string, p: string, a: StageAnswers, mc: MountContext?)
    requires Finds(w, v, p, a)
    ensures var t := Stage(w, v, p, a, mc).view;
            && v in t.staged && t.staged[v] == Staged(p, CtxAt(t, p), false)
            && (forall u | u != v :: u in t.staged <==> u in w.staged)
            && (forall q | q != p || v !in w.staged :: CtxAt(t, q) == CtxAt(w, q))
            && t.sections == w.sections - Forgotten(w, v, p) && t.saved == w.saved
  {
  }

  /** Without a new mount no state is saved and none is lost; a refusal forgets at most this volume's own entry. */
  lemma NoMountEffects(w: View, v: string, p: string, a: StageAnswers, mc: MountContext?)
    requires !StageMounts(w, v, p, a)
    ensures var o := Stage(w, v, p, a, mc);
            && o.view.saved == w.saved
            && (Already(w, v, p, a) || o.reply == StagedElsewhere ==> o.view == w)
            && (forall q | q != p :: CtxAt(o.view, q) == CtxAt(w, q))
            && (o.reply == Refused ==> o.view.staged == w.staged - {v})
  {
    assert v !in w.staged ==> w.staged - {v} == w.staged;
  }

  // ---------------------------------------------------------------- NodeUnstageVolume

  /** The context an unstage unmounts: the one stored for the path, or else the one the cache entry points to. */
  ghost function UnstagedCtx(w: View, v: string, p: string): MountContext? {
    if CtxAt(w, p) != null then CtxAt(w, p) else if v in w.staged then w.staged[v].ctx else null
  }

  /**
   * An unstage: refused without any change if the volume is cached elsewhere and the path has no context; otherwise
   * the sections of its context go, and if the unmount works entry and context go and the state if it can be deleted.
   */
  lemma UnstageEffects(w: View, v: string, p: string, a: UnstageAnswers)
    ensures var o, elsewhere := Unstage(w, v, p, a), CtxAt(w, p) == null && v in w.staged && w.staged[v].path != p;
            && (o.reply == StagedElsewhere <==> elsewhere) && (o.reply == Done <==> !elsewhere && a.unmountOk)
            && (elsewhere ==> o.view == w)
            && (!elsewhere ==>
                  var mc := UnstagedCtx(w, v, p);
                  && (forall x :: x in o.view.sections <==> x in w.sections && (mc == null || x !in mc.remotes)))
            && (o.reply == Refused ==>
                  o.view.contexts == w.contexts && o.view.staged == w.staged && o.view.saved == w.saved)
            && (o.reply == Done ==>
                  && p !in o.view.contexts && (forall q | q != p :: CtxAt(o.view, q) == CtxAt(w, q))
                  && v !in o.view.staged && (forall u | u != v :: u in o.view.staged <==> u in w.staged)
                  && (forall u | u in o.view.staged :: o.view.staged[u] == w.staged[u])
                  && (forall k :: k in o.view.saved <==> k in w.saved && !(a.deleteOk && k == (v, p))))
  {
  }

  // ---------------------------------------------------------------- staged publish

  /** A cached volume that is found healthy is only bound; nothing changes. */
  predicate OnlyBinds(w: View, v: string, a: PublishAnswers) {
    v in w.staged && a.healthyFirst
  }

  /** The cache entry is rebuilt from a mount that is up. */
  predicate Rebuilds(w: View, v: string, a: PublishAnswers) {
    !OnlyBinds(w, v, a) && a.stageLock && a.healthySecond && a.healthyThird
  }

  /** The volume is mounted again. */
  predicate Restages(w: View, v: string, a: PublishAnswers) {
    && !OnlyBinds(w, v, a) && a.stageLock && !a.healthySecond && a.cleanupOk
    && Ready(a.stage) && Mounts(a.stage.mounting)
  }

  /** Staged again, without a mount: something healthy turned up at the path in between. */
  predicate Refinds(w: View, v: string, a: PublishAnswers) {
    && !OnlyBinds(w, v, a) && a.stageLock && !a.healthySecond && a.cleanupOk
    && a.stage.prepare.TargetHealthy? && a.stage.healthySecond
  }

  /** The bind mount of the target is there or can be made. */
  predicate Binds(a: PublishAnswers) {
    a.prepare.TargetHealthy? || (a.prepare.TargetFresh? && a.bindOk)
  }

  /** A staged publish succeeds exactly if the volume is staged in one of these ways and can be bound. */
  lemma PublishIff(w: View, v: string, p: string, readOnly: bool, a: PublishAnswers, mc: MountContext?)
    ensures Publish(w, v, p, readOnly, a, mc).reply == Done
            <==> Binds(a)
                 && (OnlyBinds(w, v, a) || Rebuilds(w, v, a) || Restages(w, v, a) || Refinds(w, v, a))
  {
    if !OnlyBinds(w, v, a) {
      var n := if a.healthyFirst then w else Unstaged(w, v);
      assert v !in n.staged;
      StageIff(ContextDropped(n, p), v, p, a.stage, mc);
    }
  }

  lemma PublishEffects(w: View, v: string, p: string, readOnly: bool, a: PublishAnswers, mc: MountContext?)
    ensures var t := Publish(w, v, p, readOnly, a, mc).view;
            && (OnlyBinds(w, v, a) ==> t == w)
            && (Rebuilds(w, v, a) ==> t == w.(staged := w.staged[v := Staged(p, CtxAt(w, p), readOnly)]))
            && (Restages(w, v, a) ==>
                  && p in t.contexts && t.contexts[p] == mc && t.staged == w.staged[v := Staged(p, mc, false)]
                  && t.sections == WithoutRemotes(w.sections, CtxAt(w, p)) + a.stage.mounting.load.names)
            && (forall k :: k in t.saved
                  <==> k in w.saved || (Restages(w, v, a) && a.stage.mounting.saveOk && k == (v, p)))
  {
    if !OnlyBinds(w, v, a) {
      var n := if a.healthyFirst then w else Unstaged(w, v);
      assert v !in n.staged;
      assert n.staged[v := Staged(p, CtxAt(w, p), readOnly)] == w.staged[v := Staged(p, CtxAt(w, p), readOnly)];
      var d := ContextDropped(n, p);
      if a.stageLock && !a.healthySecond && a.cleanupOk {
        RestageEffects(w, n, v, p, a, mc);
      }
    }
  }

  lemma RestageEffects(w: View, n: View, v: string, p: string, a: PublishAnswers, mc: MountContext?)
    requires !OnlyBinds(w, v, a) && a.stageLock && !a.healthySecond && a.cleanupOk
    requires n == (if a.healthyFirst then w else Unstaged(w, v)) && v !in n.staged
    ensures var t := Stage(ContextDropped(n, p), v, p, a.stage, mc).view;
            && (Restages(w, v, a) ==>
                  && p in t.contexts && t.contexts[p] == mc && t.staged == w.staged[v := Staged(p, mc, false)]
                  && t.sections == WithoutRemotes(w.sections, CtxAt(w, p)) + a.stage.mounting.load.names)
            && (forall k :: k in t.saved
                  <==> k in w.saved || (Restages(w, v, a) && a.stage.mounting.saveOk && k == (v, p)))
  {
    var d := ContextDropped(n, p);
    if StageMounts(d, v, p, a.stage) {
      StageMountsEffects(d, v, p, a.stage, mc);
      assert n.staged[v := Staged(p, mc, false)] == w.staged[v := Staged(p, mc, false)];
    } else {
      NoMountEffects(d, v, p, a.stage, mc);
    }
  }

  /** A publish works with the path it is given, or else with where the volume is cached, or saved, or by default. */
  lemma PublishPathIs(w: View, v: string, requested: string, a: PublishAnswers, defaultPath: string)
    ensures var p := PublishPath(w, v, requested, a, defaultPath);
            && (requested != "" ==> p == requested)
            && (requested == "" && v in w.staged ==> p == w.staged[v].path)
            && (requested == "" && v !in w.staged && a.lookup.Some? ==> p == a.lookup.value)
            && (requested == "" && v !in w.staged && a.lookup.None? ==> p == defaultPath)
  {
  }

  // ---------------------------------------------------------------- RemountState

  /** The path is ready for a remount. */
  predicate RemountReady(w: View, p: string, cache: bool, a: RemountAnswers) {
    && (a.prepare.TargetFresh?
        || (a.prepare.TargetHealthy? && !cache && (p !in w.contexts || w.contexts[p] == null) && a.detach.Detached?))
    && (a.stillMounted ==> a.mkdirOk)
  }

  predicate RemountMounts(w: View, p: string, cache: bool, a: RemountAnswers) {
    RemountReady(w, p, cache, a) && Mounts(a.mounting)
  }

  /** Something healthy is mounted already: a staging mount is taken over, another one left to its context. */
  predicate Adopts(w: View, p: string, cache: bool, a: RemountAnswers) {
    a.prepare.TargetHealthy? && (cache || (p in w.contexts && w.contexts[p] != null))
  }

  lemma RemountIff(w: View, v: string, p: string, cache: bool, a: RemountAnswers, mc: MountContext?)
    ensures var o := Remount(w, v, p, cache, a, mc);
            && (o.reply == Done <==> Adopts(w, p, cache, a) || RemountMounts(w, p, cache, a))
            && o.reply != StagedElsewhere
  {
  }

  /** A remount stores, caches, loads and saves as a stage does, and adopting a staging mount only caches it. */
  lemma RemountEffects(w: View, v: string, p: string, cache: bool, a: RemountAnswers, mc: MountContext?)
    ensures var t := Remount(w, v, p, cache, a, mc).view;
            && (RemountMounts(w, p, cache, a) ==>
                  && p in t.contexts && t.contexts[p] == mc && a.mounting.load.names <= t.sections
                  && t.staged == (if cache then w.staged[v := Staged(p, mc, false)] else w.staged))
            && (Adopts(w, p, cache, a) ==>
                  t == if cache then w.(staged := w.staged[v := Staged(p, CtxAt(w, p), false)]) else w)
            && (forall k :: k in t.saved
                  <==> k in w.saved || (RemountMounts(w, p, cache, a) && a.mounting.saveOk && k == (v, p)))
  {
    var n := if a.stillMounted then ContextDropped(w, p) else w;
    MountedEffects(n, v, p, a.mounting, cache, mc);
  }

  // ---------------------------------------------------------------- UnmountAll

  /**
   * UnmountAll keeps the contexts that are stuck, drops the sections of every context, and touches neither the cache
   * nor the saved states, so that the next process can remount everything.
   */
  lemma UnmountAllEffects(w: View, stuck: set<string>)
    ensures var t := UnmountedAll(w, stuck);
            && (forall p :: p in t.contexts <==> p in w.contexts && p in stuck)
            && (forall p | p in t.contexts :: t.contexts[p] == w.contexts[p])
            && (forall x :: x in t.sections <==> x in w.sections && !Held(w, x))
            && t.staged == w.staged && t.saved == w.saved
  {
    var t := UnmountedAll(w, stuck);
    forall x | x in w.sections ensures x in t.sections <==> !Held(w, x) {
      if Held(w, x) {
        var p :| Holds(w, p, x);
      }
      if x !in t.sections {
        var p :| p in w.contexts && w.contexts[p] != null && x in w.contexts[p].remotes;
        assert Holds(w, p, x);
      }
    }
  }

  // ---------------------------------------------------------------- staging paths

  /** A path of plain elements looks like a staging path exactly if its last one is "globalmount". */
  lemma StagingPathIff(parts: seq<string>, slash: bool)
    requires parts != [] && forall k | 0 <= k < |parts| :: PlainElement(parts[k])
    ensures IsLikelyStagingPath("/" + Join(parts, '/') + if slash then "/" else "")
            <==> parts[|parts| - 1] == "globalmount"
  {
    var path := "/" + Join(parts, '/');
    BaseOf(parts);
    if slash {
      SlashStripped(path);
    } else {
      assert path + "" == path;
    }
  }

  lemma SlashStripped(path: string)
    ensures StripSlashes(path + "/") == StripSlashes(path) && (path != "" ==> Base(path + "/") == Base(path))
  {
    assert (path + "/")[..|path|] == path;
  }

  lemma BaseOf(parts: seq<string>)
    requires parts != [] && forall k | 0 <= k < |parts| :: PlainElement(parts[k])
    ensures Base("/" + Join(parts, '/')) == parts[|parts| - 1]
  {
    var path, all := "/" + Join(parts, '/'), [""] + parts;
    JoinEnd(parts);
    assert path[|path| - 1] == Join(parts, '/')[|Join(parts, '/')| - 1];
    assert StripSlashes(path) == path;
    PlainPath(parts);
    assert all[|all| - 1] == parts[|parts| - 1];
  }

  lemma {:induction false} JoinEnd(parts: seq<string>)
    requires parts != [] && forall k | 0 <= k < |parts| :: PlainElement(parts[k])
    ensures Join(parts, '/') != "" && Join(parts, '/')[|Join(parts, '/')| - 1] != '/'
    decreases |parts|
  {
    if |parts| == 1 {
      assert parts[0][|parts[0]| - 1] in parts[0];
    } else {
      JoinEnd(parts[1..]);
    }
  }
}
