/**
 * Staging mode: the staged-volume cache and the mount contexts, over stage, unstage, staged publish and boot
 * remount.
 */
module Staging {
  import opened Text
  import opened Paths

  /** A live rclone mount; compared by identity. */
  class MountContext {
    const remotes: set<string>

    constructor (remotes: set<string>)
      ensures this.remotes == remotes
    {
      this.remotes := remotes;
    }
  }

  datatype Staged = Staged(path: string, ctx: MountContext?, readOnly: bool)

  /** (volume, path) */
  type Key = (string, string)

  datatype View = View(
    contexts: map<string, MountContext?>, staged: map<string, Staged>, sections: set<string>, saved: set<Key>)

  /** filepath.Base */
  function Base(path: string): string {
    if path == "" then "."
    else
      var parts := Split(StripSlashes(path), '/');
      if parts[|parts| - 1] == "" then "/" else parts[|parts| - 1]
  }

  function StripSlashes(path: string): string {
    if path != "" && path[|path| - 1] == '/' then StripSlashes(path[..|path| - 1]) else path
  }

  predicate IsLikelyStagingPath(path: string) {
    Base(path) == "globalmount"
  }

  // ---------------------------------------------------------------- what the outside answers

  datatype Prepare = PrepareFails | TargetFresh | TargetHealthy

  datatype Detach = DetachFails | MkdirFails | Detached

  datatype Load = NoConfig | LoadFails(part: set<string>) | Loaded(names: set<string>)

  datatype MountAnswers = MountAnswers(load: Load, mountOk: bool, saveOk: bool)

  datatype StageAnswers = StageAnswers(
    healthyFirst: bool, cleanupOk: bool, prepare: Prepare, healthySecond: bool, detach: Detach, mounting: MountAnswers)

  datatype UnstageAnswers = UnstageAnswers(unmountOk: bool, deleteOk: bool)

  datatype PublishAnswers = PublishAnswers(
    lookup: Option<string>,   // path of a saved staging state of the volume, if LoadState finds one
    healthyFirst: bool, stageLock: bool, healthySecond: bool, healthyThird: bool, cleanupOk: bool,
    stage: StageAnswers, prepare: Prepare, bindOk: bool)

  datatype RemountAnswers = RemountAnswers(
    prepare: Prepare, detach: Detach, stillMounted: bool, mkdirOk: bool, mounting: MountAnswers)

  datatype Reply = Done | Refused | StagedElsewhere

  datatype Outcome = Outcome(view: View, reply: Reply)

  // ---------------------------------------------------------------- specification

  ghost function CtxAt(w: View, path: string): MountContext? {
    if path in w.contexts then w.contexts[path] else null
  }

  /** The sections unmountVolume leaves loaded. */
  ghost function WithoutRemotes(sections: set<string>, mc: MountContext?): set<string> {
    if mc == null then sections else sections - mc.remotes
  }

  /** Unmount the context of a path and forget it, whether or not the unmount worked. */
  ghost function ContextDropped(w: View, path: string): View {
    w.(sections := WithoutRemotes(w.sections, CtxAt(w, path)), contexts := w.contexts - {path})
  }

  ghost function Unstaged(w: View, v: string): View {
    w.(staged := w.staged - {v})
  }

  /** Load, mount, record: the common end of staging and remounting. */
  ghost function Mounting(w: View, v: string, p: string, m: MountAnswers, cache: bool, mc: MountContext?): Outcome
  {
    match m.load
    case NoConfig => Outcome(w, Refused)
    case LoadFails(part) => Outcome(w.(sections := w.sections + part), Refused)
    case Loaded(names) =>
      if !m.mountOk then Outcome(w.(sections := w.sections - names), Refused)
      else Outcome(View(
                     w.contexts[p := mc], if cache then w.staged[v := Staged(p, mc, false)] else w.staged,
                     w.sections + names, if m.saveOk then w.saved + {(v, p)} else w.saved), Done)
  }

  ghost function StageFrom(w: View, v: string, p: string, a: StageAnswers, mc: MountContext?): Outcome
  {
    match a.prepare
    case PrepareFails => Outcome(w, Refused)
    case TargetFresh => Mounting(w, v, p, a.mounting, true, mc)
    case TargetHealthy =>
      if a.healthySecond then Outcome(w.(staged := w.staged[v := Staged(p, CtxAt(w, p), false)]), Done)
      else if a.detach.DetachFails? then Outcome(w, Refused)
      else
        var n := w.(contexts := w.contexts - {p});
        if a.detach.MkdirFails? then Outcome(n, Refused) else Mounting(n, v, p, a.mounting, true, mc)
  }

  /** stageVolume */
  ghost function Stage(w: View, v: string, p: string, a: StageAnswers, mc: MountContext?): Outcome
  {
    if v !in w.staged then StageFrom(w, v, p, a, mc)
    else if w.staged[v].path != p then Outcome(w, StagedElsewhere)
    else if a.healthyFirst then Outcome(w, Done)
    else
      var n := ContextDropped(Unstaged(w, v), p);
      if !a.cleanupOk then Outcome(n, Refused) else StageFrom(n, v, p, a, mc)
  }

  /** NodeUnstageVolume */
  ghost function Unstage(w: View, v: string, p: string, a: UnstageAnswers): Outcome {
    if CtxAt(w, p) == null && v in w.staged && w.staged[v].path != p then Outcome(w, StagedElsewhere)
    else
      var mc := if CtxAt(w, p) == null && v in w.staged then w.staged[v].ctx else CtxAt(w, p);
      var n := w.(sections := WithoutRemotes(w.sections, mc));
      if !a.unmountOk then Outcome(n, Refused)
      else Outcome(n.(contexts := w.contexts - {p}, staged := w.staged - {v},
                      saved := if a.deleteOk then w.saved - {(v, p)} else w.saved), Done)
  }

  /** The staging path a publish works with. */
  ghost function PublishPath(w: View, v: string, requested: string, a: PublishAnswers, defaultPath: string): string {
    if requested != "" then requested
    else if v in w.staged then w.staged[v].path
    else if a.lookup.Some? then a.lookup.value
    else defaultPath
  }

  /** rebuildOrRestage */
  ghost function Rebuild(w: View, v: string, p: string, readOnly: bool, a: PublishAnswers, mc: MountContext?): Outcome
  {
    if a.healthySecond then
      if !a.healthyThird then Outcome(w, Refused)
      else Outcome(w.(staged := w.staged[v := Staged(p, CtxAt(w, p), readOnly)]), Done)
    else
      var n := ContextDropped(w, p);
      if !a.cleanupOk then Outcome(n, Refused) else Stage(n, v, p, a.stage, mc)
  }

  /** nodePublishVolumeStaged up to the bind mount. */
  ghost function EnsureStaged(
    w: View, v: string, p: string, readOnly: bool, a: PublishAnswers, mc: MountContext?): Outcome
  {
    if v in w.staged && a.healthyFirst then Outcome(w, Done)
    else
      var n := if a.healthyFirst then w else Unstaged(w, v);
      if !a.stageLock then Outcome(n, Refused) else Rebuild(n, v, p, readOnly, a, mc)
  }

  ghost function Publish(w: View, v: string, p: string, readOnly: bool, a: PublishAnswers, mc: MountContext?): Outcome
  {
    var o := EnsureStaged(w, v, p, readOnly, a, mc);
    if o.reply != Done then o
    else if a.prepare.PrepareFails? || (a.prepare.TargetFresh? && !a.bindOk) then o.(reply := Refused)
    else o
  }

  /** RemountState; `cache` says whether the driver stages and the path looks like a staging path. */
  ghost function Remount(w: View, v: string, p: string, cache: bool, a: RemountAnswers, mc: MountContext?): Outcome
  {
    match a.prepare
    case PrepareFails => Outcome(w, Refused)
    case TargetFresh => RemountFrom(w, v, p, cache, a, mc)
    case TargetHealthy =>
      if cache then Outcome(w.(staged := w.staged[v := Staged(p, CtxAt(w, p), false)]), Done)
      else if CtxAt(w, p) != null then Outcome(w, Done)
      else if !a.detach.Detached? then Outcome(w, Refused)
      else RemountFrom(w, v, p, cache, a, mc)
  }

  ghost function RemountFrom(w: View, v: string, p: string, cache: bool, a: RemountAnswers, mc: MountContext?): Outcome
  {
    var n := if a.stillMounted then ContextDropped(w, p) else w;
    if a.stillMounted && !a.mkdirOk then Outcome(n, Refused) else Mounting(n, v, p, a.mounting, cache, mc)
  }

  /** UnmountAll: the paths in `stuck` do not unmount. */
  ghost function UnmountedAll(w: View, stuck: set<string>): View {
    w.(contexts := map p | p in w.contexts && p in stuck :: w.contexts[p],
       sections := set x | x in w.sections
                           && forall p | p in w.contexts :: w.contexts[p] != null ==> x !in w.contexts[p].remotes)
  }

  // ---------------------------------------------------------------- coherence

  /** Every cached volume points to the very context stored for its path. */
  ghost predicate Coherent(w: View) {
    forall v | v in w.staged :: w.staged[v].ctx == CtxAt(w, w.staged[v].path)
  }

  /** One volume per path; a volume may have several. */
  type Owners = map<string, string>

  predicate Owns(owners: Owners, v: string, p: string) {
    p in owners && owners[p] == v
  }

  ghost predicate Owned(w: View, owners: Owners) {
    && (forall v | v in w.staged :: Owns(owners, v, w.staged[v].path))
    && (forall k | k in w.saved :: Owns(owners, k.0, k.1))
  }

  ghost predicate Sound(w: View, owners: Owners) {
    Coherent(w) && Owned(w, owners)
  }

  lemma MountingSound(w: View, v: string, p: string, m: MountAnswers, mc: MountContext?, owners: Owners)
    requires Sound(w, owners) && Owns(owners, v, p)
    ensures Sound(Mounting(w, v, p, m, true, mc).view, owners)
  {
  }

  lemma DroppedSound(w: View, v: string, p: string, owners: Owners)
    requires Sound(w, owners) && Owns(owners, v, p) && v !in w.staged
    ensures Sound(ContextDropped(w, p), owners)
  {
  }

  lemma StageFromSound(w: View, v: string, p: string, a: StageAnswers, mc: MountContext?, owners: Owners)
    requires Sound(w, owners) && Owns(owners, v, p) && v !in w.staged
    ensures Sound(StageFrom(w, v, p, a, mc).view, owners)
  {
    var n := w.(contexts := w.contexts - {p});
    assert Sound(n, owners);
    MountingSound(w, v, p, a.mounting, mc, owners);
    MountingSound(n, v, p, a.mounting, mc, owners);
  }

  lemma StageSound(w: View, v: string, p: string, a: StageAnswers, mc: MountContext?, owners: Owners)
    requires Sound(w, owners) && Owns(owners, v, p)
    ensures Sound(Stage(w, v, p, a, mc).view, owners)
  {
    if v in w.staged {
      DroppedSound(Unstaged(w, v), v, p, owners);
      StageFromSound(ContextDropped(Unstaged(w, v), p), v, p, a, mc, owners);
    } else {
      StageFromSound(w, v, p, a, mc, owners);
    }
  }

  lemma UnstageSound(w: View, v: string, p: string, a: UnstageAnswers, owners: Owners)
    requires Sound(w, owners) && Owns(owners, v, p)
    ensures Sound(Unstage(w, v, p, a).view, owners)
  {
  }

  lemma PublishSound(
    w: View, v: string, p: string, readOnly: bool, a: PublishAnswers, mc: MountContext?, owners: Owners)
    requires Sound(w, owners) && Owns(owners, v, p)
    ensures Sound(Publish(w, v, p, readOnly, a, mc).view, owners)
  {
    if !(v in w.staged && a.healthyFirst) {
      var n := if a.healthyFirst then w else Unstaged(w, v);
      assert Sound(n, owners) && v !in n.staged;
      DroppedSound(n, v, p, owners);
      StageSound(ContextDropped(n, p), v, p, a.stage, mc, owners);
    }
  }

  /** No cached entry sits at the path, or the entry is replaced and nothing can be taken away from under it. */
  ghost predicate SafeToRemount(w: View, v: string, p: string, cache: bool) {
    v in w.staged && w.staged[v].path == p ==> cache && CtxAt(w, p) == null
  }

  lemma RemountSound(
    w: View, v: string, p: string, cache: bool, a: RemountAnswers, mc: MountContext?, owners: Owners)
    requires Sound(w, owners) && Owns(owners, v, p)
    requires SafeToRemount(w, v, p, cache)
    ensures Sound(Remount(w, v, p, cache, a, mc).view, owners)
  {
    if v in w.staged && w.staged[v].path == p {
      assert Sound(ContextDropped(w, p), owners);
      MountingSound(w, v, p, a.mounting, mc, owners);
      MountingSound(ContextDropped(w, p), v, p, a.mounting, mc, owners);
    } else {
      UncachedSound(w, v, p, cache, a, mc, owners);
    }
  }

  /** Contexts and saved states differ at this path only, and an entry that changed is this one, in order. */
  ghost predicate OnlyAt(w: View, t: View, v: string, p: string) {
    && (forall q | q != p :: CtxAt(t, q) == CtxAt(w, q))
    && (t.staged == w.staged || t.staged == w.staged[v := Staged(p, CtxAt(t, p), false)])
    && t.saved <= w.saved + {(v, p)}
  }

  lemma OnlyAtSound(w: View, t: View, v: string, p: string, owners: Owners)
    requires Sound(w, owners) && Owns(owners, v, p) && OnlyAt(w, t, v, p)
    requires forall u | u in w.staged :: w.staged[u].path != p
    ensures Sound(t, owners)
  {
  }

  lemma MountingOnlyAt(w: View, n: View, v: string, p: string, m: MountAnswers, cache: bool, mc: MountContext?)
    requires OnlyAt(w, n, v, p) && n.staged == w.staged
    ensures OnlyAt(w, Mounting(n, v, p, m, cache, mc).view, v, p)
  {
  }

  lemma UncachedSound(
    w: View, v: string, p: string, cache: bool, a: RemountAnswers, mc: MountContext?, owners: Owners)
    requires Sound(w, owners) && Owns(owners, v, p)
    requires forall u | u in w.staged :: w.staged[u].path != p
    ensures Sound(Remount(w, v, p, cache, a, mc).view, owners)
  {
    var n := if a.stillMounted then ContextDropped(w, p) else w;
    assert OnlyAt(w, n, v, p);
    MountingOnlyAt(w, n, v, p, a.mounting, cache, mc);
    OnlyAtSound(w, Remount(w, v, p, cache, a, mc).view, v, p, owners);
  }

  /** Otherwise some answers of the outside leave the entry pointing to a context that is no longer stored. */
  lemma UnsafeRemountBreaks(w: View, v: string, p: string, cache: bool, mc: MountContext)
    returns (a: RemountAnswers)
    requires Coherent(w) && !SafeToRemount(w, v, p, cache) && w.staged[v].ctx != mc
    ensures !Coherent(Remount(w, v, p, cache, a, mc).view)
  {
    if CtxAt(w, p) != null {
      a := RemountAnswers(TargetFresh, Detached, true, true, MountAnswers(NoConfig, false, false));
    } else {
      a := RemountAnswers(TargetFresh, Detached, false, true, MountAnswers(Loaded({}), true, true));
    }
    var t := Remount(w, v, p, cache, a, mc).view;
    assert v in t.staged && t.staged[v] == w.staged[v];
  }

  /** UnmountAll leaves the cache alone: it stays coherent exactly when no cached entry loses its context. */
  lemma UnmountAllCoherentIff(w: View, stuck: set<string>)
    requires Coherent(w)
    ensures Coherent(UnmountedAll(w, stuck))
            <==> forall v | v in w.staged :: w.staged[v].ctx != null ==> w.staged[v].path in stuck
  {
    var t := UnmountedAll(w, stuck);
    forall v | v in w.staged
      ensures w.staged[v].ctx == CtxAt(t, w.staged[v].path) <==> (w.staged[v].ctx != null ==> w.staged[v].path in stuck)
    {
    }
  }

  // ---------------------------------------------------------------- one path at a time

  /**
   * stageVolume never moves a cached volume: it refuses another path without touching anything, and succeeds only
   * at this one.
   */
  lemma StageNeverMoves(w: View, v: string, p: string, a: StageAnswers, mc: MountContext?)
    ensures var o := Stage(w, v, p, a, mc);
            && (o.reply == StagedElsewhere <==> v in w.staged && w.staged[v].path != p)
            && (o.reply == StagedElsewhere ==> o.view == w)
            && (v in o.view.staged && o.reply != StagedElsewhere ==> o.view.staged[v].path == p)
            && (o.reply == Done ==> v in o.view.staged)
  {
  }

  /** No other volume's entry changes. */
  lemma StageLeavesOthers(w: View, v: string, p: string, a: StageAnswers, mc: MountContext?, u: string)
    requires u != v
    ensures var t := Stage(w, v, p, a, mc).view;
            (u in t.staged <==> u in w.staged) && (u in w.staged ==> t.staged[u] == w.staged[u])
  {
  }

  /** A finished unstage leaves neither entry nor context, nor the saved state if it could be deleted. */
  lemma UnstageClears(w: View, v: string, p: string, a: UnstageAnswers)
    requires Unstage(w, v, p, a).reply == Done
    ensures var t := Unstage(w, v, p, a).view;
            v !in t.staged && CtxAt(t, p) == null && (a.deleteOk ==> (v, p) !in t.saved)
  {
  }

  /** A successful publish rests on a volume cached at some path of its own, its context the stored one. */
  lemma PublishedIsStaged(
    w: View, v: string, p: string, readOnly: bool, a: PublishAnswers, mc: MountContext?, owners: Owners)
    requires Sound(w, owners) && Owns(owners, v, p)
    requires Publish(w, v, p, readOnly, a, mc).reply == Done
    ensures var t := Publish(w, v, p, readOnly, a, mc).view;
            && v in t.staged && t.staged[v].ctx == CtxAt(t, t.staged[v].path)
            && (t.staged[v].path == p || (v in w.staged && t.staged[v] == w.staged[v]))
  {
    PublishSound(w, v, p, readOnly, a, mc, owners);
    var n := ContextDropped(Unstaged(w, v), p);
    StageNeverMoves(n, v, p, a.stage, mc);
    if v !in w.staged {
      StageNeverMoves(ContextDropped(w, p), v, p, a.stage, mc);
    }
  }

  // ---------------------------------------------------------------- loaded sections

  ghost predicate Holds(w: View, p: string, x: string) {
    CtxAt(w, p) != null && x in CtxAt(w, p).remotes
  }

  ghost predicate Held(w: View, x: string) {
    exists p :: Holds(w, p, x)
  }

  /** Every loaded section belongs to a stored context. */
  ghost predicate NoLeak(w: View) {
    forall x | x in w.sections :: Held(w, x)
  }

  /** Loads are not cut short, contexts remember what was loaded, and a path's section names do not change. */
  ghost predicate Stable(w: View, p: string, m: MountAnswers, mc: MountContext?) {
    && (m.load.LoadFails? ==> m.load.part == {})
    && (m.load.Loaded? && m.mountOk ==> mc != null && mc.remotes == m.load.names)
    && (m.load.Loaded? && CtxAt(w, p) != null ==> CtxAt(w, p).remotes <= m.load.names)
  }

  lemma MountingNoLeak(w: View, v: string, p: string, m: MountAnswers, cache: bool, mc: MountContext?)
    requires NoLeak(w) && Stable(w, p, m, mc)
    ensures NoLeak(Mounting(w, v, p, m, cache, mc).view)
  {
    var t := Mounting(w, v, p, m, cache, mc).view;
    forall x | x in t.sections ensures Held(t, x) {
      if x in w.sections {
        assert Held(w, x);
        var q :| Holds(w, q, x);
        assert Holds(t, if q == p && m.load.Loaded? && m.mountOk then p else q, x);
      } else {
        assert Holds(t, p, x);
      }
    }
  }

  lemma DroppedNoLeak(w: View, p: string)
    requires NoLeak(w)
    ensures NoLeak(ContextDropped(w, p))
  {
    var t := ContextDropped(w, p);
    forall x | x in t.sections ensures Held(t, x) {
      assert Held(w, x);
      var q :| Holds(w, q, x);
      assert q != p;
      assert Holds(t, q, x);
    }
  }

  /**
   * stageVolume forgets the context of a mount it found healthy first and unhealthy then, and ends without a new
   * load.
   */
  ghost predicate Forgets(w: View, v: string, p: string, a: StageAnswers) {
    && v !in w.staged && a.prepare.TargetHealthy? && !a.healthySecond && !a.detach.DetachFails?
    && (a.detach.MkdirFails? || !a.mounting.load.Loaded?)
  }

  /** A loaded section that only the context of this path holds. */
  ghost predicate OnlyHere(w: View, p: string, x: string) {
    x in w.sections && Holds(w, p, x) && forall q | q != p :: !Holds(w, q, x)
  }

  lemma SameHolders(w: View, t: View)
    requires NoLeak(w) && t.contexts == w.contexts && t.sections <= w.sections
    ensures NoLeak(t)
  {
    forall x | x in t.sections ensures Held(t, x) {
      assert Held(w, x);
      var q :| Holds(w, q, x);
      assert Holds(t, q, x);
    }
  }

  /**
   * Dropping a context and then loading at least its names leaves nothing behind, whether or not the mount
   * succeeds.
   */
  lemma ReloadedNoLeak(w: View, v: string, p: string, m: MountAnswers, mc: MountContext?)
    requires NoLeak(w) && Stable(w, p, m, mc) && m.load.Loaded?
    ensures NoLeak(Mounting(w.(contexts := w.contexts - {p}), v, p, m, true, mc).view)
  {
    var t := Mounting(w.(contexts := w.contexts - {p}), v, p, m, true, mc).view;
    forall x | x in t.sections ensures Held(t, x) {
      if x in w.sections {
        assert Held(w, x);
        var q :| Holds(w, q, x);
        assert q == p ==> x in m.load.names;
        assert Holds(t, if m.mountOk && x in m.load.names then p else q, x);
      } else {
        assert Holds(t, p, x);
      }
    }
  }

  lemma ForgottenLeaksIff(w: View, p: string)
    requires NoLeak(w)
    ensures NoLeak(w.(contexts := w.contexts - {p})) <==> forall x :: !OnlyHere(w, p, x)
  {
    var t := w.(contexts := w.contexts - {p});
    assert forall q, x :: Holds(t, q, x) <==> q != p && Holds(w, q, x);
    forall x | x in w.sections ensures Held(t, x) <==> !OnlyHere(w, p, x) {
      assert Held(w, x);
      var q :| Holds(w, q, x);
      assert q != p ==> Holds(t, q, x);
    }
  }

  lemma StageFromNoLeak(w: View, v: string, p: string, a: StageAnswers, mc: MountContext?)
    requires NoLeak(w) && Stable(w, p, a.mounting, mc) && v !in w.staged
    requires Forgets(w, v, p, a) ==> CtxAt(w, p) == null
    ensures NoLeak(StageFrom(w, v, p, a, mc).view)
  {
    MountingNoLeak(w, v, p, a.mounting, true, mc);
    SameHolders(w, w.(staged := w.staged[v := Staged(p, CtxAt(w, p), false)]));
    if CtxAt(w, p) == null {
      var n := w.(contexts := w.contexts - {p});
      ForgottenLeaksIff(w, p);
      MountingNoLeak(n, v, p, a.mounting, true, mc);
    } else if a.mounting.load.Loaded? {
      ReloadedNoLeak(w, v, p, a.mounting, mc);
    }
  }

  lemma StageUncachedNoLeakIff(w: View, v: string, p: string, a: StageAnswers, mc: MountContext?)
    requires NoLeak(w) && Stable(w, p, a.mounting, mc) && v !in w.staged
    ensures NoLeak(StageFrom(w, v, p, a, mc).view)
            <==> (Forgets(w, v, p, a) ==> forall x :: !OnlyHere(w, p, x))
  {
    if Forgets(w, v, p, a) {
      ForgottenLeaksIff(w, p);
      var n := w.(contexts := w.contexts - {p});
      assert StageFrom(w, v, p, a, mc).view.sections == n.sections;
      assert StageFrom(w, v, p, a, mc).view.contexts == n.contexts;
      SameNoLeak(n, StageFrom(w, v, p, a, mc).view);
    } else {
      StageFromNoLeak(w, v, p, a, mc);
    }
  }

  lemma SameNoLeak(w: View, t: View)
    requires t.contexts == w.contexts && t.sections == w.sections
    ensures NoLeak(t) <==> NoLeak(w)
  {
    if NoLeak(w) {
      SameHolders(w, t);
    }
    if NoLeak(t) {
      SameHolders(t, w);
    }
  }

  /** stageVolume leaks sections exactly when it forgets a context that alone holds some. */
  lemma StageLeaksIff(w: View, v: string, p: string, a: StageAnswers, mc: MountContext?)
    requires NoLeak(w) && Stable(w, p, a.mounting, mc)
    ensures NoLeak(Stage(w, v, p, a, mc).view) <==> (Forgets(w, v, p, a) ==> forall x :: !OnlyHere(w, p, x))
  {
    if v in w.staged {
      SameHolders(w, Unstaged(w, v));
      DroppedNoLeak(Unstaged(w, v), p);
      StageFromNoLeak(ContextDropped(Unstaged(w, v), p), v, p, a, mc);
    } else {
      StageUncachedNoLeakIff(w, v, p, a, mc);
    }
  }

  /** The other operations never leak. */
  lemma UnstageNoLeak(w: View, v: string, p: string, a: UnstageAnswers)
    requires NoLeak(w)
    ensures NoLeak(Unstage(w, v, p, a).view)
  {
    var t := Unstage(w, v, p, a).view;
    forall x | x in t.sections ensures Held(t, x) {
      assert Held(w, x);
      var q :| Holds(w, q, x);
      assert t.contexts == w.contexts || q != p;
      assert Holds(t, q, x);
    }
  }

  lemma PublishNoLeak(w: View, v: string, p: string, readOnly: bool, a: PublishAnswers, mc: MountContext?)
    requires NoLeak(w) && Stable(w, p, a.stage.mounting, mc)
    ensures NoLeak(Publish(w, v, p, readOnly, a, mc).view)
  {
    var n := if a.healthyFirst then w else Unstaged(w, v);
    SameHolders(w, n);
    SameHolders(w, n.(staged := n.staged[v := Staged(p, CtxAt(n, p), readOnly)]));
    DroppedNoLeak(n, p);
    StageLeaksIff(ContextDropped(n, p), v, p, a.stage, mc);
  }

  lemma RemountNoLeak(w: View, v: string, p: string, cache: bool, a: RemountAnswers, mc: MountContext?)
    requires NoLeak(w) && Stable(w, p, a.mounting, mc)
    ensures NoLeak(Remount(w, v, p, cache, a, mc).view)
  {
    SameHolders(w, w.(staged := w.staged[v := Staged(p, CtxAt(w, p), false)]));
    DroppedNoLeak(w, p);
    MountingNoLeak(w, v, p, a.mounting, cache, mc);
    MountingNoLeak(ContextDropped(w, p), v, p, a.mounting, cache, mc);
  }

  // ---------------------------------------------------------------- the server

  datatype Request =
    | StageRequest(v: string, p: string, stage: StageAnswers)
    | UnstageRequest(v: string, p: string, unstage: UnstageAnswers)
    | PublishRequest(v: string, requested: string, readOnly: bool, publish: PublishAnswers)

  /** A request as a whole. */
  ghost function Handle(w: View, r: Request, defaultPath: string, mc: MountContext?): Outcome {
    match r
    case StageRequest(v, p, a) => Stage(w, v, p, a, mc)
    case UnstageRequest(v, p, a) => Unstage(w, v, p, a)
    case PublishRequest(v, requested, readOnly, a) =>
      Publish(w, v, PublishPath(w, v, requested, a, defaultPath), readOnly, a, mc)
  }

  /** Every path the request may work with belongs to its volume. */
  predicate PathsOwned(r: Request, defaultPath: string, owners: Owners) {
    match r
    case StageRequest(v, p, _) => Owns(owners, v, p)
    case UnstageRequest(v, p, _) => Owns(owners, v, p)
    case PublishRequest(v, requested, _, a) =>
      && Owns(owners, v, defaultPath) && (requested != "" ==> Owns(owners, v, requested))
      && (a.lookup.Some? ==> Owns(owners, v, a.lookup.value))
  }

  lemma HandleSound(w: View, r: Request, defaultPath: string, mc: MountContext?, owners: Owners)
    requires Sound(w, owners) && PathsOwned(r, defaultPath, owners)
    ensures Sound(Handle(w, r, defaultPath, mc).view, owners)
  {
    match r {
      case StageRequest(v, p, a) => StageSound(w, v, p, a, mc, owners);
      case UnstageRequest(v, p, a) => UnstageSound(w, v, p, a, owners);
      case PublishRequest(v, requested, readOnly, a) =>
        PublishSound(w, v, PublishPath(w, v, requested, a, defaultPath), readOnly, a, mc, owners);
    }
  }

  /**
   * RemountState overwrites the entry of a volume cached at another path exactly when it caches its own and
   * succeeds.
   */
  lemma RemountMovesIff(w: View, v: string, p: string, cache: bool, a: RemountAnswers, mc: MountContext?)
    ensures var o := Remount(w, v, p, cache, a, mc);
            (v in w.staged && v in o.view.staged && o.view.staged[v].path != w.staged[v].path)
            <==> v in w.staged && w.staged[v].path != p && cache && o.reply == Done
  {
  }

  datatype SavedState = SavedState(v: string, p: string, answers: RemountAnswers)

  /** LoadState lists each (volume, path) once, and each path belongs to its volume. */
  ghost predicate DistinctStates(states: seq<SavedState>, owners: Owners) {
    && (forall i | 0 <= i < |states| :: Owns(owners, states[i].v, states[i].p))
    && (forall i, j | 0 <= i < j < |states| :: states[i].v != states[j].v || states[i].p != states[j].p)
  }

  ghost predicate CachedAmong(w: View, states: seq<SavedState>) {
    forall u | u in w.staged :: exists st :: st in states && st.p == w.staged[u].path
  }

  lemma NextUncached(w: View, states: seq<SavedState>, n: nat, owners: Owners)
    requires n < |states| && DistinctStates(states, owners) && CachedAmong(w, states[..n])
    ensures forall u | u in w.staged :: w.staged[u].path != states[n].p
  {
    forall u | u in w.staged ensures w.staged[u].path != states[n].p {
      var st :| st in states[..n] && st.p == w.staged[u].path;
      var i :| 0 <= i < n && states[i] == st;
      assert Owns(owners, states[i].v, states[i].p) && Owns(owners, states[n].v, states[n].p);
    }
  }

  /** The path has a context again, or holds a healthy staging mount that was taken over. */
  predicate Served(w: View, st: SavedState) {
    st.p in w.contexts || (st.answers.prepare.TargetHealthy? && IsLikelyStagingPath(st.p))
  }

  lemma PathsDiffer(states: seq<SavedState>, n: nat, owners: Owners)
    requires n < |states| && DistinctStates(states, owners)
    ensures forall k | 0 <= k < n :: states[k].p != states[n].p
  {
    forall k | 0 <= k < n ensures states[k].p != states[n].p {
      assert Owns(owners, states[k].v, states[k].p) && Owns(owners, states[n].v, states[n].p);
    }
  }

  lemma CachedAmongMore(w: View, t: View, states: seq<SavedState>, n: nat)
    requires n < |states| && CachedAmong(w, states[..n])
    requires forall u | u in t.staged ::
               (u in w.staged && t.staged[u] == w.staged[u]) || t.staged[u].path == states[n].p
    ensures CachedAmong(t, states[..n + 1])
  {
    assert states[..n + 1] == states[..n] + [states[n]];
    forall u | u in t.staged ensures exists st :: st in states[..n + 1] && st.p == t.staged[u].path {
      if u in w.staged && t.staged[u] == w.staged[u] {
        var st :| st in states[..n] && st.p == w.staged[u].path;
        assert st in states[..n + 1];
      } else {
        assert states[n] in states[..n + 1];
      }
    }
  }

  lemma RemountServes(w: View, st: SavedState, cache: bool, mc: MountContext?)
    requires cache ==> IsLikelyStagingPath(st.p)
    ensures var o := Remount(w, st.v, st.p, cache, st.answers, mc);
            && (o.reply == Done ==> Served(o.view, st))
            && (forall q | q != st.p :: q in o.view.contexts <==> q in w.contexts)
  {
  }

  /** A remount caches nothing but its own volume at its own path. */
  lemma RemountCaches(w: View, v: string, p: string, cache: bool, a: RemountAnswers, mc: MountContext?)
    ensures var t := Remount(w, v, p, cache, a, mc).view;
            forall u | u in t.staged :: (u in w.staged && t.staged[u] == w.staged[u]) || t.staged[u].path == p
  {
  }

  class NodeServer {
    const staging: bool
    var mountContext: map<string, MountContext>
    var stagedVolumes: map<string, Staged>
    var sections: set<string>
    var saved: set<Key>

    constructor (staging: bool, saved: set<Key>)
      ensures this.staging == staging && Now() == View(map[], map[], {}, saved)
    {
      this.staging, this.saved := staging, saved;
      mountContext, stagedVolumes, sections := map[], map[], {};
    }

    ghost function Now(): View
      reads this
    {
      View(mountContext, stagedVolumes, sections, saved)
    }

    method GetMountContext(p: string) returns (mc: MountContext?)
      ensures mc == CtxAt(Now(), p)
    {
      mc := if p in mountContext then mountContext[p] else null;
    }

    /** unmountVolume as far as the loaded sections go; the answer says how the detach ends. */
    method UnmountVolume(mc: MountContext?)
      modifies this`sections
      ensures sections == WithoutRemotes(old(sections), mc)
    {
      if mc != null {
        sections := sections - mc.remotes;
      }
    }

    /** cleanupUnhealthyStagingMount, and the second mount check of a remount. */
    method DropContext(p: string)
      modifies this`sections, this`mountContext
      ensures Now() == ContextDropped(old(Now()), p)
    {
      var mc := GetMountContext(p);
      if mc != null {
        UnmountVolume(mc);
        mountContext := mountContext - {p};
      } else {
        assert mountContext - {p} == mountContext;
      }
    }

    method Mount(v: string, p: string, m: MountAnswers, cache: bool) returns (r: Reply, mc: MountContext?)
      modifies this
      ensures mc != null ==> fresh(mc)
      ensures r == Done ==> mc != null && m.load.Loaded? && mc.remotes == m.load.names
      ensures Outcome(Now(), r) == Mounting(old(Now()), v, p, m, cache, mc)
    {
      mc := null;
      match m.load {
        case NoConfig => return Refused, null;
        case LoadFails(part) =>
          sections := sections + part;
          return Refused, null;
        case Loaded(names) =>
          sections := sections + names;
          if !m.mountOk {
            sections := sections - names;
            assert sections == old(sections) - names;
            return Refused, null;
          }
          mc := new MountContext(names);
          mountContext := mountContext[p := mc];
          if cache {
            stagedVolumes := stagedVolumes[v := Staged(p, mc, false)];
          }
          if m.saveOk {
            saved := saved + {(v, p)};
          }
          return Done, mc;
      }
    }

    /** stageVolume after the cache lookup. */
    method StageUncached(v: string, p: string, a: StageAnswers) returns (r: Reply, ghost mc: MountContext?)
      modifies this
      ensures mc != null ==> fresh(mc)
      ensures Outcome(Now(), r) == StageFrom(old(Now()), v, p, a, mc)
    {
      mc := null;
      if a.prepare.PrepareFails? {
        return Refused, mc;
      }
      if a.prepare.TargetHealthy? {
        if a.healthySecond {
          var ctx := GetMountContext(p);
          stagedVolumes := stagedVolumes[v := Staged(p, ctx, false)];
          return Done, mc;
        }
        if a.detach.DetachFails? {
          return Refused, mc;
        }
        mountContext := mountContext - {p};
        if a.detach.MkdirFails? {
          return Refused, mc;
        }
      }
      r, mc := Mount(v, p, a.mounting, true);
    }

    /** stageVolume */
    method StageVolume(v: string, p: string, a: StageAnswers) returns (r: Reply, ghost mc: MountContext?)
      modifies this
      ensures mc != null ==> fresh(mc)
      ensures Outcome(Now(), r) == Stage(old(Now()), v, p, a, mc)
    {
      mc := null;
      if v in stagedVolumes {
        if stagedVolumes[v].path != p {
          return StagedElsewhere, mc;
        }
        if a.healthyFirst {
          return Done, mc;
        }
        stagedVolumes := stagedVolumes - {v};
        DropContext(p);
        if !a.cleanupOk {
          return Refused, mc;
        }
      }
      r, mc := StageUncached(v, p, a);
    }

    method NodeUnstageVolume(v: string, p: string, a: UnstageAnswers) returns (r: Reply)
      modifies this
      ensures Outcome(Now(), r) == Unstage(old(Now()), v, p, a)
    {
      var mc := GetMountContext(p);
      if mc == null && v in stagedVolumes {
        if stagedVolumes[v].path != p {
          return StagedElsewhere;
        }
        mc := stagedVolumes[v].ctx;
      }
      UnmountVolume(mc);
      if !a.unmountOk {
        return Refused;
      }
      mountContext := mountContext - {p};
      stagedVolumes := stagedVolumes - {v};
      if a.deleteOk {
        saved := saved - {(v, p)};
      }
      return Done;
    }

    method RebuildOrRestage(v: string, p: string, readOnly: bool, a: PublishAnswers)
      returns (r: Reply, ghost mc: MountContext?)
      modifies this
      ensures mc != null ==> fresh(mc)
      ensures Outcome(Now(), r) == Rebuild(old(Now()), v, p, readOnly, a, mc)
    {
      mc := null;
      if a.healthySecond {
        if !a.healthyThird {
          return Refused, mc;
        }
        var ctx := GetMountContext(p);
        stagedVolumes := stagedVolumes[v := Staged(p, ctx, readOnly)];
        return Done, mc;
      }
      DropContext(p);
      if !a.cleanupOk {
        return Refused, mc;
      }
      r, mc := StageVolume(v, p, a.stage);
    }

    /** getStagingPathForPublish */
    method StagingPathForPublish(
      v: string, requested: string, a: PublishAnswers, defaultPath: string)
      returns (p: string)
      ensures p == PublishPath(Now(), v, requested, a, defaultPath)
    {
      if requested != "" { return requested; }
      if v in stagedVolumes { return stagedVolumes[v].path; }
      if a.lookup.Some? { return a.lookup.value; }
      return defaultPath;
    }

    method NodePublishVolumeStaged(v: string, requested: string, readOnly: bool, a: PublishAnswers, defaultPath: string)
      returns (r: Reply, ghost mc: MountContext?)
      modifies this
      ensures mc != null ==> fresh(mc)
      ensures Outcome(Now(), r)
              == Publish(old(Now()), v, PublishPath(old(Now()), v, requested, a, defaultPath), readOnly, a, mc)
    {
      mc := null;
      var p := StagingPathForPublish(v, requested, a, defaultPath);
      if v !in stagedVolumes || !a.healthyFirst {
        if !a.healthyFirst {
          stagedVolumes := stagedVolumes - {v};
        }
        if !a.stageLock {
          return Refused, mc;
        }
        r, mc := RebuildOrRestage(v, p, readOnly, a);
        if r != Done {
          return;
        }
      }
      if a.prepare.PrepareFails? || (a.prepare.TargetFresh? && !a.bindOk) {
        return Refused, mc;
      }
      return Done, mc;
    }

    method RemountState(v: string, p: string, a: RemountAnswers) returns (r: Reply, ghost mc: MountContext?)
      modifies this
      ensures mc != null ==> fresh(mc)
      ensures Outcome(Now(), r) == Remount(old(Now()), v, p, staging && IsLikelyStagingPath(p), a, mc)
    {
      mc := null;
      if a.prepare.PrepareFails? {
        return Refused, mc;
      }
      if a.prepare.TargetHealthy? {
        var ctx := GetMountContext(p);
        if staging && IsLikelyStagingPath(p) {
          stagedVolumes := stagedVolumes[v := Staged(p, ctx, false)];
          return Done, mc;
        }
        if ctx != null {
          return Done, mc;
        }
        if !a.detach.Detached? {
          return Refused, mc;
        }
      }
      if a.stillMounted {
        DropContext(p);
        if !a.mkdirOk {
          return Refused, mc;
        }
      }
      r, mc := Mount(v, p, a.mounting, staging && IsLikelyStagingPath(p));
    }

    /** RemountAllStates at boot, over the loaded states in whatever order they are listed. */
    method RemountAllStates(states: seq<SavedState>, ghost owners: Owners) returns (failed: nat)
      requires Sound(Now(), owners) && stagedVolumes == map[] && DistinctStates(states, owners)
      modifies this
      ensures Sound(Now(), owners)
      ensures failed == 0 ==> forall st | st in states :: Served(Now(), st)
    {
      failed := 0;
      for n := 0 to |states|
        invariant Sound(Now(), owners) && CachedAmong(Now(), states[..n])
        invariant failed == 0 ==> forall k | 0 <= k < n :: Served(Now(), states[k])
      {
        ghost var w := Now();
        var st := states[n];
        var r, mc := RemountState(st.v, st.p, st.answers);
        ghost var cache := staging && IsLikelyStagingPath(st.p);
        NextUncached(w, states, n, owners);
        UncachedSound(w, st.v, st.p, cache, st.answers, mc, owners);
        RemountServes(w, st, cache, mc);
        PathsDiffer(states, n, owners);
        RemountCaches(w, st.v, st.p, cache, st.answers, mc);
        CachedAmongMore(w, Now(), states, n);
        if r != Done {
          failed := failed + 1;
        }
      }
    }

    method Serve(request: Request, defaultPath: string, ghost owners: Owners)
      returns (r: Reply, ghost mc: MountContext?)
      requires Sound(Now(), owners) && PathsOwned(request, defaultPath, owners)
      modifies this
      ensures mc != null ==> fresh(mc)
      ensures Outcome(Now(), r) == Handle(old(Now()), request, defaultPath, mc)
      ensures Sound(Now(), owners)
    {
      ghost var w := Now();
      match request {
        case StageRequest(v, p, a) => r, mc := StageVolume(v, p, a);
        case UnstageRequest(v, p, a) =>
          mc := null;
          r := NodeUnstageVolume(v, p, a);
        case PublishRequest(v, requested, readOnly, a) =>
          r, mc := NodePublishVolumeStaged(v, requested, readOnly, a, defaultPath);
      }
      HandleSound(w, request, defaultPath, mc, owners);
    }
  }
}
