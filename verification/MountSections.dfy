/** Direct mode: which calls and contexts the loaded config sections belong to, and when they stay loaded. */
module MountSections {
  import opened Text
  import opened MountLifecycle
  import opened MountSafety
  import opened MountOutcomes
  import opened MountVolumes
  import ConfigIsolation

  // ---------------------------------------------------------------- stable section names

  function NamesAt(plan: Plan, target: string): set<string> {
    if target in plan.volumeAt && plan.volumeAt[target] in plan.names then plan.names[plan.volumeAt[target]] else {}
  }

  /** A volume's config has the same section names whenever it is loaded; a load cut short sets some of them. */
  predicate StableNames(plan: Plan, s: State, e: Event)
    requires Enabled(s, e)
  {
    e.PublishEvent? ==>
      match e.publish
      case LoadConfig(names) => names == NamesAt(plan, s.handlers[e.id].req.target)
      case LoadFails(part) => part <= NamesAt(plan, s.handlers[e.id].req.target)
      case _ => true
  }

  /** A config load either succeeds or fails before it has set anything. */
  predicate WholeLoad(e: Event) {
    e.PublishEvent? && e.publish.LoadFails? ==> e.publish.part == {}
  }

  ghost predicate SteadyEvents(plan: Plan, s: State, es: seq<Event>)
    decreases |es|
  {
    es == []
    || (Enabled(s, es[0]) && StableNames(plan, s, es[0]) && WholeLoad(es[0])
        && SteadyEvents(plan, Apply(s, es[0]), es[1..]))
  }

  /** The sections a publish works with are those of its volume. */
  ghost predicate HandlerNamed(plan: Plan, s: State, id: nat)
    requires id in s.handlers
  {
    var h := s.handlers[id];
    id in s.attempts || h.pc.Spawn? ==> h.remotes == NamesAt(plan, h.req.target)
  }

  ghost predicate Named(plan: Plan, s: State) {
    && (forall id | id in s.handlers :: HandlerNamed(plan, s, id))
    && (forall t | t in s.contexts :: s.contexts[t].remotes == NamesAt(plan, t))
  }

  lemma OwnHandlerNamed(plan: Plan, s: State, id: nat, step: PublishStep)
    requires Fits(s) && Named(plan, s) && CanPublish(s, id, step) && StableNames(plan, s, PublishEvent(id, step))
    ensures HandlerNamed(plan, DoPublish(s, id, step), id)
  {
    assert CallFits(s, id);
    assert id in s.handlers ==> HandlerNamed(plan, s, id);
    PublishMoves(s, id, step);
    NextRemotes(s, id, step);
  }

  lemma NextRemotes(s: State, id: nat, step: PublishStep)
    requires CanPublish(s, id, step)
    ensures var h := NextHandler(s, id, step);
            && (id in s.handlers ==> h.req == s.handlers[id].req)
            && h.remotes == (if step.LoadConfig? then step.names
                             else if id in s.handlers then s.handlers[id].remotes
                             else {})
            && (h.pc.Spawn? ==> step.LoadConfig?)
            && (id in PublishAttempts(s, id, step) ==> id in s.attempts || step.SpawnMount?)
  {
  }

  lemma PublishNamed(plan: Plan, s: State, id: nat, step: PublishStep)
    requires Fits(s) && Named(plan, s) && CanPublish(s, id, step) && StableNames(plan, s, PublishEvent(id, step))
    ensures Named(plan, DoPublish(s, id, step))
  {
    var t := DoPublish(s, id, step);
    PublishMovesOne(s, id, step);
    OwnHandlerNamed(plan, s, id, step);
    forall j | j in t.handlers ensures HandlerNamed(plan, t, j) {
      assert j in s.handlers ==> HandlerNamed(plan, s, j);
    }
    if step.StoreContext? {
      assert CallFits(s, id) && HandlerNamed(plan, s, id);
    }
  }

  lemma NamedLeft(plan: Plan, s: State, t: State)
    requires Named(plan, s) && HandlersLeft(s, t)
    ensures Named(plan, t)
  {
    forall j | j in t.handlers ensures HandlerNamed(plan, t, j) {
      assert HandlerNamed(plan, s, j);
    }
  }

  lemma NamedKept(plan: Plan, s: State, e: Event)
    requires Fits(s) && Named(plan, s) && Enabled(s, e) && StableNames(plan, s, e)
    ensures Named(plan, Apply(s, e))
  {
    if e.PublishEvent? {
      PublishNamed(plan, s, e.id, e.publish);
    } else {
      OthersLeaveHandlers(s, e);
      NamedLeft(plan, s, Apply(s, e));
    }
  }

  // ---------------------------------------------------------------- unpublish works on the context it captured

  ghost predicate CapturedFits(s: State, id: nat)
    requires id in s.unpublishers
  {
    var u := s.unpublishers[id];
    u.pc.UGraceful? || u.pc.UDrop? ==>
      u.captured.Some? && u.req.target in s.contexts && u.captured.value == s.contexts[u.req.target]
  }

  ghost predicate Captured(s: State) {
    forall id | id in s.unpublishers :: CapturedFits(s, id)
  }

  /** The actor a step that rewrites or removes the context of `target` belongs to. */
  function Toucher(s: State, e: Event): Option<Owner> {
    match e
    case PublishEvent(id, step) => if step.StoreContext? then Some(HandlerOwner(id)) else None
    case UnpublishEvent(id, step) => if step.Forget? then Some(UnpublisherOwner(id)) else None
    case _ => None
  }

  lemma ContextTouched(s: State, e: Event, target: string)
    requires Fits(s) && Enabled(s, e)
    ensures Toucher(s, e).Some? ==> Owns(s, Toucher(s, e).value)
    ensures Toucher(s, e).None? || TargetOf(s, Toucher(s, e).value) != target ==>
              && (target in s.contexts <==> target in Apply(s, e).contexts)
              && (target in s.contexts ==> s.contexts[target] == Apply(s, e).contexts[target])
  {
    match e {
      case PublishEvent(id, step) => assert CallFits(s, id);
      case _ =>
    }
  }

  lemma CapturedKept(plan: Plan, s: State, e: Event)
    requires Reported(plan, s) && Captured(s) && Enabled(s, e)
    ensures Captured(Apply(s, e))
  {
    var t := Apply(s, e);
    forall id | id in t.unpublishers ensures CapturedFits(t, id) {
      if e.UnpublishEvent? && e.id == id {
        assert id in s.unpublishers ==> CapturedFits(s, id);
        OwnCaptured(s, id, e.unpublish);
      } else {
        OtherCaptured(plan, s, e, id);
      }
    }
  }

  lemma OwnCaptured(s: State, id: nat, step: UnpublishStep)
    requires Captured(s) && CanUnpublish(s, id, step)
    ensures CapturedFits(DoUnpublish(s, id, step), id)
  {
    assert id in s.unpublishers ==> CapturedFits(s, id);
  }

  lemma SameUnpublisher(s: State, e: Event, id: nat)
    requires Enabled(s, e) && id in Apply(s, e).unpublishers && !(e.UnpublishEvent? && e.id == id)
    ensures id in s.unpublishers && Apply(s, e).unpublishers[id] == s.unpublishers[id]
  {
    match e {
      case PublishEvent(i, step) => PublishMovesOne(s, i, step);
      case MountEvent(i, step) => MountMovesOne(s, i, step);
      case ReapEvent(i, step) => ReapMovesOne(s, i, step);
      case UnpublishEvent(i, step) => UnpublishMovesOne(s, i, step);
      case RowVanishes(_) =>
    }
  }

  lemma OtherCaptured(plan: Plan, s: State, e: Event, id: nat)
    requires Reported(plan, s) && Captured(s) && Enabled(s, e) && id in Apply(s, e).unpublishers
    requires !(e.UnpublishEvent? && e.id == id)
    ensures CapturedFits(Apply(s, e), id)
  {
    SameUnpublisher(s, e, id);
    assert CapturedFits(s, id);
    var u := s.unpublishers[id];
    ContextTouched(s, e, u.req.target);
    if (u.pc.UGraceful? || u.pc.UDrop?) && Toucher(s, e).Some? {
      NotSameTarget(plan, s, UnpublisherOwner(id), Toucher(s, e).value);
    }
  }

  lemma NotSameTarget(plan: Plan, s: State, a: Owner, b: Owner)
    requires Reported(plan, s) && a != b && Owns(s, a) && Owns(s, b)
    ensures TargetOf(s, a) != TargetOf(s, b)
  {
    if TargetOf(s, a) == TargetOf(s, b) {
      OneOwnerPerTarget(plan, s, a, b);
    }
  }

  // ---------------------------------------------------------------- every loaded section is accounted for

  /** An attempt still at work, a reaper that has not dropped it yet, or a stored context. */
  datatype Keeper = ByHandler(id: nat) | ByReaper(id: nat) | ByContext(target: string)

  predicate HandlerKeeps(h: Handler) {
    h.pc.Spawn? || h.pc.Wait? || h.pc.Store? || (h.pc.DeferCleanup? && !h.mountSuccess && !h.handOff)
  }

  predicate ReaperKeeps(r: Reaper) {
    r.pc.Receiving? || r.pc.Detaching? || r.pc.Dropping?
  }

  /** An unpublish that has dropped the sections of this target's context is about to forget it. */
  predicate Forgetting(plan: Plan, s: State, target: string) {
    && target in plan.volumeAt && KeyAt(plan, target) in s.holder && s.holder[KeyAt(plan, target)].UnpublisherOwner?
    && var id := s.holder[KeyAt(plan, target)].id;
       id in s.unpublishers && (s.unpublishers[id].pc.UDetach? || s.unpublishers[id].pc.UForget?)
  }

  predicate Keeps(plan: Plan, s: State, k: Keeper, section: string) {
    match k
    case ByHandler(id) => id in s.handlers && HandlerKeeps(s.handlers[id]) && section in s.handlers[id].remotes
    case ByReaper(id) => id in s.reapers && ReaperKeeps(s.reapers[id]) && section in s.reapers[id].remotes
    case ByContext(target) =>
      target in s.contexts && section in s.contexts[target].remotes && !Forgetting(plan, s, target)
  }

  ghost predicate Kept(plan: Plan, s: State, section: string) {
    exists k :: Keeps(plan, s, k, section)
  }

  ghost predicate SectionsKept(plan: Plan, s: State) {
    forall x | x in s.sections :: Kept(plan, s, x)
  }

  lemma PublishKeeps(plan: Plan, s: State, id: nat, step: PublishStep, k: Keeper, x: string)
    requires GoodPlan(plan) && Reported(plan, s) && Named(plan, s) && CanPublish(s, id, step)
    requires Keeps(plan, s, k, x) && x in DoPublish(s, id, step).sections
    ensures Kept(plan, DoPublish(s, id, step), x)
  {
    var t := DoPublish(s, id, step);
    PublishMovesOne(s, id, step);
    assert CallFits(s, id);
    match k {
      case ByHandler(j) =>
        if j != id {
          assert Keeps(plan, t, k, x);
        } else {
          HandlerPassesOn(plan, s, id, step, x);
        }
      case ByReaper(j) => assert Keeps(plan, t, k, x);
      case ByContext(target) =>
        PublishNeverForgets(plan, s, id, step, target);
        if step.StoreContext? && target == s.handlers[id].req.target {
          assert ContextReported(plan, s, target) && HandlerNamed(plan, s, id);
          assert Keeps(plan, t, k, x);
        } else {
          assert Keeps(plan, t, k, x);
        }
    }
  }

  /** A publish step does not start forgetting a context. */
  lemma PublishNeverForgets(plan: Plan, s: State, id: nat, step: PublishStep, target: string)
    requires CanPublish(s, id, step) && !Forgetting(plan, s, target)
    ensures !Forgetting(plan, DoPublish(s, id, step), target)
  {
  }

  lemma StoredKeeps(plan: Plan, s: State, id: nat, x: string)
    requires GoodPlan(plan) && Reported(plan, s) && CanPublish(s, id, StoreContext)
    requires Keeps(plan, s, ByHandler(id), x)
    ensures Keeps(plan, DoPublish(s, id, StoreContext), ByContext(s.handlers[id].req.target), x)
  {
    assert CallFits(s, id) && OwnerListed(s, HandlerOwner(id));
    PlannedKey(plan, s, HandlerOwner(id));
  }

  lemma HandlerPassesOn(plan: Plan, s: State, id: nat, step: PublishStep, x: string)
    requires GoodPlan(plan) && Reported(plan, s) && CanPublish(s, id, step)
    requires Keeps(plan, s, ByHandler(id), x) && x in DoPublish(s, id, step).sections
    ensures Kept(plan, DoPublish(s, id, step), x)
  {
    var t := DoPublish(s, id, step);
    if step.StoreContext? {
      StoredKeeps(plan, s, id, x);
    } else if step.Abandon? {
      assert Keeps(plan, t, ByReaper(id), x);
    } else {
      assert CallFits(s, id);
      assert Keeps(plan, t, ByHandler(id), x);
    }
  }

  lemma PublishSectionsKept(plan: Plan, s: State, id: nat, step: PublishStep)
    requires GoodPlan(plan) && Reported(plan, s) && Named(plan, s) && SectionsKept(plan, s)
    requires CanPublish(s, id, step) && WholeLoad(PublishEvent(id, step))
    ensures SectionsKept(plan, DoPublish(s, id, step))
  {
    var t := DoPublish(s, id, step);
    forall x | x in t.sections ensures Kept(plan, t, x) {
      if x in s.sections {
        assert Kept(plan, s, x);
        var k :| Keeps(plan, s, k, x);
        PublishKeeps(plan, s, id, step, k, x);
      } else {
        assert Keeps(plan, t, ByHandler(id), x);
      }
    }
  }

  lemma ReapSectionsKept(plan: Plan, s: State, id: nat, step: ReapStep)
    requires Reported(plan, s) && SectionsKept(plan, s) && CanReap(s, id, step)
    ensures SectionsKept(plan, DoReap(s, id, step))
  {
    var t := DoReap(s, id, step);
    ReapMovesOne(s, id, step);
    forall x | x in t.sections ensures Kept(plan, t, x) {
      assert Kept(plan, s, x);
      var k :| Keeps(plan, s, k, x);
      assert k.ByContext? ==> !Forgetting(plan, t, k.target);
      assert Keeps(plan, t, k, x);
    }
  }

  lemma UnpublishSectionsKept(plan: Plan, s: State, id: nat, step: UnpublishStep)
    requires GoodPlan(plan) && Reported(plan, s) && Captured(s) && SectionsKept(plan, s) && CanUnpublish(s, id, step)
    ensures SectionsKept(plan, DoUnpublish(s, id, step))
  {
    var t := DoUnpublish(s, id, step);
    UnpublishMovesOne(s, id, step);
    forall x | x in t.sections ensures Kept(plan, t, x) {
      assert Kept(plan, s, x);
      var k :| Keeps(plan, s, k, x);
      if k.ByContext? {
        UnpublishKeepsContext(plan, s, id, step, k.target, x);
      }
      assert Keeps(plan, t, k, x);
    }
  }

  lemma UnpublishKeepsContext(plan: Plan, s: State, id: nat, step: UnpublishStep, target: string, x: string)
    requires GoodPlan(plan) && Reported(plan, s) && Captured(s) && CanUnpublish(s, id, step)
    requires Keeps(plan, s, ByContext(target), x) && x in DoUnpublish(s, id, step).sections
    ensures Keeps(plan, DoUnpublish(s, id, step), ByContext(target), x)
  {
    assert ContextReported(plan, s, target);
    if id in s.unpublishers {
      assert Planned(plan, s.unpublishers[id].req);
      if s.unpublishers[id].req.target == target {
        OwnContextKept(plan, s, id, step, target, x);
      } else {
        KeysApart(plan, s.unpublishers[id].req.target, target);
        OtherContextKept(plan, s, id, step, target, x);
      }
    } else {
      assert KeyListed(s, KeyAt(plan, target));
    }
  }

  lemma OwnContextKept(plan: Plan, s: State, id: nat, step: UnpublishStep, target: string, x: string)
    requires Reported(plan, s) && Captured(s) && CanUnpublish(s, id, step) && id in s.unpublishers
    requires s.unpublishers[id].req.target == target && Planned(plan, s.unpublishers[id].req)
    requires Keeps(plan, s, ByContext(target), x) && x in DoUnpublish(s, id, step).sections
    ensures Keeps(plan, DoUnpublish(s, id, step), ByContext(target), x)
  {
    assert CapturedFits(s, id);
    assert OwnerListed(s, UnpublisherOwner(id));
  }

  lemma OtherContextKept(plan: Plan, s: State, id: nat, step: UnpublishStep, target: string, x: string)
    requires Reported(plan, s) && CanUnpublish(s, id, step) && id in s.unpublishers && target in plan.volumeAt
    requires s.unpublishers[id].req.target != target && LockKey(s.unpublishers[id].req) != KeyAt(plan, target)
    requires Keeps(plan, s, ByContext(target), x)
    ensures Keeps(plan, DoUnpublish(s, id, step), ByContext(target), x)
  {
    assert KeyListed(s, KeyAt(plan, target));
  }

  lemma SectionsKeptKept(plan: Plan, s: State, e: Event)
    requires GoodPlan(plan) && Reported(plan, s) && Captured(s) && Named(plan, s) && SectionsKept(plan, s)
    requires Enabled(s, e) && WholeLoad(e)
    ensures SectionsKept(plan, Apply(s, e))
  {
    match e {
      case PublishEvent(id, step) => PublishSectionsKept(plan, s, id, step);
      case ReapEvent(id, step) => ReapSectionsKept(plan, s, id, step);
      case UnpublishEvent(id, step) => UnpublishSectionsKept(plan, s, id, step);
      case _ => MountSectionsKept(plan, s, e);
    }
  }

  lemma MountSectionsKept(plan: Plan, s: State, e: Event)
    requires SectionsKept(plan, s) && Enabled(s, e) && (e.MountEvent? || e.RowVanishes?)
    ensures SectionsKept(plan, Apply(s, e))
  {
    var t := Apply(s, e);
    forall x | x in t.sections ensures Kept(plan, t, x) {
      assert Kept(plan, s, x);
      var k :| Keeps(plan, s, k, x);
      assert Keeps(plan, t, k, x);
    }
  }

  /**
   * A config load that fails part-way leaks exactly the sections nobody else accounts for: its early return runs
   * no cleanup.
   */
  lemma PartialLoadIff(plan: Plan, s: State, id: nat, part: set<string>)
    requires GoodPlan(plan) && Reported(plan, s) && Named(plan, s) && SectionsKept(plan, s)
    requires CanPublish(s, id, LoadFails(part))
    ensures SectionsKept(plan, DoPublish(s, id, LoadFails(part))) <==> forall x | x in part :: Kept(plan, s, x)
  {
    var t := DoPublish(s, id, LoadFails(part));
    forall x | x in t.sections ensures Kept(plan, s, x) <==> Kept(plan, t, x) {
      if Kept(plan, s, x) {
        var k :| Keeps(plan, s, k, x);
        PublishKeeps(plan, s, id, LoadFails(part), k, x);
      }
      if Kept(plan, t, x) {
        var k :| Keeps(plan, t, k, x);
        assert Keeps(plan, s, k, x);
      }
    }
  }

  // ---------------------------------------------------------------- volumes do not touch each other's sections

  ghost predicate DisjointNames(plan: Plan) {
    forall v, w | v in plan.names && w in plan.names && v != w :: plan.names[v] !! plan.names[w]
  }

  /** With default prefixes the section names of different volumes are disjoint, whatever their configs. */
  lemma DefaultNamesDisjoint(
    plan: Plan, digests: map<string, string>, configs: map<string, ConfigIsolation.Config>)
    requires forall v | v in plan.names :: v in digests && v in configs && |digests[v]| >= ConfigIsolation.HASH_LENGTH
    requires forall v, w | v in plan.names && w in plan.names && v != w ::
               digests[v][..ConfigIsolation.HASH_LENGTH] != digests[w][..ConfigIsolation.HASH_LENGTH]
    requires forall v | v in plan.names ::
               plan.names[v] == ConfigIsolation.IsolatedConfig(
                                  configs[v], ConfigIsolation.RemotePrefixForVolume(digests[v], "") + "-").Keys
    ensures DisjointNames(plan)
  {
    forall v, w | v in plan.names && w in plan.names && v != w ensures plan.names[v] !! plan.names[w] {
      ConfigIsolation.DefaultPrefixesDisjoint(digests[v], digests[w]);
    }
  }

  predicate CutShort(e: Event) {
    e.PublishEvent? && e.publish.LoadFails?
  }

  /** What a touching step loads or drops: all names of its volume, or with a load cut short some. */
  ghost predicate TouchIsOf(plan: Plan, s: State, e: Event)
    requires Enabled(s, e)
  {
    var t := Apply(s, e);
    match TouchOf(s, e)
    case None => t.sections == s.sections
    case Some(Touch(v, loads)) =>
      var names := if v in plan.names then plan.names[v] else {};
      if loads
      then s.sections <= t.sections <= s.sections + names && (!CutShort(e) ==> names <= t.sections)
      else t.sections == s.sections - names
  }

  lemma PublishTouches(plan: Plan, s: State, id: nat, step: PublishStep)
    requires Reported(plan, s) && Named(plan, s) && CanPublish(s, id, step)
        && StableNames(plan, s, PublishEvent(id, step))
    ensures TouchIsOf(plan, s, PublishEvent(id, step))
  {
    assert DoPublish(s, id, step).sections == PublishSections(s, id, step);
    if id in s.handlers {
      HandlerNames(plan, s, id);
    }
  }

  /** The names of a call's volume, which a call that failed is about to drop. */
  lemma HandlerNames(plan: Plan, s: State, id: nat)
    requires Reported(plan, s) && Named(plan, s) && id in s.handlers
    ensures var h := s.handlers[id];
            && NamesAt(plan, h.req.target) == (if h.req.volume in plan.names then plan.names[h.req.volume] else {})
            && (h.pc.DeferCleanup? ==> h.remotes == NamesAt(plan, h.req.target))
  {
    assert CallFits(s, id) && HandlerNamed(plan, s, id) && Planned(plan, s.handlers[id].req);
  }

  lemma ReapTouches(plan: Plan, s: State, id: nat, step: ReapStep)
    requires Reported(plan, s) && Named(plan, s) && CanReap(s, id, step)
    ensures TouchIsOf(plan, s, ReapEvent(id, step))
  {
    assert CallFits(s, id) && HandlerNamed(plan, s, id) && Planned(plan, s.handlers[id].req);
  }

  lemma UnpublishTouches(plan: Plan, s: State, id: nat, step: UnpublishStep)
    requires Reported(plan, s) && Captured(s) && Named(plan, s) && CanUnpublish(s, id, step)
    ensures TouchIsOf(plan, s, UnpublishEvent(id, step))
  {
    assert id in s.unpublishers ==> CapturedFits(s, id) && Planned(plan, s.unpublishers[id].req);
  }

  lemma Touches(plan: Plan, s: State, e: Event)
    requires Reported(plan, s) && Captured(s) && Named(plan, s) && Enabled(s, e) && StableNames(plan, s, e)
    ensures TouchIsOf(plan, s, e)
  {
    match e {
      case PublishEvent(id, step) => PublishTouches(plan, s, id, step);
      case ReapEvent(id, step) => ReapTouches(plan, s, id, step);
      case UnpublishEvent(id, step) => UnpublishTouches(plan, s, id, step);
      case _ =>
    }
  }

  // ---------------------------------------------------------------- whole runs

  ghost predicate Steady(plan: Plan, s: State) {
    Reported(plan, s) && Captured(s) && Named(plan, s)
  }

  /** After boot the contexts list the names of their volumes. */
  lemma BootedSteady(plan: Plan, s: State)
    requires Booted(s, plan) && forall t | t in s.contexts :: s.contexts[t].remotes == NamesAt(plan, t)
    ensures Steady(plan, s)
  {
    BootedReported(plan, s);
  }

  lemma SteadyKept(plan: Plan, s: State, e: Event)
    requires Steady(plan, s) && Enabled(s, e) && Follows(plan, e) && StableNames(plan, s, e)
    ensures Steady(plan, Apply(s, e))
  {
    ReportedKept(plan, s, e);
    CapturedKept(plan, s, e);
    NamedKept(plan, s, e);
  }

  lemma {:induction false} RunSectionsKept(plan: Plan, s: State, es: seq<Event>, t: State)
    requires GoodPlan(plan) && Steady(plan, s) && SectionsKept(plan, s)
    requires PlannedRun(plan, s, es, t) && SteadyEvents(plan, s, es)
    ensures Steady(plan, t) && SectionsKept(plan, t)
    decreases |es|
  {
    if es != [] {
      SteadyKept(plan, s, es[0]);
      SectionsKeptKept(plan, s, es[0]);
      RunSectionsKept(plan, Apply(s, es[0]), es[1..], t);
    }
  }

  ghost predicate Quiet(s: State) {
    forall o :: !Owns(s, o)
  }

  /** Sections and contexts after a boot: every loaded section belongs to a context. */
  ghost predicate SectionsBooted(plan: Plan, s: State) {
    && (forall t | t in s.contexts :: s.contexts[t].remotes == NamesAt(plan, t))
    && (forall x | x in s.sections :: exists t :: t in s.contexts && x in s.contexts[t].remotes)
  }

  lemma BootedKept(plan: Plan, s: State)
    requires Booted(s, plan) && SectionsBooted(plan, s)
    ensures Steady(plan, s) && SectionsKept(plan, s)
  {
    BootedSteady(plan, s);
    forall x | x in s.sections ensures Kept(plan, s, x) {
      var c :| c in s.contexts && x in s.contexts[c].remotes;
      assert Keeps(plan, s, ByContext(c), x);
    }
  }

  /** In a steady run no section is leaked: when nobody is at work each loaded one belongs to a stored context. */
  lemma QuietSections(plan: Plan, s: State, es: seq<Event>, t: State)
    requires GoodPlan(plan) && Booted(s, plan) && SectionsBooted(plan, s)
    requires PlannedRun(plan, s, es, t) && SteadyEvents(plan, s, es) && Quiet(t)
    ensures SectionsBooted(plan, t)
  {
    BootedKept(plan, s);
    RunSectionsKept(plan, s, es, t);
    forall x | x in t.sections ensures exists c :: c in t.contexts && x in t.contexts[c].remotes {
      QuietSection(plan, t, x);
    }
  }

  lemma QuietSection(plan: Plan, t: State, x: string)
    requires Steady(plan, t) && SectionsKept(plan, t) && Quiet(t) && x in t.sections
    ensures exists c :: c in t.contexts && x in t.contexts[c].remotes
  {
    forall id ensures id in t.handlers ==> !HandlerKeeps(t.handlers[id]) {
      assert CallFits(t, id) && !Owns(t, HandlerOwner(id));
    }
    forall id ensures id in t.reapers ==> !ReaperKeeps(t.reapers[id]) {
      assert !Owns(t, ReaperOwner(id));
    }
    assert Kept(plan, t, x);
  }

  // ---------------------------------------------------------------- when the sections of a context are loaded

  /** The last step of a run that touched the volume's sections. */
  ghost function LastTouch(s: State, es: seq<Event>, volume: string): Option<Touch>
    decreases |es|
  {
    if es == [] || !Enabled(s, es[0]) then None
    else
      var later := LastTouch(Apply(s, es[0]), es[1..], volume);
      if later.Some? then later
      else TouchFor(s, es[0], volume)
  }

  /** Each name is loaded if the touch was a load, dropped if it was a drop, and where it was if there was none. */
  predicate LeftBy(touch: Option<Touch>, names: set<string>, before: set<string>, after: set<string>) {
    forall x | x in names :: x in after <==> if touch.Some? then touch.value.loads else x in before
  }

  function TouchFor(s: State, e: Event, volume: string): Option<Touch>
    requires Enabled(s, e)
  {
    if TouchOf(s, e).Some? && TouchOf(s, e).value.volume == volume && !CutShort(e) then TouchOf(s, e) else None
  }

  lemma TouchDecides(plan: Plan, s: State, e: Event, volume: string)
    requires DisjointNames(plan) && volume in plan.names
    requires Steady(plan, s) && Enabled(s, e) && StableNames(plan, s, e) && WholeLoad(e)
    ensures LeftBy(TouchFor(s, e, volume), plan.names[volume], s.sections, Apply(s, e).sections)
  {
    Touches(plan, s, e);
    assert CutShort(e) ==> Apply(s, e).sections == s.sections;
    if TouchOf(s, e).None? || TouchOf(s, e).value.volume != volume {
      assert forall x | x in plan.names[volume] :: x in s.sections <==> x in Apply(s, e).sections;
    }
  }

  /** Over a steady run the sections of a volume are where its last touch left them. */
  lemma {:induction false} LastTouchDecides(plan: Plan, s: State, es: seq<Event>, t: State, volume: string)
    requires DisjointNames(plan) && volume in plan.names && Steady(plan, s)
    requires PlannedRun(plan, s, es, t) && SteadyEvents(plan, s, es)
    ensures LeftBy(LastTouch(s, es, volume), plan.names[volume], s.sections, t.sections)
    decreases |es|
  {
    if es != [] {
      SteadyKept(plan, s, es[0]);
      TouchDecides(plan, s, es[0], volume);
      LastTouchDecides(plan, Apply(s, es[0]), es[1..], t, volume);
    }
  }

  /**
   * The sections of a stored context are loaded exactly when the last step that touched sections of its volume,
   * for this target or another one, was a load, or nothing touched them and they were loaded from the start.
   */
  lemma ContextLoadedIff(plan: Plan, s: State, es: seq<Event>, t: State, target: string)
    requires DisjointNames(plan) && Steady(plan, s) && PlannedRun(plan, s, es, t) && SteadyEvents(plan, s, es)
    requires target in t.contexts && NamesAt(plan, target) != {}
    ensures target in plan.volumeAt
    ensures var last := LastTouch(s, es, plan.volumeAt[target]);
            t.contexts[target].remotes <= t.sections
            <==> if last.Some? then last.value.loads else NamesAt(plan, target) <= s.sections
  {
    RunSteady(plan, s, es, t);
    assert ContextReported(plan, t, target);
    LastTouchDecides(plan, s, es, t, plan.volumeAt[target]);
    var x :| x in NamesAt(plan, target);
  }

  lemma {:induction false} RunSteady(plan: Plan, s: State, es: seq<Event>, t: State)
    requires Steady(plan, s) && PlannedRun(plan, s, es, t) && SteadyEvents(plan, s, es)
    ensures Steady(plan, t)
    decreases |es|
  {
    if es != [] {
      SteadyKept(plan, s, es[0]);
      RunSteady(plan, Apply(s, es[0]), es[1..], t);
    }
  }
}
