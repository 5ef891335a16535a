/** Direct mode: what a reaper leaves behind when it frees the key of an attempt whose caller has gone. */
module MountReapers {
  import opened MountLifecycle
  import opened MountSafety
  import opened MountOutcomes
  import opened MountVolumes
  import opened MountSections

  /**
   * In a steady run every section of the attempt that is still loaded when its key is about to be freed belongs to
   * another call at work, another reaper or a stored context.
   */
  lemma ReaperLeavesToOthers(plan: Plan, s: State, es: seq<Event>, t: State, id: nat, x: string)
    requires GoodPlan(plan) && Booted(s, plan) && SectionsBooted(plan, s)
    requires PlannedRun(plan, s, es, t) && SteadyEvents(plan, s, es)
    requires ReaperAt(t, id, Releasing) && x in t.reapers[id].remotes && x in t.sections
    ensures exists k :: Keeps(plan, t, k, x) && k != ByHandler(id) && k != ByReaper(id)
  {
    BootedKept(plan, s);
    RunSectionsKept(plan, s, es, t);
    assert Kept(plan, t, x) && CallFits(t, id);
    var k :| Keeps(plan, t, k, x);
    assert k != ByHandler(id) && k != ByReaper(id);
  }

  // ---------------------------------------------------------------- one target per volume

  predicate OneTargetPerVolume(plan: Plan) {
    forall a, b | a in plan.volumeAt && b in plan.volumeAt && plan.volumeAt[a] == plan.volumeAt[b] :: a == b
  }

  ghost predicate ReapedClean(s: State, id: nat) {
    ReaperAt(s, id, Releasing) ==> s.reapers[id].remotes !! s.sections
  }

  ghost predicate ReapersClean(s: State) {
    forall id :: ReapedClean(s, id)
  }

  lemma ReaperNamed(plan: Plan, s: State, id: nat)
    requires Steady(plan, s) && id in s.reapers
    ensures id in s.handlers && s.reapers[id].req == s.handlers[id].req && Planned(plan, s.reapers[id].req)
    ensures s.reapers[id].remotes == NamesAt(plan, s.reapers[id].req.target)
  {
    assert CallFits(s, id) && HandlerNamed(plan, s, id);
  }

  /** A call that loads sections is not at work for the volume of a reaper that is about to free its key. */
  lemma LoaderOfAnother(plan: Plan, s: State, id: nat, loader: nat)
    requires Steady(plan, s) && OneTargetPerVolume(plan) && ReaperAt(s, id, Releasing) && At(s, loader, Load)
    ensures Planned(plan, s.handlers[loader].req) && s.handlers[loader].req.volume != s.reapers[id].req.volume
  {
    ReaperNamed(plan, s, id);
    assert CallFits(s, loader) && Planned(plan, s.handlers[loader].req);
    if s.handlers[loader].req.volume == s.reapers[id].req.volume {
      OneOwnerPerTarget(plan, s, HandlerOwner(loader), ReaperOwner(id));
    }
  }

  lemma NotItsName(plan: Plan, s: State, id: nat, loader: nat, x: string)
    requires DisjointNames(plan) && Steady(plan, s) && OneTargetPerVolume(plan)
    requires ReaperAt(s, id, Releasing) && At(s, loader, Load) && x in s.reapers[id].remotes
    ensures x !in NamesAt(plan, s.handlers[loader].req.target)
  {
    ReaperNamed(plan, s, id);
    LoaderOfAnother(plan, s, id, loader);
  }

  /** What a step adds to the loaded sections. */
  lemma AddedByLoad(plan: Plan, s: State, e: Event, x: string)
    requires Steady(plan, s) && Enabled(s, e) && StableNames(plan, s, e)
    requires x !in s.sections && x in Apply(s, e).sections
    ensures e.PublishEvent? && At(s, e.id, Load) && x in NamesAt(plan, s.handlers[e.id].req.target)
  {
    Touches(plan, s, e);
  }

  lemma StillClean(plan: Plan, s: State, e: Event, id: nat, x: string)
    requires DisjointNames(plan) && OneTargetPerVolume(plan) && Steady(plan, s)
    requires Enabled(s, e) && StableNames(plan, s, e)
    requires ReaperAt(s, id, Releasing) && x in s.reapers[id].remotes && x !in s.sections
    ensures x !in Apply(s, e).sections
  {
    if x in Apply(s, e).sections {
      AddedByLoad(plan, s, e, x);
      NotItsName(plan, s, id, e.id, x);
    }
  }

  /** Where a reaper comes from that is about to free its key. */
  lemma ReleasingBefore(s: State, e: Event, id: nat)
    requires Enabled(s, e) && ReaperAt(Apply(s, e), id, Releasing)
    ensures id in s.reapers && Apply(s, e).reapers[id].remotes == s.reapers[id].remotes
    ensures ReaperAt(s, id, Releasing) || e == ReapEvent(id, ReapDrop)
  {
    match e {
      case PublishEvent(call, step) => PublishReleasing(s, call, step, id);
      case ReapEvent(call, step) => ReapReleasing(s, call, step, id);
      case _ =>
    }
  }

  lemma ReapReleasing(s: State, call: nat, step: ReapStep, id: nat)
    requires CanReap(s, call, step) && ReaperAt(DoReap(s, call, step), id, Releasing)
    ensures id in s.reapers && DoReap(s, call, step).reapers[id].remotes == s.reapers[id].remotes
    ensures ReaperAt(s, id, Releasing) || (call == id && step.ReapDrop?)
  {
  }

  lemma PublishReleasing(s: State, call: nat, step: PublishStep, id: nat)
    requires CanPublish(s, call, step) && ReaperAt(DoPublish(s, call, step), id, Releasing)
    ensures id in s.reapers && DoPublish(s, call, step).reapers[id] == s.reapers[id]
  {
  }

  lemma ReapersCleanKept(plan: Plan, s: State, e: Event)
    requires DisjointNames(plan) && OneTargetPerVolume(plan) && Steady(plan, s) && ReapersClean(s)
    requires Enabled(s, e) && StableNames(plan, s, e)
    ensures ReapersClean(Apply(s, e))
  {
    var t := Apply(s, e);
    forall id ensures ReapedClean(t, id) {
      if ReaperAt(t, id, Releasing) {
        ReleasingBefore(s, e, id);
        assert ReapedClean(s, id);
        if ReaperAt(s, id, Releasing) {
          forall x | x in t.reapers[id].remotes ensures x !in t.sections {
            StillClean(plan, s, e, id, x);
          }
        }
      }
    }
  }

  ghost predicate StableAlong(plan: Plan, s: State, es: seq<Event>)
    decreases |es|
  {
    es == [] || (Enabled(s, es[0]) && StableNames(plan, s, es[0]) && StableAlong(plan, Apply(s, es[0]), es[1..]))
  }

  lemma {:induction false} RunReapersClean(plan: Plan, s: State, es: seq<Event>, t: State)
    requires DisjointNames(plan) && OneTargetPerVolume(plan) && Steady(plan, s) && ReapersClean(s)
    requires PlannedRun(plan, s, es, t) && StableAlong(plan, s, es)
    ensures Steady(plan, t) && ReapersClean(t)
    decreases |es|
  {
    if es != [] {
      SteadyKept(plan, s, es[0]);
      ReapersCleanKept(plan, s, es[0]);
      RunReapersClean(plan, Apply(s, es[0]), es[1..], t);
    }
  }

  lemma RunOfPlan(plan: Plan, s: State, es: seq<Event>, t: State)
    requires PlannedRun(plan, s, es, t)
    ensures Run(s, es, t)
    decreases |es|
  {
    if es != [] {
      RunOfPlan(plan, Apply(s, es[0]), es[1..], t);
    }
  }

  /**
   * With one target per volume: when a reaper has detached its mount, neither that mount nor any of its sections is
   * left when the key is freed, however calls for other volumes interleave and even if their loads are cut short.
   */
  lemma NothingLeftByReaper(plan: Plan, s: State, es: seq<Event>, t: State, id: nat)
    requires DisjointNames(plan) && OneTargetPerVolume(plan) && Booted(s, plan)
    requires forall c | c in s.contexts :: s.contexts[c].remotes == NamesAt(plan, c)
    requires PlannedRun(plan, s, es, t) && StableAlong(plan, s, es) && ReaperAt(t, id, Releasing)
    ensures t.reapers[id].remotes !! t.sections
    ensures id !in t.undetached ==> forall row | row in t.mounts :: row.source != Attempt(id)
  {
    BootedSteady(plan, s);
    RunReapersClean(plan, s, es, t);
    assert ReapedClean(t, id);
    RunOfPlan(plan, s, es, t);
    ReapedBeforeFree(s, es, t, id);
  }
}
