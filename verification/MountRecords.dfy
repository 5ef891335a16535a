/** Direct mode: when the saved states match the contexts, over whole runs. */
module MountRecords {
  import opened Text
  import opened MountLifecycle
  import opened MountSafety
  import opened MountOutcomes
  import opened MountSections

  // ---------------------------------------------------------------- saved states and contexts

  /** What the owner of a key is about to do to the saved state. */
  datatype Phase = Settled | Saving | Deleting

  /** A publish saves the state after storing its context, an unpublish deletes it after forgetting the context. */
  function PhaseOf(s: State, key: string): Phase {
    if key !in s.holder then Settled
    else
      match s.holder[key]
      case HandlerOwner(id) => if At(s, id, Persist) then Saving else Settled
      case UnpublisherOwner(id) => if UnpublisherAt(s, id, UDelete) then Deleting else Settled
      case ReaperOwner(_) => Settled
  }

  /** The context is what the last save or delete was about, or is about to be. */
  predicate AgreesAt(plan: Plan, s: State, target: string, saves: bool)
    requires target in plan.volumeAt
  {
    match PhaseOf(s, KeyAt(plan, target))
    case Saving => target in s.contexts
    case Deleting => target !in s.contexts
    case Settled => target in s.contexts <==> saves
  }

  /** A call of SaveState or DeleteState, and whether it succeeded. */
  datatype Write = Write(saves: bool, ok: bool)

  function WriteOf(s: State, e: Event, target: string): Option<Write>
    requires Enabled(s, e)
  {
    match e
    case PublishEvent(id, PersistState(ok)) =>
      if s.handlers[id].req.target == target then Some(Write(true, ok)) else None
    case UnpublishEvent(id, DeleteState(ok)) =>
      if s.unpublishers[id].req.target == target then Some(Write(false, ok)) else None
    case _ => None
  }

  function SavesAfter(w: Option<Write>, before: bool): bool {
    if w.Some? then w.value.saves else before
  }

  /** Saving and deleting the states of these targets succeeds. */
  predicate ApiOk(s: State, e: Event, targets: set<string>)
    requires Enabled(s, e)
  {
    match e
    case PublishEvent(id, step) => step.PersistState? && s.handlers[id].req.target in targets ==> step.ok
    case UnpublishEvent(id, step) => step.DeleteState? && s.unpublishers[id].req.target in targets ==> step.ok
    case _ => true
  }

  lemma PhaseBefore(s: State, id: nat, step: PublishStep)
    requires Fits(s) && Owned(s) && CanPublish(s, id, step) && id in s.handlers
    ensures step.PersistState? ==> PhaseOf(s, LockKey(s.handlers[id].req)) == Saving
    ensures step.StoreContext? ==> PhaseOf(s, LockKey(s.handlers[id].req)) == Settled
  {
    assert CallFits(s, id) && OwnerListed(s, HandlerOwner(id));
  }

  lemma PhaseAfter(s: State, id: nat, step: PublishStep)
    requires Fits(s) && Owned(s) && CanPublish(s, id, step) && (step.StoreContext? || step.PersistState?)
    ensures PhaseOf(DoPublish(s, id, step), LockKey(s.handlers[id].req))
            == if step.StoreContext? then Saving else Settled
  {
    assert CallFits(s, id) && OwnerListed(s, HandlerOwner(id));
  }

  lemma PublishOwnPhase(s: State, id: nat, step: PublishStep)
    requires Fits(s) && Owned(s) && CanPublish(s, id, step) && id in s.handlers
    requires !step.StoreContext? && !step.PersistState?
    ensures PhaseOf(DoPublish(s, id, step), LockKey(s.handlers[id].req)) == PhaseOf(s, LockKey(s.handlers[id].req))
  {
    if PublishLock(s, id, step).Leave? {
      QuietLockPhase(s, id, step);
    } else {
      MovedLockPhase(s, id, step);
    }
  }

  lemma QuietLockPhase(s: State, id: nat, step: PublishStep)
    requires Owned(s) && CanPublish(s, id, step) && id in s.handlers && PublishLock(s, id, step).Leave?
    requires !step.StoreContext? && !step.PersistState?
    ensures PhaseOf(DoPublish(s, id, step), LockKey(s.handlers[id].req)) == PhaseOf(s, LockKey(s.handlers[id].req))
  {
    var key := LockKey(s.handlers[id].req);
    assert KeyListed(s, key) && DoPublish(s, id, step).holder == s.holder;
    PublishMovesOne(s, id, step);
  }

  /** A key is taken, handed over or given back by an owner that saves and deletes nothing. */
  lemma MovedLockPhase(s: State, id: nat, step: PublishStep)
    requires Fits(s) && Owned(s) && CanPublish(s, id, step) && !PublishLock(s, id, step).Leave?
    ensures var key := LockKey(s.handlers[id].req);
            PhaseOf(DoPublish(s, id, step), key) == Settled && PhaseOf(s, key) == Settled
  {
    assert CallFits(s, id) && OwnerListed(s, HandlerOwner(id)) && KeyListed(s, LockKey(s.handlers[id].req));
  }

  lemma PublishOtherHolder(s: State, id: nat, step: PublishStep, key: string)
    requires CanPublish(s, id, step) && (id in s.handlers ==> LockKey(s.handlers[id].req) != key)
    ensures var t := DoPublish(s, id, step);
            (key in t.holder <==> key in s.holder) && (key in s.holder ==> t.holder[key] == s.holder[key])
  {
  }

  lemma PublishOtherPhase(s: State, id: nat, step: PublishStep, key: string)
    requires Owned(s) && CanPublish(s, id, step) && (id in s.handlers ==> LockKey(s.handlers[id].req) != key)
    ensures PhaseOf(DoPublish(s, id, step), key) == PhaseOf(s, key)
  {
    assert KeyListed(s, key);
    PublishOtherHolder(s, id, step, key);
    PublishMovesOne(s, id, step);
  }

  lemma PublishAgreesOwn(plan: Plan, s: State, id: nat, step: PublishStep, target: string, saves: bool)
    requires Reported(plan, s) && target in plan.volumeAt && AgreesAt(plan, s, target, saves)
    requires CanPublish(s, id, step) && id in s.handlers && s.handlers[id].req == Request(plan.volumeAt[target], target)
    ensures AgreesAt(plan, DoPublish(s, id, step), target,
                     SavesAfter(WriteOf(s, PublishEvent(id, step), target), saves))
  {
    PublishWrites(s, id, step);
    if step.StoreContext? || step.PersistState? {
      PhaseBefore(s, id, step);
      PhaseAfter(s, id, step);
    } else {
      PublishOwnPhase(s, id, step);
    }
  }

  lemma PublishWrites(s: State, id: nat, step: PublishStep)
    requires CanPublish(s, id, step) && id in s.handlers
    ensures var target, t := s.handlers[id].req.target, DoPublish(s, id, step);
            && (target in t.contexts <==> step.StoreContext? || target in s.contexts)
            && WriteOf(s, PublishEvent(id, step), target)
               == if step.PersistState? then Some(Write(true, step.ok)) else None
  {
  }

  lemma PublishAgrees(plan: Plan, s: State, id: nat, step: PublishStep, target: string, saves: bool)
    requires GoodPlan(plan) && Reported(plan, s) && target in plan.volumeAt && AgreesAt(plan, s, target, saves)
    requires CanPublish(s, id, step)
    ensures AgreesAt(plan, DoPublish(s, id, step), target,
                     SavesAfter(WriteOf(s, PublishEvent(id, step), target), saves))
  {
    if id in s.handlers {
      KeysApart(plan, s.handlers[id].req.target, target);
    }
    if id in s.handlers && s.handlers[id].req.target == target {
      PublishAgreesOwn(plan, s, id, step, target, saves);
    } else {
      PublishOtherPhase(s, id, step, KeyAt(plan, target));
    }
  }

  lemma UnpublishOwnPhase(s: State, id: nat, step: UnpublishStep)
    requires Owned(s) && CanUnpublish(s, id, step) && id in s.unpublishers
    ensures var key, t := LockKey(s.unpublishers[id].req), DoUnpublish(s, id, step);
            PhaseOf(t, key) == if step.Forget? then Deleting
                               else if step.DeleteState? then Settled
                               else PhaseOf(s, key)
    ensures step.DeleteState? ==> PhaseOf(s, LockKey(s.unpublishers[id].req)) == Deleting
    ensures step.Forget? ==> PhaseOf(s, LockKey(s.unpublishers[id].req)) == Settled
  {
    assert OwnerListed(s, UnpublisherOwner(id)) && KeyListed(s, LockKey(s.unpublishers[id].req));
  }

  lemma UnpublishOtherPhase(s: State, id: nat, step: UnpublishStep, key: string)
    requires Owned(s) && CanUnpublish(s, id, step) && (id in s.unpublishers ==> LockKey(s.unpublishers[id].req) != key)
    ensures PhaseOf(DoUnpublish(s, id, step), key) == PhaseOf(s, key)
  {
    assert KeyListed(s, key);
  }

  lemma UnpublishAgrees(plan: Plan, s: State, id: nat, step: UnpublishStep, target: string, saves: bool)
    requires GoodPlan(plan) && Reported(plan, s) && target in plan.volumeAt && AgreesAt(plan, s, target, saves)
    requires CanUnpublish(s, id, step)
    ensures AgreesAt(plan, DoUnpublish(s, id, step), target,
                     SavesAfter(WriteOf(s, UnpublishEvent(id, step), target), saves))
  {
    if id in s.unpublishers {
      KeysApart(plan, s.unpublishers[id].req.target, target);
      if s.unpublishers[id].req.target == target {
        UnpublishOwnPhase(s, id, step);
      } else {
        UnpublishOtherPhase(s, id, step, KeyAt(plan, target));
      }
    } else {
      UnpublishOtherPhase(s, id, step, KeyAt(plan, target));
    }
  }

  /** Nothing that decides about saved states differs. */
  predicate SamePhase(s: State, t: State, key: string) {
    PhaseOf(t, key) == PhaseOf(s, key) && t.contexts == s.contexts && t.saved == s.saved
  }

  lemma ReapPhase(s: State, id: nat, step: ReapStep, key: string)
    requires Owned(s) && CanReap(s, id, step)
    ensures SamePhase(s, DoReap(s, id, step), key)
  {
    assert OwnerListed(s, ReaperOwner(id));
  }

  lemma MountPhase(s: State, id: nat, step: MountStep, key: string)
    requires CanMount(s, id, step)
    ensures SamePhase(s, DoMount(s, id, step), key)
  {
  }

  lemma OthersLeavePhase(s: State, e: Event, key: string)
    requires Owned(s) && Enabled(s, e) && !e.PublishEvent? && !e.UnpublishEvent?
    ensures SamePhase(s, Apply(s, e), key)
  {
    match e {
      case ReapEvent(id, step) => ReapPhase(s, id, step, key);
      case MountEvent(id, step) => MountPhase(s, id, step, key);
      case RowVanishes(_) =>
    }
  }

  lemma AgreesKept(plan: Plan, s: State, e: Event, target: string, saves: bool)
    requires GoodPlan(plan) && Reported(plan, s) && target in plan.volumeAt && AgreesAt(plan, s, target, saves)
    requires Enabled(s, e)
    ensures AgreesAt(plan, Apply(s, e), target, SavesAfter(WriteOf(s, e, target), saves))
  {
    match e {
      case PublishEvent(id, step) => PublishAgrees(plan, s, id, step, target, saves);
      case UnpublishEvent(id, step) => UnpublishAgrees(plan, s, id, step, target, saves);
      case _ => OthersLeavePhase(s, e, KeyAt(plan, target));
    }
  }

  // ---------------------------------------------------------------- whole runs

  /** The last save or delete for the target, or the last one that succeeded. */
  ghost function LastWrite(s: State, es: seq<Event>, target: string, succeeded: bool): Option<Write>
    decreases |es|
  {
    if es == [] || !Enabled(s, es[0]) then None
    else
      var later := LastWrite(Apply(s, es[0]), es[1..], target, succeeded);
      if later.Some? then later
      else
        var w := WriteOf(s, es[0], target);
        if w.Some? && (succeeded ==> w.value.ok) then w else None
  }

  lemma {:induction false} RunAgrees(plan: Plan, s: State, es: seq<Event>, t: State, target: string, saves: bool)
    requires GoodPlan(plan) && Reported(plan, s) && target in plan.volumeAt && AgreesAt(plan, s, target, saves)
    requires PlannedRun(plan, s, es, t)
    ensures AgreesAt(plan, t, target, SavesAfter(LastWrite(s, es, target, false), saves))
    decreases |es|
  {
    if es != [] {
      var next := SavesAfter(WriteOf(s, es[0], target), saves);
      ReportedKept(plan, s, es[0]);
      AgreesKept(plan, s, es[0], target, saves);
      RunAgrees(plan, Apply(s, es[0]), es[1..], t, target, next);
    }
  }

  /** Only a write that succeeds changes what is saved for the target. */
  lemma StoredKept(plan: Plan, s: State, e: Event, target: string)
    requires CallsPlanned(plan, s) && target in plan.volumeAt && Enabled(s, e)
    ensures var q, w := Request(plan.volumeAt[target], target), WriteOf(s, e, target);
            q in Apply(s, e).saved <==> if w.Some? && w.value.ok then w.value.saves else q in s.saved
  {
  }

  lemma {:induction false} RunStored(plan: Plan, s: State, es: seq<Event>, t: State, target: string)
    requires CallsPlanned(plan, s) && target in plan.volumeAt && PlannedRun(plan, s, es, t)
    ensures var q := Request(plan.volumeAt[target], target);
            q in t.saved <==> SavesAfter(LastWrite(s, es, target, true), q in s.saved)
    decreases |es|
  {
    if es != [] {
      StoredKept(plan, s, es[0], target);
      CallsPlannedKept(plan, s, es[0]);
      RunStored(plan, Apply(s, es[0]), es[1..], t, target);
    }
  }

  /**
   * From any boot, and whichever saves and deletes fail: whenever its key is free, a target has a context exactly when
   * the last write for it was a save, and a saved state exactly when the last successful one was. So LoadState is right
   * about the target exactly when these two writes, or what the boot found in place of a missing one, say the same.
   */
  lemma LastWritesDecide(plan: Plan, s: State, es: seq<Event>, t: State, target: string)
    requires GoodPlan(plan) && Booted(s, plan) && target in plan.volumeAt
    requires PlannedRun(plan, s, es, t) && KeyAt(plan, target) !in t.locks
    ensures target in t.contexts <==> SavesAfter(LastWrite(s, es, target, false), target in s.contexts)
    ensures var q := Request(plan.volumeAt[target], target);
            q in t.saved <==> SavesAfter(LastWrite(s, es, target, true), q in s.saved)
  {
    BootedReported(plan, s);
    RunReported(plan, s, es, t);
    RunAgrees(plan, s, es, t, target, target in s.contexts);
    RunStored(plan, s, es, t, target);
  }

  ghost predicate ApiOkAlong(s: State, es: seq<Event>, targets: set<string>)
    decreases |es|
  {
    es == [] || (Enabled(s, es[0]) && ApiOk(s, es[0], targets) && ApiOkAlong(Apply(s, es[0]), es[1..], targets))
  }

  lemma {:induction false} EveryWriteSucceeds(s: State, es: seq<Event>, targets: set<string>, target: string)
    requires ApiOkAlong(s, es, targets) && target in targets
    ensures LastWrite(s, es, target, true) == LastWrite(s, es, target, false)
    decreases |es|
  {
    if es != [] {
      EveryWriteSucceeds(Apply(s, es[0]), es[1..], targets, target);
    }
  }

  /** The saved state and the context of a target are both there or both missing. */
  predicate AgreedAt(plan: Plan, s: State, target: string)
    requires target in plan.volumeAt
  {
    target in s.contexts <==> Request(plan.volumeAt[target], target) in s.saved
  }

  /** In particular, while the states of this one target can be saved and deleted, LoadState lists it when mounted. */
  lemma SavedIffMounted(plan: Plan, s: State, es: seq<Event>, t: State, targets: set<string>, target: string)
    requires GoodPlan(plan) && Booted(s, plan) && target in plan.volumeAt && AgreedAt(plan, s, target)
    requires PlannedRun(plan, s, es, t) && ApiOkAlong(s, es, targets) && target in targets
    requires KeyAt(plan, target) !in t.locks
    ensures AgreedAt(plan, t, target)
  {
    LastWritesDecide(plan, s, es, t, target);
    EveryWriteSucceeds(s, es, targets, target);
  }

  ghost predicate SavedPlanned(plan: Plan, s: State) {
    forall q | q in s.saved :: Planned(plan, q)
  }

  lemma {:induction false} RunSavedPlanned(plan: Plan, s: State, es: seq<Event>, t: State)
    requires Reported(plan, s) && SavedPlanned(plan, s) && PlannedRun(plan, s, es, t)
    ensures SavedPlanned(plan, t)
    decreases |es|
  {
    if es != [] {
      ReportedKept(plan, s, es[0]);
      RunSavedPlanned(plan, Apply(s, es[0]), es[1..], t);
    }
  }

  /** The saved states are exactly the targets with a context. */
  ghost predicate Agreed(plan: Plan, s: State) {
    && (forall c | c in s.contexts :: c in plan.volumeAt && Request(plan.volumeAt[c], c) in s.saved)
    && (forall q | q in s.saved :: Planned(plan, q) && q.target in s.contexts)
  }

  lemma QuietAgreedAt(plan: Plan, s: State, es: seq<Event>, t: State, c: string)
    requires GoodPlan(plan) && Booted(s, plan) && Agreed(plan, s) && c in plan.volumeAt
    requires PlannedRun(plan, s, es, t) && ApiOkAlong(s, es, plan.volumeAt.Keys) && Quiet(t)
    ensures AgreedAt(plan, t, c)
  {
    BootedReported(plan, s);
    RunReported(plan, s, es, t);
    assert KeyListed(t, KeyAt(plan, c));
    SavedIffMounted(plan, s, es, t, plan.volumeAt.Keys, c);
  }

  /** When nobody is at work the saved states are exactly the contexts. */
  lemma QuietAgreed(plan: Plan, s: State, es: seq<Event>, t: State)
    requires GoodPlan(plan) && Booted(s, plan) && Agreed(plan, s)
    requires PlannedRun(plan, s, es, t) && ApiOkAlong(s, es, plan.volumeAt.Keys) && Quiet(t)
    ensures Agreed(plan, t)
  {
    BootedReported(plan, s);
    RunReported(plan, s, es, t);
    RunSavedPlanned(plan, s, es, t);
    forall c | c in t.contexts ensures c in plan.volumeAt && Request(plan.volumeAt[c], c) in t.saved {
      assert ContextReported(plan, t, c);
      QuietAgreedAt(plan, s, es, t, c);
    }
    forall q | q in t.saved ensures Planned(plan, q) && q.target in t.contexts {
      QuietAgreedAt(plan, s, es, t, q.target);
    }
  }
}
