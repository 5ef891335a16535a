/** Direct mode with one volume per target: who may be told "already published". */
module MountOutcomes {
  import opened MountLifecycle
  import opened MountSafety

  // ---------------------------------------------------------------- runs that keep to the plan

  /** The one volume of each target path, and for results about sections the section names of each volume. */
  datatype Plan = Plan(volumeAt: map<string, string>, names: map<string, set<string>>)

  ghost predicate GoodPlan(plan: Plan) {
    forall t | t in plan.volumeAt :: ValidRequest(Request(plan.volumeAt[t], t))
  }

  predicate Planned(plan: Plan, req: Request) {
    req.target in plan.volumeAt && req == Request(plan.volumeAt[req.target], req.target)
  }

  /**
   * After boot: the contexts are those of remounted targets, anything mounted elsewhere is foreign.
   * A remount may have failed, so a saved state need not have a context.
   */
  predicate Booted(s: State, plan: Plan) {
    && Idle(s)
    && (forall t | t in s.contexts :: t in plan.volumeAt && s.contexts[t].source == Boot)
    && (forall r | r in s.mounts :: if r.target in s.contexts then r.source == Boot else r.source == Foreign)
  }

  /** Every call names the one volume of its target. */
  predicate Follows(plan: Plan, e: Event) {
    match e
    case PublishEvent(_, step) => step.Call? ==> Planned(plan, step.req)
    case UnpublishEvent(_, step) => step.CallUnpublish? ==> Planned(plan, step.req)
    case _ => true
  }

  ghost predicate PlannedRun(plan: Plan, s: State, es: seq<Event>, t: State)
    decreases |es|
  {
    if es == [] then s == t
    else Enabled(s, es[0]) && Follows(plan, es[0]) && PlannedRun(plan, Apply(s, es[0]), es[1..], t)
  }

  // ---------------------------------------------------------------- calls keep to the plan

  ghost predicate CallsPlanned(plan: Plan, s: State) {
    && (forall id | id in s.handlers :: Planned(plan, s.handlers[id].req))
    && (forall id | id in s.unpublishers :: Planned(plan, s.unpublishers[id].req))
  }

  lemma PublishPlanned(plan: Plan, s: State, id: nat, step: PublishStep)
    requires CallsPlanned(plan, s) && CanPublish(s, id, step) && Follows(plan, PublishEvent(id, step))
    ensures CallsPlanned(plan, DoPublish(s, id, step))
  {
    PublishMovesOne(s, id, step);
  }

  ghost predicate HandlersLeft(s: State, t: State) {
    && t.handlers == s.handlers && t.attempts.Keys == s.attempts.Keys
    && forall x | x in t.contexts :: x in s.contexts && t.contexts[x] == s.contexts[x]
  }

  lemma MountLeavesHandlers(s: State, id: nat, step: MountStep)
    requires CanMount(s, id, step)
    ensures HandlersLeft(s, DoMount(s, id, step))
  {
  }

  lemma ReapLeavesHandlers(s: State, id: nat, step: ReapStep)
    requires CanReap(s, id, step)
    ensures HandlersLeft(s, DoReap(s, id, step))
  {
  }

  lemma UnpublishLeavesHandlers(s: State, id: nat, step: UnpublishStep)
    requires CanUnpublish(s, id, step)
    ensures HandlersLeft(s, DoUnpublish(s, id, step))
  {
  }

  /** Only publish steps move handlers or store contexts. */
  lemma OthersLeaveHandlers(s: State, e: Event)
    requires Enabled(s, e) && !e.PublishEvent?
    ensures HandlersLeft(s, Apply(s, e))
  {
    match e {
      case MountEvent(id, step) => MountLeavesHandlers(s, id, step);
      case ReapEvent(id, step) => ReapLeavesHandlers(s, id, step);
      case UnpublishEvent(id, step) => UnpublishLeavesHandlers(s, id, step);
      case RowVanishes(_) =>
    }
  }

  lemma UnpublishPlanned(plan: Plan, s: State, id: nat, step: UnpublishStep)
    requires CallsPlanned(plan, s) && CanUnpublish(s, id, step) && Follows(plan, UnpublishEvent(id, step))
    ensures CallsPlanned(plan, DoUnpublish(s, id, step))
  {
    UnpublishMovesOne(s, id, step);
  }

  lemma CallsPlannedKept(plan: Plan, s: State, e: Event)
    requires CallsPlanned(plan, s) && Enabled(s, e) && Follows(plan, e)
    ensures CallsPlanned(plan, Apply(s, e))
  {
    match e {
      case PublishEvent(id, step) => PublishPlanned(plan, s, id, step);
      case UnpublishEvent(id, step) => UnpublishPlanned(plan, s, id, step);
      case MountEvent(id, step) => MountMovesOne(s, id, step);
      case ReapEvent(id, step) => ReapMovesOne(s, id, step);
      case RowVanishes(_) =>
    }
  }

  function TargetOf(s: State, o: Owner): string
    requires Owns(s, o)
  {
    match o
    case HandlerOwner(id) => s.handlers[id].req.target
    case ReaperOwner(id) => s.reapers[id].req.target
    case UnpublisherOwner(id) => s.unpublishers[id].req.target
  }

  function KeyAt(plan: Plan, target: string): string
    requires target in plan.volumeAt
  {
    LockKey(Request(plan.volumeAt[target], target))
  }

  lemma PlannedKey(plan: Plan, s: State, o: Owner)
    requires Fits(s) && CallsPlanned(plan, s) && Owns(s, o)
    ensures TargetOf(s, o) in plan.volumeAt && KeyOf(s, o) == KeyAt(plan, TargetOf(s, o))
  {
    match o {
      case ReaperOwner(id) => assert CallFits(s, id);
      case _ =>
    }
  }

  lemma KeysApart(plan: Plan, a: string, b: string)
    requires GoodPlan(plan) && a in plan.volumeAt && b in plan.volumeAt
    ensures KeyAt(plan, a) == KeyAt(plan, b) <==> a == b
  {
    LockKeyInjective(Request(plan.volumeAt[a], a), Request(plan.volumeAt[b], b));
  }

  /** At most one actor works on a target. */
  lemma OneOwnerPerTarget(plan: Plan, s: State, a: Owner, b: Owner)
    requires Safe(s) && CallsPlanned(plan, s) && Owns(s, a) && Owns(s, b) && TargetOf(s, a) == TargetOf(s, b)
    ensures a == b
  {
    PlannedKey(plan, s, a);
    PlannedKey(plan, s, b);
    assert OwnerListed(s, a) && OwnerListed(s, b);
  }

  // ---------------------------------------------------------------- contexts and foreign mounts

  /**
   * A context records a mount that some publish reported as up, or one remounted at boot; a reaper never stores
   * one.
   */
  ghost predicate ContextReported(plan: Plan, s: State, target: string)
    requires target in s.contexts
  {
    var c := s.contexts[target];
    && target in plan.volumeAt
    && match c.source
       case Boot => true
       case Foreign => false
       case Attempt(id) => id in s.handlers && s.handlers[id].mountSuccess && s.handlers[id].req.target == target
  }

  ghost predicate ContextsReported(plan: Plan, s: State) {
    forall t | t in s.contexts :: ContextReported(plan, s, t)
  }

  lemma PublishContextsReported(plan: Plan, s: State, id: nat, step: PublishStep)
    requires Fits(s) && CallsPlanned(plan, s) && ContextsReported(plan, s) && CanPublish(s, id, step)
    ensures ContextsReported(plan, DoPublish(s, id, step))
  {
    var t := DoPublish(s, id, step);
    PublishMovesOne(s, id, step);
    PublishKeepsSuccess(s, id, step);
    forall target | target in t.contexts ensures ContextReported(plan, t, target) {
      if step.StoreContext? && target == s.handlers[id].req.target {
        assert CallFits(s, id);
      } else {
        assert t.contexts[target] == s.contexts[target] && ContextReported(plan, s, target);
      }
    }
  }

  lemma ContextsReportedKept(plan: Plan, s: State, e: Event)
    requires Fits(s) && CallsPlanned(plan, s) && ContextsReported(plan, s) && Enabled(s, e)
    ensures ContextsReported(plan, Apply(s, e))
  {
    if e.PublishEvent? {
      PublishContextsReported(plan, s, e.id, e.publish);
    } else {
      OthersLeaveHandlers(s, e);
      SameContextsReported(plan, s, Apply(s, e));
    }
  }

  lemma SameContextsReported(plan: Plan, s: State, t: State)
    requires ContextsReported(plan, s) && t.handlers == s.handlers
    requires forall x | x in t.contexts :: x in s.contexts && t.contexts[x] == s.contexts[x]
    ensures ContextsReported(plan, t)
  {
    forall target | target in t.contexts ensures ContextReported(plan, t, target) {
      assert ContextReported(plan, s, target);
    }
  }

  lemma PublishKeepsSuccess(s: State, id: nat, step: PublishStep)
    requires Fits(s) && CanPublish(s, id, step)
    ensures var t := DoPublish(s, id, step);
            id in s.handlers ==>
              && t.handlers[id].req == s.handlers[id].req
              && (s.handlers[id].mountSuccess ==> t.handlers[id].mountSuccess)
    ensures step.StoreContext? ==> DoPublish(s, id, step).handlers[id].mountSuccess
    ensures !step.StoreContext? ==> DoPublish(s, id, step).contexts == s.contexts
  {
    assert CallFits(s, id);
    PublishMoves(s, id, step);
    if id in s.handlers {
      NextKeepsSuccess(s, id, step);
    }
  }

  lemma NextKeepsSuccess(s: State, id: nat, step: PublishStep)
    requires CanPublish(s, id, step) && id in s.handlers
    ensures var h := NextHandler(s, id, step);
            h.req == s.handlers[id].req && (s.handlers[id].mountSuccess ==> h.mountSuccess)
  {
  }

  /** Once a call gets past preparing its target, no mount of an earlier process is left there. */
  ghost predicate ForeignGone(s: State, id: nat)
    requires id in s.handlers
  {
    (s.handlers[id].pc.Load? || s.handlers[id].pc.Spawn? || id in s.attempts)
      ==> Row(s.handlers[id].req.target, Foreign) !in s.mounts
  }

  ghost predicate NoForeign(s: State) {
    && (forall id | id in s.handlers :: ForeignGone(s, id))
    && (forall t | t in s.contexts && s.contexts[t].source == Boot :: Row(t, Foreign) !in s.mounts)
  }

  lemma PublishNoForeign(s: State, id: nat, step: PublishStep)
    requires Fits(s) && NoForeign(s) && CanPublish(s, id, step)
    ensures NoForeign(DoPublish(s, id, step))
  {
    var t := DoPublish(s, id, step);
    NoNewForeign(s, PublishEvent(id, step));
    PublishMovesOne(s, id, step);
    OwnForeignGone(s, id, step);
    forall j | j in t.handlers ensures ForeignGone(t, j) {
      assert j in s.handlers ==> ForeignGone(s, j);
    }
    BootContextsOnly(s, id, step);
  }

  lemma NoForeignKept(s: State, e: Event)
    requires Fits(s) && NoForeign(s) && Enabled(s, e)
    ensures NoForeign(Apply(s, e))
  {
    if e.PublishEvent? {
      PublishNoForeign(s, e.id, e.publish);
    } else {
      NoNewForeign(s, e);
      OthersLeaveHandlers(s, e);
      SameForeignGone(s, Apply(s, e));
    }
  }

  lemma SameForeignGone(s: State, t: State)
    requires NoForeign(s) && t.handlers == s.handlers && t.attempts.Keys == s.attempts.Keys
    requires forall x | x in t.contexts :: x in s.contexts && t.contexts[x] == s.contexts[x]
    requires forall row | row in t.mounts && row.source == Foreign :: row in s.mounts
    ensures NoForeign(t)
  {
    forall j | j in t.handlers ensures ForeignGone(t, j) {
      assert ForeignGone(s, j);
    }
  }

  lemma BootContextsOnly(s: State, id: nat, step: PublishStep)
    requires CanPublish(s, id, step)
    ensures var t := DoPublish(s, id, step);
            forall x | x in t.contexts && t.contexts[x].source == Boot ::
              x in s.contexts && s.contexts[x].source == Boot
  {
  }

  lemma NoNewForeign(s: State, e: Event)
    requires Enabled(s, e)
    ensures forall row | row in Apply(s, e).mounts && row.source == Foreign :: row in s.mounts
  {
  }

  lemma OwnForeignGone(s: State, id: nat, step: PublishStep)
    requires Fits(s) && NoForeign(s) && CanPublish(s, id, step)
    ensures ForeignGone(DoPublish(s, id, step), id)
  {
    assert CallFits(s, id);
    if id in s.handlers {
      NoNewForeign(s, PublishEvent(id, step));
      assert ForeignGone(s, id);
      var row := Row(s.handlers[id].req.target, Foreign);
      assert row in s.mounts ==> row in RowsAt(s, row.target);
    }
  }

  /** An orphan that would not detach belongs to a call that was handed to its reaper. */
  ghost predicate OrphansReaped(s: State) {
    forall id | id in s.undetached :: id in s.reapers
  }

  lemma OrphansReapedKept(s: State, e: Event)
    requires OrphansReaped(s) && Enabled(s, e)
    ensures OrphansReaped(Apply(s, e))
  {
    match e {
      case PublishEvent(id, step) => PublishKeepsReapers(s, id, step);
      case ReapEvent(id, step) => ReapKeepsReapers(s, id, step);
      case _ =>
    }
  }

  lemma PublishKeepsReapers(s: State, id: nat, step: PublishStep)
    requires CanPublish(s, id, step)
    ensures DoPublish(s, id, step).undetached == s.undetached && s.reapers.Keys <= DoPublish(s, id, step).reapers.Keys
  {
  }

  lemma ReapKeepsReapers(s: State, id: nat, step: ReapStep)
    requires CanReap(s, id, step)
    ensures var t := DoReap(s, id, step);
            t.undetached <= s.undetached + {id} && id in s.reapers && t.reapers.Keys == s.reapers.Keys
  {
  }

  ghost predicate Reported(plan: Plan, s: State) {
    Safe(s) && CallsPlanned(plan, s) && ContextsReported(plan, s) && NoForeign(s) && OrphansReaped(s)
  }

  lemma ReportedKept(plan: Plan, s: State, e: Event)
    requires Reported(plan, s) && Enabled(s, e) && Follows(plan, e)
    ensures Reported(plan, Apply(s, e))
  {
    SafeKept(s, e);
    CallsPlannedKept(plan, s, e);
    ContextsReportedKept(plan, s, e);
    NoForeignKept(s, e);
    OrphansReapedKept(s, e);
  }

  lemma BootedReported(plan: Plan, s: State)
    requires Booted(s, plan)
    ensures Reported(plan, s)
  {
    IdleSafe(s);
  }

  lemma {:induction false} RunReported(plan: Plan, s: State, es: seq<Event>, t: State)
    requires Reported(plan, s) && PlannedRun(plan, s, es, t)
    ensures Reported(plan, t)
    decreases |es|
  {
    if es != [] {
      ReportedKept(plan, s, es[0]);
      RunReported(plan, Apply(s, es[0]), es[1..], t);
    }
  }

  /**
   * In every planned run a context records a mount remounted at boot, or one of a publish for this target whose caller
   * has heard success or is about to.
   */
  lemma ContextsPublished(plan: Plan, s: State, es: seq<Event>, t: State, target: string)
    requires Booted(s, plan) && PlannedRun(plan, s, es, t) && target in t.contexts
    ensures match t.contexts[target].source
            case Boot => true
            case Foreign => false
            case Attempt(id) =>
              && id in t.handlers && target in plan.volumeAt
              && t.handlers[id].req == Request(plan.volumeAt[target], target)
              && (t.handlers[id].reply == Published || At(t, id, Store) || At(t, id, Persist))
  {
    BootedReported(plan, s);
    RunReported(plan, s, es, t);
    assert ContextReported(plan, t, target);
    if t.contexts[target].source.Attempt? {
      var id := t.contexts[target].source.id;
      assert CallFits(t, id) && AnswerFits(t, id) && Planned(plan, t.handlers[id].req);
    }
  }

  // ---------------------------------------------------------------- "already published"

  /** The mount was remounted at boot or stands for a publish whose caller heard success. */
  predicate ReportedUp(s: State, row: Row) {
    match row.source
    case Foreign => false
    case Boot => true
    case Attempt(id) => id in s.handlers && s.handlers[id].reply == Published
  }

  /** The mount belongs to a call that failed, and its reaper could not detach it. */
  predicate Orphaned(s: State, row: Row) {
    row.source.Attempt? && row.source.id in s.undetached
  }

  /** No mount is both. */
  lemma OrphanNotReported(plan: Plan, s: State, row: Row)
    requires Reported(plan, s) && Orphaned(s, row)
    ensures !ReportedUp(s, row)
  {
    assert CallFits(s, row.source.id) && AnswerFits(s, row.source.id);
  }

  lemma NoOtherOwner(plan: Plan, t: State, id: nat, b: nat)
    requires Reported(plan, t) && Owns(t, HandlerOwner(id)) && b in t.handlers && b != id
    requires t.handlers[b].req.target == t.handlers[id].req.target
    ensures !Owns(t, HandlerOwner(b)) && !Owns(t, ReaperOwner(b))
  {
    if Owns(t, HandlerOwner(b)) {
      OneOwnerPerTarget(plan, t, HandlerOwner(id), HandlerOwner(b));
    }
    if Owns(t, ReaperOwner(b)) {
      assert CallFits(t, b);
      OneOwnerPerTarget(plan, t, HandlerOwner(id), ReaperOwner(b));
    }
  }

  /** What a call that holds the target and has not started its own mount can find there. */
  lemma RowsFound(plan: Plan, t: State, id: nat, row: Row)
    requires Reported(plan, t) && At(t, id, Prepare) && row in t.mounts && row.target == t.handlers[id].req.target
    ensures row.source == Foreign || ReportedUp(t, row) || Orphaned(t, row)
    ensures row.source == Foreign ==> row.target !in t.contexts
  {
    assert CallFits(t, id) && RowExplained(t, row);
    if row.source.Attempt? {
      var b := row.source.id;
      assert b != id && CallFits(t, b) && AnswerFits(t, b);
      NoOtherOwner(plan, t, id, b);
    }
    if row.target in t.contexts {
      assert ContextReported(plan, t, row.target);
      if t.contexts[row.target].source.Attempt? {
        var a := t.contexts[row.target].source.id;
        assert CallFits(t, a) && ForeignGone(t, a);
      }
    }
  }

  /** The call would answer "already published" now. */
  predicate AnswersPublished(t: State, id: nat) {
    CanPublish(t, id, PrepareHealthy) && NextHandler(t, id, PrepareHealthy).pc.DeferRelease?
  }

  /**
   * In every planned run, "already published" answers only for mounts reported as up
   * if and only if no orphan that would not detach is mounted at the target.
   */
  lemma HonestIff(plan: Plan, s: State, es: seq<Event>, t: State, id: nat)
    requires Booted(s, plan) && PlannedRun(plan, s, es, t) && AnswersPublished(t, id)
    ensures NextHandler(t, id, PrepareHealthy).reply == AlreadyPublished && RowsAt(t, t.handlers[id].req.target) != {}
    ensures (forall row | row in RowsAt(t, t.handlers[id].req.target) :: ReportedUp(t, row))
            <==> (forall row | row in RowsAt(t, t.handlers[id].req.target) :: !Orphaned(t, row))
  {
    BootedReported(plan, s);
    RunReported(plan, s, es, t);
    forall row | row in RowsAt(t, t.handlers[id].req.target) ensures ReportedUp(t, row) <==> !Orphaned(t, row) {
      RowsFound(plan, t, id, row);
      if Orphaned(t, row) {
        OrphanNotReported(plan, t, row);
      }
    }
  }
}
