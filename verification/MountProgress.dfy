/** Direct mode: every call can always go on, and gives its key back after a bounded number of steps of its own. */
module MountProgress {
  import opened Text
  import opened MountLifecycle
  import opened MountSafety

  // ---------------------------------------------------------------- the steps of one call

  /** The call a step belongs to: its handler, its background mount and its reaper move on its behalf. */
  function CallOf(e: Event): Option<Token> {
    match e
    case PublishEvent(id, _) => Some(PublishToken(id))
    case MountEvent(id, _) => Some(PublishToken(id))
    case ReapEvent(id, _) => Some(PublishToken(id))
    case UnpublishEvent(id, _) => Some(UnpublishToken(id))
    case RowVanishes(_) => None
  }

  function HandlerWork(pc: HandlerPc): nat {
    match pc
    case Start => 15
    case Locked => 14
    case Prepare => 13
    case Clean => 12
    case Load => 11
    case Spawn => 10
    case Wait => 7
    case Store => 4
    case Persist => 3
    case DeferCleanup => 2
    case DeferRelease => 1
    case Returned => 0
  }

  function MountWork(g: Goroutine): nat {
    match g
    case Mounting => 2
    case Finished(_) => 1
    case _ => 0
  }

  function ReaperWork(pc: ReaperPc): nat {
    match pc
    case Receiving => 4
    case Detaching => 3
    case Dropping => 2
    case Releasing => 1
    case Gone => 0
  }

  function UnpublisherWork(pc: UnpublisherPc): nat {
    match pc
    case UStart => 8
    case ULocked => 7
    case UGraceful => 6
    case UDrop => 5
    case UDetach => 4
    case UForget => 3
    case UDelete => 2
    case URelease => 1
    case UReturned => 0
  }

  const MOST_STEPS := 16

  /** A bound on the steps still ahead of the call; one not made yet has all of them ahead. */
  function Work(s: State, call: Token): nat {
    match call
    case PublishToken(id) =>
      (if id in s.handlers then HandlerWork(s.handlers[id].pc) else MOST_STEPS)
      + (if id in s.attempts then MountWork(s.attempts[id]) else 0)
      + (if id in s.reapers then ReaperWork(s.reapers[id].pc) else 0)
    case UnpublishToken(id) =>
      if id in s.unpublishers then UnpublisherWork(s.unpublishers[id].pc) else MOST_STEPS
  }

  // ---------------------------------------------------------------- every step of a call lessens what is left of it

  lemma PublishLessens(s: State, id: nat, step: PublishStep)
    requires CallFits(s, id) && CanPublish(s, id, step)
    ensures Work(DoPublish(s, id, step), PublishToken(id)) < Work(s, PublishToken(id))
  {
    PublishMoves(s, id, step);
    HandlerGoesOn(s, id, step);
  }

  lemma HandlerGoesOn(s: State, id: nat, step: PublishStep)
    requires CanPublish(s, id, step)
    ensures HandlerWork(NextHandler(s, id, step).pc)
            + (if step.SpawnMount? then 2 else if step.Abandon? then 4 else 0)
            < if id in s.handlers then HandlerWork(s.handlers[id].pc) else MOST_STEPS
  {
  }

  lemma MountLessens(s: State, id: nat, step: MountStep)
    requires CanMount(s, id, step)
    ensures Work(DoMount(s, id, step), PublishToken(id)) < Work(s, PublishToken(id))
  {
  }

  lemma ReapLessens(s: State, id: nat, step: ReapStep)
    requires CanReap(s, id, step)
    ensures Work(DoReap(s, id, step), PublishToken(id)) < Work(s, PublishToken(id))
  {
  }

  lemma UnpublishLessens(s: State, id: nat, step: UnpublishStep)
    requires CanUnpublish(s, id, step)
    ensures Work(DoUnpublish(s, id, step), UnpublishToken(id)) < Work(s, UnpublishToken(id))
  {
  }

  lemma StepLessens(s: State, e: Event)
    requires Fits(s) && Enabled(s, e) && CallOf(e).Some?
    ensures Work(Apply(s, e), CallOf(e).value) < Work(s, CallOf(e).value)
  {
    match e {
      case PublishEvent(id, step) =>
        assert CallFits(s, id);
        PublishLessens(s, id, step);
      case MountEvent(id, step) => MountLessens(s, id, step);
      case ReapEvent(id, step) => ReapLessens(s, id, step);
      case UnpublishEvent(id, step) => UnpublishLessens(s, id, step);
    }
  }

  /** And no other call's steps change it. */
  lemma OthersKeepWork(s: State, e: Event, call: Token)
    requires Enabled(s, e) && CallOf(e) != Some(call)
    ensures Work(Apply(s, e), call) == Work(s, call)
  {
    match e {
      case PublishEvent(id, step) => PublishMovesOne(s, id, step);
      case MountEvent(id, step) => MountMovesOne(s, id, step);
      case ReapEvent(id, step) => ReapMovesOne(s, id, step);
      case UnpublishEvent(id, step) => UnpublishMovesOne(s, id, step);
      case RowVanishes(_) =>
    }
  }

  ghost function StepsOf(es: seq<Event>, call: Token): nat
    decreases |es|
  {
    if es == [] then 0 else (if CallOf(es[0]) == Some(call) then 1 else 0) + StepsOf(es[1..], call)
  }

  /** However the calls interleave, a call takes no more steps than it had ahead. */
  lemma {:induction false} StepsBounded(s: State, es: seq<Event>, t: State, call: Token)
    requires Fits(s) && Run(s, es, t)
    ensures StepsOf(es, call) + Work(t, call) <= Work(s, call)
    decreases |es|
  {
    if es != [] {
      FitsKept(s, es[0]);
      if CallOf(es[0]) == Some(call) {
        StepLessens(s, es[0]);
      } else {
        OthersKeepWork(s, es[0], call);
      }
      StepsBounded(Apply(s, es[0]), es[1..], t, call);
    }
  }

  /** From a process nobody works in yet, no call ever takes more than sixteen steps. */
  lemma CallsAreShort(s: State, es: seq<Event>, t: State, call: Token)
    requires Idle(s) && Run(s, es, t)
    ensures StepsOf(es, call) + Work(t, call) <= MOST_STEPS
  {
    IdleSafe(s);
    StepsBounded(s, es, t, call);
  }

  // ---------------------------------------------------------------- a call that holds its key can always go on

  /** A step its handler can take that waits for nothing but the result of its own mount. */
  function HandlerNext(s: State, id: nat): Event
    requires id in s.handlers
  {
    match s.handlers[id].pc
    case Start => PublishEvent(id, GiveUp)
    case Locked => PublishEvent(id, AcceptParams)
    case Prepare => PublishEvent(id, PrepareCleaned)
    case Clean => PublishEvent(id, CleanStale(true))
    case Load => PublishEvent(id, LoadConfig({}))
    case Spawn => PublishEvent(id, SpawnMount)
    case Wait => PublishEvent(id, Abandon)
    case Store => PublishEvent(id, StoreContext)
    case Persist => PublishEvent(id, PersistState(true))
    case DeferCleanup => PublishEvent(id, RunCleanup)
    case _ => PublishEvent(id, RunRelease)
  }

  function ReaperNext(s: State, id: nat): Event
    requires id in s.reapers
  {
    match s.reapers[id].pc
    case Receiving =>
      if id in s.attempts && s.attempts[id].Mounting? then MountEvent(id, Finish(true))
      else if id in s.attempts && s.attempts[id].Finished? then MountEvent(id, Send)
      else ReapEvent(id, ReapReceive)
    case Detaching => ReapEvent(id, ReapDetach(true))
    case Dropping => ReapEvent(id, ReapDrop)
    case _ => ReapEvent(id, ReapRelease)
  }

  function UnpublisherNext(s: State, id: nat): Event
    requires id in s.unpublishers
  {
    match s.unpublishers[id].pc
    case UStart => UnpublishEvent(id, GiveUpUnpublish)
    case ULocked => UnpublishEvent(id, CaptureContext)
    case UGraceful => UnpublishEvent(id, GracefulUnmount(true))
    case UDrop => UnpublishEvent(id, DropSections)
    case UDetach => UnpublishEvent(id, Detach(true))
    case UForget => UnpublishEvent(id, Forget)
    case UDelete => UnpublishEvent(id, DeleteState(true))
    case _ => UnpublishEvent(id, ReleaseUnpublish)
  }

  /** A step of the owner that is enabled: no owner ever waits for another one. */
  lemma OwnerCanMove(s: State, o: Owner) returns (e: Event)
    requires Fits(s) && Owns(s, o)
    ensures Enabled(s, e) && CallOf(e).Some? && (OwnersOf(CallOf(e).value).0 == o || OwnersOf(CallOf(e).value).1 == o)
  {
    match o {
      case HandlerOwner(id) => e := HandlerNext(s, id);
      case ReaperOwner(id) =>
        assert CallFits(s, id);
        e := ReaperNext(s, id);
      case UnpublisherOwner(id) => e := UnpublisherNext(s, id);
    }
  }

  /**
   * Whatever state the others are in, a call that holds its key can give it back by steps of its own alone,
   * and after no more of them than it has ahead.
   */
  lemma {:induction false} CanRelease(s: State, call: Token) returns (es: seq<Event>, t: State)
    requires Safe(s) && Live(s, call)
    ensures Run(s, es, t) && forall e | e in es :: CallOf(e) == Some(call)
    ensures !Live(t, call) && t.releases[call] == 1 && |es| <= Work(s, call)
    decreases Work(s, call)
  {
    var o := if Owns(s, OwnersOf(call).0) then OwnersOf(call).0 else OwnersOf(call).1;
    var e := OwnerCanMove(s, o);
    assert CallOf(e) == Some(call);
    var next := Apply(s, e);
    StepLessens(s, e);
    SafeKept(s, e);
    if Live(next, call) {
      var rest;
      rest, t := CanRelease(next, call);
      es := [e] + rest;
    } else {
      es, t := [e], next;
      GrantStays(s, e, call);
    }
  }

  /** The last step of a call that held its key gave it back. */
  lemma GrantStays(s: State, e: Event, call: Token)
    requires Safe(s) && Enabled(s, e) && Live(s, call) && Safe(Apply(s, e)) && !Live(Apply(s, e), call)
    ensures Apply(s, e).releases[call] == 1
  {
    assert TokenCounted(s, call) && TokenCounted(Apply(s, e), call);
    GrantsGrow(s, e, call);
  }

  lemma GrantsGrow(s: State, e: Event, token: Token)
    requires Enabled(s, e)
    ensures s.grants[token] <= Apply(s, e).grants[token]
  {
    match e {
      case PublishEvent(id, step) => LockGrants(s, PublishLock(s, id, step), token);
      case ReapEvent(id, step) => LockGrants(s, ReapLock(s, id, step), token);
      case UnpublishEvent(id, step) => LockGrants(s, UnpublishLock(s, id, step), token);
      case _ =>
    }
  }

  lemma LockGrants(s: State, a: LockAction, token: Token)
    ensures s.grants[token] <= WithLock(s, a).grants[token]
  {
  }
}
