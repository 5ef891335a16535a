/**
 * Direct-mode publish and unpublish as a step machine: request handlers, background mounts and reapers
 * interleave on the lock set, the loaded config sections, the mount contexts, the mount table and the saved states.
 */
module MountLifecycle {
  import opened Text

  // ---------------------------------------------------------------- requests and lock keys

  datatype Request = Request(volume: string, target: string)

  /** publishVolumeLockKey without staging. */
  function LockKey(req: Request): string {
    req.volume + "-" + req.target
  }

  /** Volume ids without '/' and absolute target paths, which tell the keys of different pairs apart. */
  predicate ValidRequest(req: Request) {
    req.volume != "" && Free(req.volume, '/') && req.target != "" && req.target[0] == '/'
  }

  /** Different (volume, target) pairs never contend for one key. */
  lemma LockKeyInjective(a: Request, b: Request)
    requires ValidRequest(a) && ValidRequest(b)
    ensures LockKey(a) == LockKey(b) <==> a == b
  {
    var x, y := a.volume + "-", b.volume + "-";
    assert LockKey(a) == x + ['/'] + a.target[1..] && LockKey(b) == y + ['/'] + b.target[1..] by {
      assert a.target == ['/'] + a.target[1..] && b.target == ['/'] + b.target[1..];
    }
    if LockKey(a) == LockKey(b) {
      FirstCutUnique(x, a.target[1..], y, b.target[1..], '/');
      assert a.volume == x[..|x| - 1] && b.volume == y[..|y| - 1];
      assert a.target == ['/'] + a.target[1..] && b.target == ['/'] + b.target[1..];
    }
  }

  // ---------------------------------------------------------------- state

  /** Who put a mount there: an earlier process, RemountState at boot, or the background mount of a publish. */
  datatype Source = Foreign | Boot | Attempt(id: nat)

  datatype Row = Row(target: string, source: Source)

  datatype Context = Context(source: Source, remotes: set<string>)

  datatype HandlerPc =
    | Start | Locked | Prepare | Clean | Load | Spawn | Wait | Store | Persist
    | DeferCleanup | DeferRelease | Returned

  datatype Reply = Pending | Published | AlreadyPublished | Refused

  datatype Handler = Handler(
    req: Request, pc: HandlerPc, remotes: set<string>, mountSuccess: bool, handOff: bool, reply: Reply)

  /** The mount goroutine and its one-slot result channel. */
  datatype Goroutine = Mounting | Finished(ok: bool) | Sent(ok: bool) | Consumed(ok: bool)

  datatype ReaperPc = Receiving | Detaching | Dropping | Releasing | Gone

  datatype Reaper = Reaper(req: Request, remotes: set<string>, pc: ReaperPc)

  datatype UnpublisherPc =
    | UStart | ULocked | UGraceful | UDrop | UDetach | UForget | UDelete | URelease | UReturned

  datatype Unpublisher = Unpublisher(req: Request, pc: UnpublisherPc, captured: Option<Context>, reply: Reply)

  /** A grant of a lock, named after the call that obtained it. */
  datatype Token = PublishToken(id: nat) | UnpublishToken(id: nat)

  datatype Owner = HandlerOwner(id: nat) | ReaperOwner(id: nat) | UnpublisherOwner(id: nat)

  datatype State = State(
    locks: set<string>,
    sections: set<string>,
    contexts: map<string, Context>,
    mounts: set<Row>,
    saved: set<Request>,
    handlers: map<nat, Handler>,
    attempts: map<nat, Goroutine>,
    reapers: map<nat, Reaper>,
    unpublishers: map<nat, Unpublisher>,
    // bookkeeping no step decides on
    holder: map<string, Owner>,
    grants: multiset<Token>,
    releases: multiset<Token>,
    undetached: set<nat>)

  // ---------------------------------------------------------------- NodePublishVolume

  datatype PublishStep =
    | Call(req: Request)
    | Acquire            // TryAcquire succeeded
    | GiveUp             // the retries are used up
    | RejectParams       // extractPublishParams failed
    | AcceptParams
    | PrepareFails       // directory error, or a corrupted mount that cannot be cleaned up
    | PrepareFresh       // nothing mounted at the target
    | PrepareCleaned     // a corrupted mount was force-unmounted
    | PrepareHealthy     // something readable is mounted
    | CleanStale(ok: bool)
    | RejectConfig       // no usable config data
    | LoadConfig(names: set<string>)
    | LoadFails(part: set<string>)
    | SpawnMount
    | ReceiveResult
    | Abandon            // the timer fired or the caller's context ended
    | StoreContext
    | PersistState(ok: bool)
    | RunCleanup         // deferred cleanupConfigRemotes
    | RunRelease         // deferred lock release

  predicate At(s: State, id: nat, pc: HandlerPc) {
    id in s.handlers && s.handlers[id].pc == pc
  }

  function RowsAt(s: State, target: string): set<Row> {
    set r | r in s.mounts && r.target == target
  }

  predicate CanPublish(s: State, id: nat, step: PublishStep) {
    match step
    case Call(_) => id !in s.handlers
    case Acquire => At(s, id, Start) && LockKey(s.handlers[id].req) !in s.locks
    case GiveUp => At(s, id, Start)
    case RejectParams => At(s, id, Locked)
    case AcceptParams => At(s, id, Locked)
    case PrepareFails => At(s, id, Prepare)
    case PrepareFresh => At(s, id, Prepare) && RowsAt(s, s.handlers[id].req.target) == {}
    case PrepareCleaned => At(s, id, Prepare)
    case PrepareHealthy => At(s, id, Prepare) && RowsAt(s, s.handlers[id].req.target) != {}
    case CleanStale(_) => At(s, id, Clean)
    case RejectConfig => At(s, id, Load)
    case LoadConfig(_) => At(s, id, Load)
    case LoadFails(_) => At(s, id, Load)
    case SpawnMount => At(s, id, Spawn)
    case ReceiveResult => At(s, id, Wait) && id in s.attempts && s.attempts[id].Sent?
    case Abandon => At(s, id, Wait)
    case StoreContext => At(s, id, Store)
    case PersistState(_) => At(s, id, Persist)
    case RunCleanup => At(s, id, DeferCleanup)
    case RunRelease => At(s, id, DeferRelease)
  }

  function NextHandler(s: State, id: nat, step: PublishStep): Handler
    requires CanPublish(s, id, step)
  {
    if step.Call? then Handler(step.req, Start, {}, false, false, Pending)
    else
      var h := s.handlers[id];
      match step
      case Acquire => h.(pc := Locked)
      case GiveUp => h.(pc := Returned, reply := Refused)
      case AcceptParams => h.(pc := Prepare)
      case PrepareFresh => h.(pc := Load)
      case PrepareCleaned => h.(pc := Load)
      case PrepareHealthy =>
        if h.req.target in s.contexts then h.(pc := DeferRelease, reply := AlreadyPublished) else h.(pc := Clean)
      case CleanStale(ok) => if ok then h.(pc := Load) else h.(pc := DeferRelease, reply := Refused)
      case LoadConfig(names) => h.(pc := Spawn, remotes := names)
      case SpawnMount => h.(pc := Wait)
      case ReceiveResult =>
        if s.attempts[id].ok then h.(pc := Store, mountSuccess := true) else h.(pc := DeferCleanup, reply := Refused)
      case Abandon => h.(pc := DeferCleanup, handOff := true, reply := Refused)
      case StoreContext => h.(pc := Persist)
      case PersistState(_) => h.(pc := DeferCleanup, reply := Published)
      case RunCleanup => h.(pc := DeferRelease)
      case RunRelease => h.(pc := Returned)
      // RejectParams, PrepareFails, RejectConfig, LoadFails: early returns, only the deferred release is left to run
      case _ => h.(pc := DeferRelease, reply := Refused)
  }

  function PublishAttempts(s: State, id: nat, step: PublishStep): map<nat, Goroutine>
    requires CanPublish(s, id, step)
  {
    match step
    case SpawnMount => s.attempts[id := Mounting]
    case ReceiveResult => s.attempts[id := Consumed(s.attempts[id].ok)]
    case _ => s.attempts
  }

  function PublishReapers(s: State, id: nat, step: PublishStep): map<nat, Reaper>
    requires CanPublish(s, id, step)
  {
    match step
    case Abandon => s.reapers[id := Reaper(s.handlers[id].req, s.handlers[id].remotes, Receiving)]
    case _ => s.reapers
  }

  function PublishSections(s: State, id: nat, step: PublishStep): set<string>
    requires CanPublish(s, id, step)
  {
    match step
    case LoadConfig(names) => s.sections + names
    case LoadFails(part) => s.sections + part
    case RunCleanup =>
      var h := s.handlers[id];
      if !h.mountSuccess && !h.handOff then s.sections - h.remotes else s.sections
    case _ => s.sections
  }

  function PublishContexts(s: State, id: nat, step: PublishStep): map<string, Context>
    requires CanPublish(s, id, step)
  {
    match step
    case StoreContext => s.contexts[s.handlers[id].req.target := Context(Attempt(id), s.handlers[id].remotes)]
    case _ => s.contexts
  }

  /** A successful force unmount leaves nothing mounted at the target. */
  function PublishMounts(s: State, id: nat, step: PublishStep): set<Row>
    requires CanPublish(s, id, step)
  {
    match step
    case PrepareCleaned => s.mounts - RowsAt(s, s.handlers[id].req.target)
    case CleanStale(ok) => if ok then s.mounts - RowsAt(s, s.handlers[id].req.target) else s.mounts
    case _ => s.mounts
  }

  function PublishSaved(s: State, id: nat, step: PublishStep): set<Request>
    requires CanPublish(s, id, step)
  {
    match step
    case PersistState(ok) => if ok then s.saved + {s.handlers[id].req} else s.saved
    case _ => s.saved
  }

  /** What a step does to the lock set. */
  datatype LockAction = Leave | Grant(key: string, owner: Owner, token: Token) | HandOver(key: string, owner: Owner)
                      | GiveBack(key: string, token: Token)

  function PublishLock(s: State, id: nat, step: PublishStep): LockAction
    requires CanPublish(s, id, step)
  {
    match step
    case Acquire => Grant(LockKey(s.handlers[id].req), HandlerOwner(id), PublishToken(id))
    case Abandon => HandOver(LockKey(s.handlers[id].req), ReaperOwner(id))
    case RunRelease => if s.handlers[id].handOff then Leave else GiveBack(LockKey(s.handlers[id].req), PublishToken(id))
    case _ => Leave
  }

  function WithLock(s: State, a: LockAction): State {
    match a
    case Leave => s
    case Grant(key, owner, token) =>
      s.(locks := s.locks + {key}, holder := s.holder[key := owner], grants := s.grants + multiset{token})
    case HandOver(key, owner) => s.(holder := s.holder[key := owner])
    case GiveBack(key, token) =>
      s.(locks := s.locks - {key}, holder := s.holder - {key}, releases := s.releases + multiset{token})
  }

  function DoPublish(s: State, id: nat, step: PublishStep): State
    requires CanPublish(s, id, step)
  {
    WithLock(s, PublishLock(s, id, step)).(
      handlers := s.handlers[id := NextHandler(s, id, step)],
      attempts := PublishAttempts(s, id, step),
      reapers := PublishReapers(s, id, step),
      sections := PublishSections(s, id, step),
      contexts := PublishContexts(s, id, step),
      mounts := PublishMounts(s, id, step),
      saved := PublishSaved(s, id, step))
  }

  // ---------------------------------------------------------------- the background mount

  datatype MountStep = Finish(ok: bool) | Send

  predicate CanMount(s: State, id: nat, step: MountStep) {
    && id in s.attempts && id in s.handlers
    && match step
       case Finish(_) => s.attempts[id].Mounting?
       case Send => s.attempts[id].Finished?
  }

  function DoMount(s: State, id: nat, step: MountStep): State
    requires CanMount(s, id, step)
  {
    match step
    case Finish(ok) =>
      s.(attempts := s.attempts[id := Finished(ok)],
         mounts := if ok then s.mounts + {Row(s.handlers[id].req.target, Attempt(id))} else s.mounts)
    case Send => s.(attempts := s.attempts[id := Sent(s.attempts[id].ok)])
  }

  // ---------------------------------------------------------------- reapOrphanMount

  datatype ReapStep = ReapReceive | ReapDetach(ok: bool) | ReapDrop | ReapRelease

  predicate ReaperAt(s: State, id: nat, pc: ReaperPc) {
    id in s.reapers && s.reapers[id].pc == pc
  }

  predicate CanReap(s: State, id: nat, step: ReapStep) {
    match step
    case ReapReceive => ReaperAt(s, id, Receiving) && id in s.attempts && s.attempts[id].Sent?
    case ReapDetach(_) => ReaperAt(s, id, Detaching)
    case ReapDrop => ReaperAt(s, id, Dropping)
    case ReapRelease => ReaperAt(s, id, Releasing)
  }

  function NextReaper(s: State, id: nat, step: ReapStep): Reaper
    requires CanReap(s, id, step)
  {
    var r := s.reapers[id];
    match step
    case ReapReceive => r.(pc := if s.attempts[id].ok then Detaching else Dropping)
    case ReapDetach(_) => r.(pc := Dropping)
    case ReapDrop => r.(pc := Releasing)
    case ReapRelease => r.(pc := Gone)
  }

  function ReapLock(s: State, id: nat, step: ReapStep): LockAction
    requires CanReap(s, id, step)
  {
    match step
    case ReapRelease => GiveBack(LockKey(s.reapers[id].req), PublishToken(id))
    case _ => Leave
  }

  function ReapMounts(s: State, id: nat, step: ReapStep): set<Row>
    requires CanReap(s, id, step)
  {
    if step == ReapDetach(true) then s.mounts - RowsAt(s, s.reapers[id].req.target) else s.mounts
  }

  function DoReap(s: State, id: nat, step: ReapStep): State
    requires CanReap(s, id, step)
  {
    WithLock(s, ReapLock(s, id, step)).(
      reapers := s.reapers[id := NextReaper(s, id, step)],
      attempts := if step.ReapReceive? then s.attempts[id := Consumed(s.attempts[id].ok)] else s.attempts,
      sections := if step.ReapDrop? then s.sections - s.reapers[id].remotes else s.sections,
      mounts := ReapMounts(s, id, step),
      undetached := if step == ReapDetach(false) then s.undetached + {id} else s.undetached)
  }

  // ---------------------------------------------------------------- NodeUnpublishVolume

  datatype UnpublishStep =
    | CallUnpublish(req: Request)
    | AcquireUnpublish
    | GiveUpUnpublish
    | CaptureContext
    | GracefulUnmount(ok: bool)   // mountPoint.Unmount within its time limit
    | DropSections
    | Detach(ok: bool)            // the forced cleanup
    | Forget
    | DeleteState(ok: bool)
    | ReleaseUnpublish

  predicate UnpublisherAt(s: State, id: nat, pc: UnpublisherPc) {
    id in s.unpublishers && s.unpublishers[id].pc == pc
  }

  predicate CanUnpublish(s: State, id: nat, step: UnpublishStep) {
    match step
    case CallUnpublish(_) => id !in s.unpublishers
    case AcquireUnpublish => UnpublisherAt(s, id, UStart) && LockKey(s.unpublishers[id].req) !in s.locks
    case GiveUpUnpublish => UnpublisherAt(s, id, UStart)
    case CaptureContext => UnpublisherAt(s, id, ULocked)
    case GracefulUnmount(_) => UnpublisherAt(s, id, UGraceful)
    case DropSections => UnpublisherAt(s, id, UDrop)
    case Detach(_) => UnpublisherAt(s, id, UDetach)
    case Forget => UnpublisherAt(s, id, UForget)
    case DeleteState(_) => UnpublisherAt(s, id, UDelete)
    case ReleaseUnpublish => UnpublisherAt(s, id, URelease)
  }

  function NextUnpublisher(s: State, id: nat, step: UnpublishStep): Unpublisher
    requires CanUnpublish(s, id, step)
  {
    if step.CallUnpublish? then Unpublisher(step.req, UStart, None, Pending)
    else
      var u := s.unpublishers[id];
      match step
      case AcquireUnpublish => u.(pc := ULocked)
      case GiveUpUnpublish => u.(pc := UReturned, reply := Refused)
      case CaptureContext =>
        if u.req.target in s.contexts then u.(pc := UGraceful, captured := Some(s.contexts[u.req.target]))
        else u.(pc := UDetach)
      case GracefulUnmount(_) => u.(pc := UDrop)
      case DropSections => u.(pc := UDetach)
      case Detach(ok) => if ok then u.(pc := UForget) else u.(pc := URelease, reply := Refused)
      case Forget => u.(pc := UDelete)
      case DeleteState(ok) => u.(pc := URelease, reply := if ok then Published else Refused)
      case ReleaseUnpublish => u.(pc := UReturned)
  }

  function UnpublishLock(s: State, id: nat, step: UnpublishStep): LockAction
    requires CanUnpublish(s, id, step)
  {
    match step
    case AcquireUnpublish => Grant(LockKey(s.unpublishers[id].req), UnpublisherOwner(id), UnpublishToken(id))
    case ReleaseUnpublish => GiveBack(LockKey(s.unpublishers[id].req), UnpublishToken(id))
    case _ => Leave
  }

  function UnpublishSections(s: State, id: nat, step: UnpublishStep): set<string>
    requires CanUnpublish(s, id, step)
  {
    if step.DropSections? && s.unpublishers[id].captured.Some?
    then s.sections - s.unpublishers[id].captured.value.remotes
    else s.sections
  }

  function UnpublishMounts(s: State, id: nat, step: UnpublishStep): set<Row>
    requires CanUnpublish(s, id, step)
  {
    match step
    case GracefulUnmount(ok) =>
      var u := s.unpublishers[id];
      if ok && u.captured.Some? then s.mounts - {Row(u.req.target, u.captured.value.source)} else s.mounts
    case Detach(ok) => if ok then s.mounts - RowsAt(s, s.unpublishers[id].req.target) else s.mounts
    case _ => s.mounts
  }

  function DoUnpublish(s: State, id: nat, step: UnpublishStep): State
    requires CanUnpublish(s, id, step)
  {
    WithLock(s, UnpublishLock(s, id, step)).(
      unpublishers := s.unpublishers[id := NextUnpublisher(s, id, step)],
      sections := UnpublishSections(s, id, step),
      mounts := UnpublishMounts(s, id, step),
      contexts := if step.Forget? then s.contexts - {s.unpublishers[id].req.target} else s.contexts,
      saved := if step == DeleteState(true) then s.saved - {s.unpublishers[id].req} else s.saved)
  }

  // ---------------------------------------------------------------- runs

  /** Any actor may move, and a mount may disappear at any time. */
  datatype Event =
    | PublishEvent(id: nat, publish: PublishStep)
    | MountEvent(id: nat, mount: MountStep)
    | ReapEvent(id: nat, reap: ReapStep)
    | UnpublishEvent(id: nat, unpublish: UnpublishStep)
    | RowVanishes(row: Row)

  predicate Enabled(s: State, e: Event) {
    match e
    case PublishEvent(id, step) => CanPublish(s, id, step)
    case MountEvent(id, step) => CanMount(s, id, step)
    case ReapEvent(id, step) => CanReap(s, id, step)
    case UnpublishEvent(id, step) => CanUnpublish(s, id, step)
    case RowVanishes(row) => row in s.mounts
  }

  function Apply(s: State, e: Event): State
    requires Enabled(s, e)
  {
    match e
    case PublishEvent(id, step) => DoPublish(s, id, step)
    case MountEvent(id, step) => DoMount(s, id, step)
    case ReapEvent(id, step) => DoReap(s, id, step)
    case UnpublishEvent(id, step) => DoUnpublish(s, id, step)
    case RowVanishes(row) => s.(mounts := s.mounts - {row})
  }

  /** A process nobody works in yet, whatever it finds: no mount stems from one of its own publishes. */
  predicate Idle(s: State) {
    && s.locks == {} && s.holder == map[] && s.grants == multiset{} && s.releases == multiset{}
    && s.handlers == map[] && s.attempts == map[] && s.reapers == map[] && s.unpublishers == map[] && s.undetached == {}
    && forall r | r in s.mounts :: !r.source.Attempt?
  }

  ghost predicate Run(s: State, es: seq<Event>, t: State)
    decreases |es|
  {
    if es == [] then s == t else Enabled(s, es[0]) && Run(Apply(s, es[0]), es[1..], t)
  }
}
