/** Direct mode: what one call does from its start to its return when nobody else moves. */
module MountCalls {
  import opened Text
  import opened MountLifecycle

  // ---------------------------------------------------------------- building runs

  lemma {:induction false} RunSnoc(s: State, es: seq<Event>, t: State, e: Event)
    requires Run(s, es, t) && Enabled(t, e)
    ensures Run(s, es + [e], Apply(t, e))
    decreases |es|
  {
    if es == [] {
      assert [] + [e] == [e] && [e][1..] == [];
      assert Run(Apply(t, e), [], Apply(t, e));
    } else {
      assert (es + [e])[1..] == es[1..] + [e];
      RunSnoc(Apply(s, es[0]), es[1..], t, e);
    }
  }

  lemma Publish(s: State, es: seq<Event>, t: State, id: nat, step: PublishStep) returns (more: seq<Event>, u: State)
    requires Run(s, es, t) && CanPublish(t, id, step)
    ensures Run(s, more, u) && u == DoPublish(t, id, step)
  {
    RunSnoc(s, es, t, PublishEvent(id, step));
    more, u := es + [PublishEvent(id, step)], DoPublish(t, id, step);
  }

  lemma Mount(s: State, es: seq<Event>, t: State, id: nat, step: MountStep) returns (more: seq<Event>, u: State)
    requires Run(s, es, t) && CanMount(t, id, step)
    ensures Run(s, more, u) && u == DoMount(t, id, step)
  {
    RunSnoc(s, es, t, MountEvent(id, step));
    more, u := es + [MountEvent(id, step)], DoMount(t, id, step);
  }

  lemma Reap(s: State, es: seq<Event>, t: State, id: nat, step: ReapStep) returns (more: seq<Event>, u: State)
    requires Run(s, es, t) && CanReap(t, id, step)
    ensures Run(s, more, u) && u == DoReap(t, id, step)
  {
    RunSnoc(s, es, t, ReapEvent(id, step));
    more, u := es + [ReapEvent(id, step)], DoReap(t, id, step);
  }

  lemma Unpublish(s: State, es: seq<Event>, t: State, id: nat, step: UnpublishStep)
    returns (more: seq<Event>, u: State)
    requires Run(s, es, t) && CanUnpublish(t, id, step)
    ensures Run(s, more, u) && u == DoUnpublish(t, id, step)
  {
    RunSnoc(s, es, t, UnpublishEvent(id, step));
    more, u := es + [UnpublishEvent(id, step)], DoUnpublish(t, id, step);
  }

  // ---------------------------------------------------------------- what a call leaves

  /** What the next call can find, and the orphans. */
  datatype World = World(
    locks: set<string>, sections: set<string>, contexts: map<string, Context>, mounts: set<Row>, saved: set<Request>,
    undetached: set<nat>)

  function WorldOf(s: State): World {
    World(s.locks, s.sections, s.contexts, s.mounts, s.saved, s.undetached)
  }

  /** The publish has ended with this answer. */
  predicate Answer(s: State, id: nat, reply: Reply) {
    At(s, id, Returned) && s.handlers[id].reply == reply
  }

  predicate New(s: State, id: nat, req: Request) {
    id !in s.handlers && id !in s.attempts && id !in s.reapers && LockKey(req) !in s.locks
  }

  /** The call stands at this point, without a mount of its own and with its key. */
  predicate Ready(s: State, id: nat, req: Request, pc: HandlerPc) {
    && At(s, id, pc) && s.handlers[id].req == req && s.handlers[id].reply == Pending
    && !s.handlers[id].mountSuccess && !s.handlers[id].handOff
    && id !in s.attempts && id !in s.reapers && LockKey(req) in s.locks
  }

  lemma Begin(s: State, id: nat, req: Request) returns (es: seq<Event>, t: State)
    requires New(s, id, req)
    ensures Run(s, es, t) && Ready(t, id, req, Locked)
    ensures WorldOf(t) == WorldOf(s).(locks := s.locks + {LockKey(req)})
  {
    es, t := Publish(s, [], s, id, Call(req));
    es, t := Publish(s, es, t, id, Acquire);
  }

  /** The deferred release: the key is free again, nothing else has changed. */
  lemma Release(s: State, es: seq<Event>, t: State, id: nat, req: Request, reply: Reply)
    returns (more: seq<Event>, u: State)
    requires Run(s, es, t) && At(t, id, DeferRelease) && t.handlers[id].req == req && !t.handlers[id].handOff
    requires t.handlers[id].reply == reply
    ensures Run(s, more, u) && Answer(u, id, reply)
    ensures WorldOf(u) == WorldOf(t).(locks := t.locks - {LockKey(req)})
  {
    more, u := Publish(s, es, t, id, RunRelease);
  }

  lemma KeyBack(locks: set<string>, key: string)
    requires key !in locks
    ensures locks + {key} - {key} == locks
  {
  }

  // ---------------------------------------------------------------- publishes that return early

  /** Where a publish stops before it mounts. */
  datatype Stop = BadParams | BadTarget | StaleStays | BadConfig | CutShort(part: set<string>)

  /** A publish that stops early is refused and leaves what it found, but for the sections of a load cut short. */
  lemma RefusedEarly(s: State, id: nat, req: Request, stop: Stop) returns (es: seq<Event>, t: State)
    requires New(s, id, req)
    requires stop.StaleStays? ==> RowsAt(s, req.target) != {} && req.target !in s.contexts
    requires stop.BadConfig? || stop.CutShort? ==> RowsAt(s, req.target) == {}
    ensures Run(s, es, t) && Answer(t, id, Refused)
    ensures WorldOf(t) == WorldOf(s).(sections := s.sections + if stop.CutShort? then stop.part else {})
  {
    es, t := Begin(s, id, req);
    KeyBack(s.locks, LockKey(req));
    if stop.BadParams? {
      es, t := Publish(s, es, t, id, RejectParams);
    } else {
      es, t := Publish(s, es, t, id, AcceptParams);
      es, t := StopAt(s, es, t, id, req, stop);
    }
    es, t := Release(s, es, t, id, req, Refused);
  }

  lemma StopAt(s: State, es: seq<Event>, t: State, id: nat, req: Request, stop: Stop)
    returns (more: seq<Event>, u: State)
    requires Run(s, es, t) && Ready(t, id, req, Prepare) && !stop.BadParams?
    requires stop.StaleStays? ==> RowsAt(t, req.target) != {} && req.target !in t.contexts
    requires stop.BadConfig? || stop.CutShort? ==> RowsAt(t, req.target) == {}
    ensures Run(s, more, u) && At(u, id, DeferRelease) && u.handlers[id].reply == Refused
    ensures u.handlers[id].req == req && !u.handlers[id].handOff
    ensures WorldOf(u) == WorldOf(t).(sections := t.sections + if stop.CutShort? then stop.part else {})
  {
    match stop {
      case BadTarget => more, u := Publish(s, es, t, id, PrepareFails);
      case StaleStays => more, u := StopStale(s, es, t, id, req);
      case _ =>
        more, u := Publish(s, es, t, id, PrepareFresh);
        more, u := StopLoad(s, more, u, id, req, stop);
    }
  }

  lemma StopStale(s: State, es: seq<Event>, t: State, id: nat, req: Request) returns (more: seq<Event>, u: State)
    requires Run(s, es, t) && Ready(t, id, req, Prepare)
    requires RowsAt(t, req.target) != {} && req.target !in t.contexts
    ensures Run(s, more, u) && At(u, id, DeferRelease) && u.handlers[id].reply == Refused
    ensures u.handlers[id].req == req && !u.handlers[id].handOff && WorldOf(u) == WorldOf(t)
  {
    more, u := Publish(s, es, t, id, PrepareHealthy);
    more, u := Publish(s, more, u, id, CleanStale(false));
  }

  lemma StopLoad(s: State, es: seq<Event>, t: State, id: nat, req: Request, stop: Stop)
    returns (more: seq<Event>, u: State)
    requires Run(s, es, t) && Ready(t, id, req, Load) && (stop.BadConfig? || stop.CutShort?)
    ensures Run(s, more, u) && At(u, id, DeferRelease) && u.handlers[id].reply == Refused
    ensures u.handlers[id].req == req && !u.handlers[id].handOff
    ensures WorldOf(u) == WorldOf(t).(sections := t.sections + if stop.CutShort? then stop.part else {})
  {
    more, u := Publish(s, es, t, id, if stop.BadConfig? then RejectConfig else LoadFails(stop.part));
  }

  /** A publish that finds its target mounted and with a context says so and changes nothing. */
  lemma AlreadyThere(s: State, id: nat, req: Request) returns (es: seq<Event>, t: State)
    requires New(s, id, req) && RowsAt(s, req.target) != {} && req.target in s.contexts
    ensures Run(s, es, t) && Answer(t, id, AlreadyPublished) && WorldOf(t) == WorldOf(s)
  {
    es, t := Begin(s, id, req);
    KeyBack(s.locks, LockKey(req));
    es, t := Publish(s, es, t, id, AcceptParams);
    assert RowsAt(t, req.target) == RowsAt(s, req.target);
    es, t := Publish(s, es, t, id, PrepareHealthy);
    es, t := Release(s, es, t, id, req, AlreadyPublished);
  }

  // ---------------------------------------------------------------- publishes that mount

  /** How a publish comes by a clear target. */
  predicate Clearable(s: State, req: Request) {
    RowsAt(s, req.target) == {} || req.target !in s.contexts
  }

  /** The target is clear: fresh, or a mount without a context was cleaned away. */
  lemma ClearTarget(s: State, id: nat, req: Request) returns (es: seq<Event>, t: State)
    requires New(s, id, req) && Clearable(s, req)
    ensures Run(s, es, t) && Ready(t, id, req, Load)
    ensures WorldOf(t)
         == WorldOf(s).(locks := s.locks + {LockKey(req)}, mounts := s.mounts - RowsAt(s, req.target))
  {
    es, t := Begin(s, id, req);
    es, t := Publish(s, es, t, id, AcceptParams);
    assert RowsAt(t, req.target) == RowsAt(s, req.target);
    if RowsAt(s, req.target) == {} {
      es, t := Publish(s, es, t, id, PrepareFresh);
      assert s.mounts - {} == s.mounts;
    } else {
      es, t := Publish(s, es, t, id, PrepareHealthy);
      assert RowsAt(t, req.target) == RowsAt(s, req.target);
      es, t := Publish(s, es, t, id, CleanStale(true));
    }
  }

  /** The mount has been started. */
  lemma StartMount(s: State, es: seq<Event>, t: State, id: nat, req: Request, names: set<string>)
    returns (more: seq<Event>, u: State)
    requires Run(s, es, t) && Ready(t, id, req, Load)
    ensures Run(s, more, u) && At(u, id, Wait) && id in u.attempts && u.attempts[id] == Mounting && id !in u.reapers
    ensures u.handlers[id] == Handler(req, Wait, names, false, false, Pending)
    ensures WorldOf(u) == WorldOf(t).(sections := t.sections + names)
  {
    more, u := Publish(s, es, t, id, LoadConfig(names));
    more, u := Publish(s, more, u, id, SpawnMount);
  }

  /** The mount has ended, and its result lies in the channel. */
  lemma EndMount(s: State, es: seq<Event>, t: State, id: nat, ok: bool) returns (more: seq<Event>, u: State)
    requires Run(s, es, t) && id in t.handlers && id in t.attempts && t.attempts[id] == Mounting
    ensures Run(s, more, u) && u.handlers == t.handlers && u.reapers == t.reapers
    ensures id in u.attempts && u.attempts[id] == Sent(ok)
    ensures var row := Row(t.handlers[id].req.target, Attempt(id));
            WorldOf(u) == WorldOf(t).(mounts := t.mounts + if ok then {row} else {})
  {
    more, u := Mount(s, es, t, id, Finish(ok));
    more, u := Mount(s, more, u, id, Send);
    assert !ok ==> t.mounts + {} == t.mounts;
  }

  /** From the result on: recorded and saved, or everything that was loaded is dropped again. */
  lemma TakeResult(s: State, es: seq<Event>, t: State, id: nat, req: Request, names: set<string>, saveOk: bool)
    returns (more: seq<Event>, u: State)
    requires Run(s, es, t) && id in t.handlers && t.handlers[id] == Handler(req, Wait, names, false, false, Pending)
    requires id in t.attempts && t.attempts[id].Sent? && id !in t.reapers
    ensures Run(s, more, u) && At(u, id, DeferRelease) && u.handlers[id].req == req && !u.handlers[id].handOff
    ensures u.handlers[id].reply == if t.attempts[id].ok then Published else Refused
    ensures WorldOf(u)
         == if t.attempts[id].ok
            then WorldOf(t).(contexts := t.contexts[req.target := Context(Attempt(id), names)],
                             saved := t.saved + if saveOk then {req} else {})
            else WorldOf(t).(sections := t.sections - names)
  {
    more, u := Publish(s, es, t, id, ReceiveResult);
    if t.attempts[id].ok {
      more, u := StoreResult(s, more, u, id, req, names, saveOk);
    } else {
      more, u := Publish(s, more, u, id, RunCleanup);
    }
  }

  lemma StoreResult(s: State, es: seq<Event>, t: State, id: nat, req: Request, names: set<string>, saveOk: bool)
    returns (more: seq<Event>, u: State)
    requires Run(s, es, t) && id in t.handlers && t.handlers[id] == Handler(req, Store, names, true, false, Pending)
    ensures Run(s, more, u) && At(u, id, DeferRelease) && u.handlers[id].req == req && !u.handlers[id].handOff
    ensures u.handlers[id].reply == Published
    ensures WorldOf(u) == WorldOf(t).(contexts := t.contexts[req.target := Context(Attempt(id), names)],
                                      saved := t.saved + if saveOk then {req} else {})
  {
    more, u := Publish(s, es, t, id, StoreContext);
    more, u := Publish(s, more, u, id, PersistState(saveOk));
    assert !saveOk ==> t.saved + {} == t.saved;
    more, u := Publish(s, more, u, id, RunCleanup);
  }

  /**
   * A publish that gets to its mount in time: success means that exactly its mount is at the target, its sections are
   * loaded, its context is stored and, if that worked, its state saved; otherwise it is refused, nothing is mounted and
   * its sections are dropped. The key is free either way.
   */
  lemma PublishAlone(s: State, id: nat, req: Request, names: set<string>, mountOk: bool, saveOk: bool)
    returns (es: seq<Event>, t: State)
    requires New(s, id, req) && Clearable(s, req)
    ensures Run(s, es, t) && Answer(t, id, if mountOk then Published else Refused)
    ensures t.locks == s.locks
    ensures t.mounts == s.mounts - RowsAt(s, req.target) + if mountOk then {Row(req.target, Attempt(id))} else {}
    ensures t.sections == if mountOk then s.sections + names else s.sections - names
    ensures t.contexts == if mountOk then s.contexts[req.target := Context(Attempt(id), names)] else s.contexts
    ensures t.saved == if mountOk && saveOk then s.saved + {req} else s.saved
  {
    es, t := ClearTarget(s, id, req);
    es, t := StartMount(s, es, t, id, req, names);
    es, t := EndMount(s, es, t, id, mountOk);
    es, t := TakeResult(s, es, t, id, req, names, saveOk);
    SetsAlone(s, names);
    es, t := Release(s, es, t, id, req, if mountOk then Published else Refused);
    KeyBack(s.locks, LockKey(req));
  }

  lemma SetsAlone(s: State, names: set<string>)
    ensures s.sections + names - names == s.sections - names && s.saved + {} == s.saved
    ensures s.undetached + {} == s.undetached && s.mounts + {} == s.mounts && s.mounts - {} == s.mounts
  {
  }

  /** The caller gives up waiting, is refused and returns with the key still taken; the reaper now waits instead. */
  lemma Abandoned(s: State, es: seq<Event>, t: State, id: nat, req: Request, names: set<string>)
    returns (more: seq<Event>, u: State)
    requires Run(s, es, t) && id in t.handlers && t.handlers[id] == Handler(req, Wait, names, false, false, Pending)
    requires id in t.attempts && t.attempts[id] == Mounting
    ensures Run(s, more, u) && Answer(u, id, Refused) && WorldOf(u) == WorldOf(t)
    ensures u.handlers[id].req == req && u.attempts == t.attempts
    ensures id in u.reapers && u.reapers[id] == Reaper(req, names, Receiving)
  {
    more, u := Publish(s, es, t, id, Abandon);
    more, u := Publish(s, more, u, id, RunCleanup);
    more, u := Publish(s, more, u, id, RunRelease);
  }

  lemma Detached(s: State, es: seq<Event>, t: State, id: nat, req: Request, names: set<string>, detachOk: bool)
    returns (more: seq<Event>, u: State)
    requires Run(s, es, t) && id in t.reapers && t.reapers[id] == Reaper(req, names, Receiving)
    requires id in t.attempts && t.attempts[id].Sent?
    ensures Run(s, more, u) && u.handlers == t.handlers
    ensures id in u.reapers && u.reapers[id] == Reaper(req, names, Dropping)
    ensures WorldOf(u)
         == WorldOf(t).(mounts := if t.attempts[id].ok && detachOk then t.mounts - RowsAt(t, req.target) else t.mounts,
                        undetached := t.undetached + if t.attempts[id].ok && !detachOk then {id} else {})
  {
    more, u := Reap(s, es, t, id, ReapReceive);
    assert RowsAt(u, req.target) == RowsAt(t, req.target);
    if t.attempts[id].ok {
      more, u := Reap(s, more, u, id, ReapDetach(detachOk));
    }
    assert t.undetached + {} == t.undetached;
  }

  /** The reaper takes the result and cleans up. */
  lemma Reaped(s: State, es: seq<Event>, t: State, id: nat, req: Request, names: set<string>, detachOk: bool)
    returns (more: seq<Event>, u: State)
    requires Run(s, es, t) && id in t.reapers && t.reapers[id] == Reaper(req, names, Receiving)
    requires id in t.attempts && t.attempts[id].Sent? && Answer(t, id, Refused)
    ensures Run(s, more, u) && u.handlers == t.handlers
    ensures WorldOf(u)
         == WorldOf(t).(locks := t.locks - {LockKey(req)}, sections := t.sections - names,
                        mounts := if t.attempts[id].ok && detachOk then t.mounts - RowsAt(t, req.target) else t.mounts,
                        undetached := t.undetached + if t.attempts[id].ok && !detachOk then {id} else {})
  {
    more, u := Detached(s, es, t, id, req, names, detachOk);
    more, u := Reap(s, more, u, id, ReapDrop);
    more, u := Reap(s, more, u, id, ReapRelease);
  }

  /**
   * A publish whose caller stops waiting: refused, and whenever its mount ends the reaper leaves neither the mount,
   * unless it cannot detach it, nor the sections, nor the lock; no context and no saved state is recorded.
   */
  lemma AbandonedAlone(s: State, id: nat, req: Request, names: set<string>, mountOk: bool, detachOk: bool)
    returns (es: seq<Event>, t: State)
    requires New(s, id, req) && RowsAt(s, req.target) == {}
    ensures Run(s, es, t) && Answer(t, id, Refused)
    ensures t.locks == s.locks && t.sections == s.sections - names && t.contexts == s.contexts && t.saved == s.saved
    ensures t.mounts == s.mounts + if mountOk && !detachOk then {Row(req.target, Attempt(id))} else {}
    ensures t.undetached == s.undetached + if mountOk && !detachOk then {id} else {}
  {
    var e1, s1 := ClearTarget(s, id, req);
    SetsAlone(s, names);
    es, t := StartMount(s, e1, s1, id, req, names);
    es, t := Abandoned(s, es, t, id, req, names);
    es, t := EndMount(s, es, t, id, mountOk);
    var ended := t;
    es, t := Reaped(s, es, t, id, req, names, detachOk);
    KeyBack(s.locks, LockKey(req));
    OnlyOwnRow(s.mounts, req.target, Row(req.target, Attempt(id)), ended);
  }

  lemma OnlyOwnRow(mounts: set<Row>, target: string, row: Row, t: State)
    requires row.target == target && forall r | r in mounts :: r.target != target
    requires t.mounts == mounts + {row} || t.mounts == mounts + {}
    ensures t.mounts - RowsAt(t, target) == mounts
  {
  }

  // ---------------------------------------------------------------- unpublish

  predicate NewUnpublish(s: State, id: nat, req: Request) {
    id !in s.unpublishers && LockKey(req) !in s.locks
  }

  predicate AnswerUnpublish(s: State, id: nat, reply: Reply) {
    UnpublisherAt(s, id, UReturned) && s.unpublishers[id].reply == reply
  }

  /** The sections the context of the target lists, if it has one. */
  function ListedSections(s: State, target: string): set<string> {
    if target in s.contexts then s.contexts[target].remotes else {}
  }

  /** The mount a graceful unmount takes away: that of the context. */
  function ListedRows(s: State, target: string, graceful: bool): set<Row> {
    if target in s.contexts && graceful then {Row(target, s.contexts[target].source)} else {}
  }

  lemma Captured(s: State, id: nat, req: Request) returns (es: seq<Event>, t: State)
    requires NewUnpublish(s, id, req)
    ensures Run(s, es, t) && id in t.unpublishers
    ensures t.unpublishers[id]
         == if req.target in s.contexts
            then Unpublisher(req, UGraceful, Some(s.contexts[req.target]), Pending)
            else Unpublisher(req, UDetach, None, Pending)
    ensures WorldOf(t) == WorldOf(s).(locks := s.locks + {LockKey(req)})
  {
    es, t := Unpublish(s, [], s, id, CallUnpublish(req));
    es, t := Unpublish(s, es, t, id, AcquireUnpublish);
    es, t := Unpublish(s, es, t, id, CaptureContext);
  }

  /** The sections and the mount of the context are gone, the context still listed. */
  lemma Unmounted(s: State, id: nat, req: Request, graceful: bool) returns (es: seq<Event>, t: State)
    requires NewUnpublish(s, id, req)
    ensures Run(s, es, t) && UnpublisherAt(t, id, UDetach)
    ensures t.unpublishers[id].req == req && t.unpublishers[id].reply == Pending
    ensures WorldOf(t)
         == WorldOf(s).(locks := s.locks + {LockKey(req)}, sections := s.sections - ListedSections(s, req.target),
                        mounts := s.mounts - ListedRows(s, req.target, graceful))
  {
    es, t := Captured(s, id, req);
    assert s.sections - {} == s.sections && s.mounts - {} == s.mounts;
    if req.target in s.contexts {
      es, t := Unpublish(s, es, t, id, GracefulUnmount(graceful));
      es, t := Unpublish(s, es, t, id, DropSections);
    }
  }

  /** The forced cleanup and what follows it. */
  lemma CleanedUp(s: State, es: seq<Event>, t: State, id: nat, req: Request, detachOk: bool, deleteOk: bool)
    returns (more: seq<Event>, u: State)
    requires Run(s, es, t) && UnpublisherAt(t, id, UDetach)
    requires t.unpublishers[id].req == req && t.unpublishers[id].reply == Pending
    ensures Run(s, more, u) && AnswerUnpublish(u, id, if detachOk && deleteOk then Published else Refused)
    ensures WorldOf(u)
         == WorldOf(t).(locks := t.locks - {LockKey(req)},
                        mounts := if detachOk then t.mounts - RowsAt(t, req.target) else t.mounts,
                        contexts := if detachOk then t.contexts - {req.target} else t.contexts,
                        saved := if detachOk && deleteOk then t.saved - {req} else t.saved)
  {
    more, u := Unpublish(s, es, t, id, Detach(detachOk));
    if detachOk {
      more, u := Forgotten(s, more, u, id, req, deleteOk);
    } else {
      more, u := Unpublish(s, more, u, id, ReleaseUnpublish);
    }
  }

  lemma Forgotten(s: State, es: seq<Event>, t: State, id: nat, req: Request, deleteOk: bool)
    returns (more: seq<Event>, u: State)
    requires Run(s, es, t) && UnpublisherAt(t, id, UForget)
    requires t.unpublishers[id].req == req && t.unpublishers[id].reply == Pending
    ensures Run(s, more, u) && AnswerUnpublish(u, id, if deleteOk then Published else Refused)
    ensures WorldOf(u)
         == WorldOf(t).(locks := t.locks - {LockKey(req)}, contexts := t.contexts - {req.target},
                        saved := if deleteOk then t.saved - {req} else t.saved)
  {
    more, u := Unpublish(s, es, t, id, Forget);
    more, u := Unpublish(s, more, u, id, DeleteState(deleteOk));
    more, u := Unpublish(s, more, u, id, ReleaseUnpublish);
  }

  /**
   * An unpublish: success exactly if the forced cleanup and the deletion work, and then no mount, no context and no
   * saved state is left at the target; if the cleanup fails, context and saved state stay for the next attempt. The
   * sections of the context are dropped in any case.
   */
  lemma UnpublishAlone(s: State, id: nat, req: Request, graceful: bool, detachOk: bool, deleteOk: bool)
    returns (es: seq<Event>, t: State)
    requires NewUnpublish(s, id, req)
    ensures Run(s, es, t) && AnswerUnpublish(t, id, if detachOk && deleteOk then Published else Refused)
    ensures t.locks == s.locks && t.undetached == s.undetached
    ensures t.sections == s.sections - ListedSections(s, req.target)
    ensures t.mounts == s.mounts - if detachOk then RowsAt(s, req.target) else ListedRows(s, req.target, graceful)
    ensures t.contexts == if detachOk then s.contexts - {req.target} else s.contexts
    ensures t.saved == if detachOk && deleteOk then s.saved - {req} else s.saved
  {
    es, t := Unmounted(s, id, req, graceful);
    AllRowsGone(s, t, req.target, ListedRows(s, req.target, graceful));
    es, t := CleanedUp(s, es, t, id, req, detachOk, deleteOk);
    KeyBack(s.locks, LockKey(req));
  }

  lemma AllRowsGone(s: State, t: State, target: string, some: set<Row>)
    requires t.mounts == s.mounts - some && forall r | r in some :: r.target == target
    ensures t.mounts - RowsAt(t, target) == s.mounts - RowsAt(s, target)
  {
  }
}
