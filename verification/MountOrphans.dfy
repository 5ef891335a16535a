/** Why "already published" needs the orphan's detach to work: a run in which it answers for a mount nobody reported. */
module MountOrphans {
  import opened MountLifecycle
  import opened MountSafety
  import opened MountOutcomes

  lemma {:induction false} RunJoin(plan: Plan, s: State, first: seq<Event>, m: State, rest: seq<Event>, t: State)
    requires PlannedRun(plan, s, first, m) && PlannedRun(plan, m, rest, t)
    ensures PlannedRun(plan, s, first + rest, t)
    decreases |first|
  {
    if first == [] {
      assert first + rest == rest;
    } else {
      RunJoin(plan, Apply(s, first[0]), first[1..], m, rest, t);
      assert (first + rest)[1..] == first[1..] + rest;
    }
  }

  lemma RunStep(plan: Plan, s: State, es: seq<Event>, t: State, e: Event)
    requires PlannedRun(plan, s, es, t) && Enabled(t, e) && Follows(plan, e)
    ensures PlannedRun(plan, s, es + [e], Apply(t, e))
  {
    assert [e][1..] == [];
    assert PlannedRun(plan, t, [e], Apply(t, e));
    RunJoin(plan, s, es, t, [e], Apply(t, e));
  }

  /** Nothing is known about the call number, and the target is free. */
  predicate Unused(s: State, id: nat, req: Request) {
    id !in s.handlers && id !in s.attempts && id !in s.reapers && LockKey(req) !in s.locks
  }

  /** A call gets as far as preparing its target. */
  lemma RunToPrepare(plan: Plan, s: State, id: nat, req: Request) returns (es: seq<Event>, t: State)
    requires Planned(plan, req) && Unused(s, id, req)
    ensures PlannedRun(plan, s, es, t)
    ensures t.handlers == s.handlers[id := Handler(req, Prepare, {}, false, false, Pending)]
    ensures t.attempts == s.attempts && t.reapers == s.reapers && t.locks == s.locks + {LockKey(req)}
    ensures t.contexts == s.contexts && t.mounts == s.mounts && t.undetached == s.undetached
    ensures t.sections == s.sections && t.unpublishers == s.unpublishers
  {
    es, t := RunToStart(plan, s, id, req);
    es, t := RunToLocked(plan, s, es, t, id, req);
    var locked := t;
    es, t := RunPublish(plan, s, es, t, id, AcceptParams);
    SetTwice(s.handlers, id, locked.handlers[id], t.handlers[id]);
  }

  lemma RunToStart(plan: Plan, s: State, id: nat, req: Request) returns (es: seq<Event>, t: State)
    requires Planned(plan, req) && id !in s.handlers
    ensures PlannedRun(plan, s, es, t)
    ensures t == s.(handlers := s.handlers[id := Handler(req, Start, {}, false, false, Pending)])
  {
    es, t := RunPublish(plan, s, [], s, id, Call(req));
  }

  lemma RunToLocked(plan: Plan, s: State, es: seq<Event>, t: State, id: nat, req: Request)
    returns (more: seq<Event>, u: State)
    requires PlannedRun(plan, s, es, t) && LockKey(req) !in s.locks
    requires t == s.(handlers := s.handlers[id := Handler(req, Start, {}, false, false, Pending)])
    ensures PlannedRun(plan, s, more, u)
    ensures u.handlers == s.handlers[id := Handler(req, Locked, {}, false, false, Pending)]
    ensures u.attempts == s.attempts && u.reapers == s.reapers && u.locks == s.locks + {LockKey(req)}
    ensures u.contexts == s.contexts && u.mounts == s.mounts && u.undetached == s.undetached
    ensures u.sections == s.sections && u.unpublishers == s.unpublishers
  {
    more, u := RunPublish(plan, s, es, t, id, Acquire);
    SetTwice(s.handlers, id, t.handlers[id], u.handlers[id]);
  }

  lemma SetTwice(m: map<nat, Handler>, id: nat, a: Handler, b: Handler)
    ensures m[id := a][id := b] == m[id := b]
  {
  }

  lemma RunPublish(plan: Plan, s: State, es: seq<Event>, t: State, id: nat, step: PublishStep)
    returns (more: seq<Event>, u: State)
    requires PlannedRun(plan, s, es, t) && CanPublish(t, id, step) && (step.Call? ==> Planned(plan, step.req))
    ensures u == DoPublish(t, id, step) && PlannedRun(plan, s, more, u)
  {
    var e := PublishEvent(id, step);
    RunStep(plan, s, es, t, e);
    more, u := es + [e], Apply(t, e);
  }

  /** Past an empty target it starts a mount. */
  lemma RunToWait(plan: Plan, s: State, id: nat, req: Request) returns (es: seq<Event>, t: State)
    requires At(s, id, Load) && s.handlers[id].req == req
    ensures PlannedRun(plan, s, es, t)
    ensures t.handlers == s.handlers[id := s.handlers[id].(pc := Wait, remotes := {})]
    ensures t.attempts == s.attempts[id := Mounting] && t.reapers == s.reapers
    ensures t.locks == s.locks && t.contexts == s.contexts && t.mounts == s.mounts && t.undetached == s.undetached
  {
    es, t := [], s;
    var load := LoadConfig({});
    RunStep(plan, s, es, t, PublishEvent(id, load));
    es, t := es + [PublishEvent(id, load)], DoPublish(t, id, load);
    RunStep(plan, s, es, t, PublishEvent(id, SpawnMount));
    es, t := es + [PublishEvent(id, SpawnMount)], DoPublish(t, id, SpawnMount);
  }

  /** The call gives up waiting, and then the mount comes up after all. */
  lemma RunToLateMount(plan: Plan, s: State, id: nat, req: Request) returns (es: seq<Event>, t: State)
    requires At(s, id, Wait) && s.handlers[id].req == req && id in s.attempts && s.attempts[id] == Mounting
    ensures PlannedRun(plan, s, es, t)
    ensures t.handlers.Keys == s.handlers.Keys && t.attempts == s.attempts[id := Sent(true)]
    ensures t.reapers == s.reapers[id := Reaper(req, s.handlers[id].remotes, Receiving)]
    ensures t.locks == s.locks && t.contexts == s.contexts && t.undetached == s.undetached
    ensures t.mounts == s.mounts + {Row(req.target, Attempt(id))}
  {
    es, t := [], s;
    RunStep(plan, s, es, t, PublishEvent(id, Abandon));
    es, t := es + [PublishEvent(id, Abandon)], DoPublish(t, id, Abandon);
    RunStep(plan, s, es, t, MountEvent(id, Finish(true)));
    es, t := es + [MountEvent(id, Finish(true))], DoMount(t, id, Finish(true));
    RunStep(plan, s, es, t, MountEvent(id, Send));
    es, t := es + [MountEvent(id, Send)], DoMount(t, id, Send);
  }

  /** The reaper finds the mount up and cannot detach it. */
  lemma RunToUndetached(plan: Plan, s: State, id: nat) returns (es: seq<Event>, t: State)
    requires ReaperAt(s, id, Receiving) && id in s.attempts && s.attempts[id] == Sent(true)
    ensures PlannedRun(plan, s, es, t)
    ensures t.handlers == s.handlers && t.attempts.Keys == s.attempts.Keys
    ensures t.reapers == s.reapers[id := s.reapers[id].(pc := Dropping)]
    ensures t.locks == s.locks && t.contexts == s.contexts && t.mounts == s.mounts
        && t.undetached == s.undetached + {id}
  {
    es, t := [], s;
    RunStep(plan, s, es, t, ReapEvent(id, ReapReceive));
    es, t := es + [ReapEvent(id, ReapReceive)], DoReap(t, id, ReapReceive);
    RunStep(plan, s, es, t, ReapEvent(id, ReapDetach(false)));
    es, t := es + [ReapEvent(id, ReapDetach(false))], DoReap(t, id, ReapDetach(false));
  }

  /** It frees the key all the same. */
  lemma RunToFree(plan: Plan, s: State, id: nat, req: Request) returns (es: seq<Event>, t: State)
    requires ReaperAt(s, id, Dropping) && s.reapers[id].req == req
    ensures PlannedRun(plan, s, es, t)
    ensures t.handlers == s.handlers && t.attempts == s.attempts && t.reapers.Keys == s.reapers.Keys
    ensures t.locks == s.locks - {LockKey(req)}
    ensures t.contexts == s.contexts && t.mounts == s.mounts && t.undetached == s.undetached
  {
    es, t := [], s;
    RunStep(plan, s, es, t, ReapEvent(id, ReapDrop));
    es, t := es + [ReapEvent(id, ReapDrop)], DoReap(t, id, ReapDrop);
    RunStep(plan, s, es, t, ReapEvent(id, ReapRelease));
    es, t := es + [ReapEvent(id, ReapRelease)], DoReap(t, id, ReapRelease);
  }

  lemma RunToStarted(plan: Plan, s: State, id: nat, req: Request) returns (es: seq<Event>, t: State)
    requires Planned(plan, req) && Unused(s, id, req) && RowsAt(s, req.target) == {}
    ensures PlannedRun(plan, s, es, t) && At(t, id, Wait) && t.handlers[id].req == req
    ensures t.handlers.Keys == s.handlers.Keys + {id} && t.attempts == s.attempts[id := Mounting]
        && t.reapers == s.reapers
    ensures t.locks == s.locks + {LockKey(req)} && t.contexts == s.contexts && t.mounts == s.mounts
    ensures t.undetached == s.undetached
  {
    var e1, s1 := RunToPrepare(plan, s, id, req);
    assert RowsAt(s1, req.target) == RowsAt(s, req.target);
    RunStep(plan, s, e1, s1, PublishEvent(id, PrepareFresh));
    var s2 := DoPublish(s1, id, PrepareFresh);
    var e3, s3 := RunToWait(plan, s2, id, req);
    RunJoin(plan, s, e1 + [PublishEvent(id, PrepareFresh)], s2, e3, s3);
    es, t := e1 + [PublishEvent(id, PrepareFresh)] + e3, s3;
  }

  lemma RunToLoose(plan: Plan, s: State, id: nat, req: Request) returns (es: seq<Event>, t: State)
    requires At(s, id, Wait) && s.handlers[id].req == req && id in s.attempts && s.attempts[id] == Mounting
    ensures PlannedRun(plan, s, es, t) && ReaperAt(t, id, Dropping) && t.reapers[id].req == req
    ensures t.handlers.Keys == s.handlers.Keys && t.attempts.Keys == s.attempts.Keys
    ensures t.reapers.Keys == s.reapers.Keys + {id} && t.locks == s.locks && t.contexts == s.contexts
    ensures t.mounts == s.mounts + {Row(req.target, Attempt(id))} && t.undetached == s.undetached + {id}
  {
    var e1, s1 := RunToLateMount(plan, s, id, req);
    var e2, s2 := RunToUndetached(plan, s1, id);
    RunJoin(plan, s, e1, s1, e2, s2);
    es, t := e1 + e2, s2;
  }

  lemma RunToOrphan(plan: Plan, s: State, id: nat, req: Request) returns (es: seq<Event>, t: State)
    requires Planned(plan, req) && Unused(s, id, req) && RowsAt(s, req.target) == {}
    ensures PlannedRun(plan, s, es, t)
    ensures t.handlers.Keys == s.handlers.Keys + {id} && t.attempts.Keys == s.attempts.Keys + {id}
    ensures t.reapers.Keys == s.reapers.Keys + {id} && t.locks == s.locks && t.contexts == s.contexts
    ensures t.mounts == s.mounts + {Row(req.target, Attempt(id))} && t.undetached == s.undetached + {id}
  {
    var e1, s1 := RunToStarted(plan, s, id, req);
    var e2, s2 := RunToLoose(plan, s1, id, req);
    var e3, s3 := RunToFree(plan, s2, id, req);
    RunJoin(plan, s, e1, s1, e2, s2);
    RunJoin(plan, s, e1 + e2, s2, e3, s3);
    es, t := e1 + e2 + e3, s3;
  }

  /**
   * From any initial state whose context for the target has lost its mount: publish 0 is told it failed, its mount
   * comes up late and does not detach, and publish 1 is answered "already published" although the only mount there
   * is the orphan of publish 0.
   */
  lemma OrphanPassesForPublished(plan: Plan, s: State, req: Request) returns (es: seq<Event>, t: State)
    requires Booted(s, plan) && Planned(plan, req)
    requires req.target in s.contexts && RowsAt(s, req.target) == {}
    ensures PlannedRun(plan, s, es, t) && AnswersPublished(t, 1) && t.handlers[1].req == req
    ensures RowsAt(t, req.target) == {Row(req.target, Attempt(0))}
    ensures Orphaned(t, Row(req.target, Attempt(0))) && !ReportedUp(t, Row(req.target, Attempt(0)))
  {
    var e1, m := RunToOrphan(plan, s, 0, req);
    var e2, u := RunToPrepare(plan, m, 1, req);
    RunJoin(plan, s, e1, m, e2, u);
    es, t := e1 + e2, u;
    OneRow(s, t, req.target, Row(req.target, Attempt(0)));
    NotReported(plan, s, es, t);
    HealthyAnswers(t, 1, req);
  }

  lemma HealthyAnswers(t: State, id: nat, req: Request)
    requires At(t, id, Prepare) && t.handlers[id].req == req && req.target in t.contexts && RowsAt(t, req.target) != {}
    ensures AnswersPublished(t, id)
  {
  }

  lemma OneRow(s: State, t: State, target: string, row: Row)
    requires RowsAt(s, target) == {} && t.mounts == s.mounts + {row} && row.target == target
    ensures RowsAt(t, target) == {row}
  {
    assert forall r | r in s.mounts && r.target == target :: r in RowsAt(s, target);
  }

  /** The reaper's call was refused. */
  lemma NotReported(plan: Plan, s: State, es: seq<Event>, t: State)
    requires Booted(s, plan) && PlannedRun(plan, s, es, t) && 0 in t.reapers
    ensures 0 in t.handlers && t.handlers[0].reply == Refused
  {
    BootedReported(plan, s);
    RunReported(plan, s, es, t);
    assert CallFits(t, 0) && AnswerFits(t, 0);
  }
}
