/** Direct mode: runs in which sections are leaked, or dropped while a context still lists them. */
module MountLeaks {
  import opened Text
  import opened MountLifecycle
  import opened MountOutcomes
  import opened MountOrphans
  import opened MountSections

  /**
   * A config load cut short: from any boot after which the target and the section are free, one publish fails, and when
   * it has returned the section stays loaded although nobody is at work and no context lists it.
   */
  lemma PartialLoadLeaks(plan: Plan, s: State, req: Request, x: string) returns (es: seq<Event>, t: State)
    requires Booted(s, plan) && Planned(plan, req)
    requires forall c | c in s.contexts :: x !in s.contexts[c].remotes
    ensures PlannedRun(plan, s, es, t) && t.handlers.Keys == {0} && t.handlers[0].reply == Refused
    ensures Quiet(t) && x in t.sections && forall c | c in t.contexts :: x !in t.contexts[c].remotes
  {
    var e1, m := RunToPrepare(plan, s, 0, req);
    var clean := PublishEvent(0, PrepareCleaned);
    RunStep(plan, s, e1, m, clean);
    var e2, u := RunToCutShort(plan, Apply(m, clean), 0, x);
    RunJoin(plan, s, e1 + [clean], Apply(m, clean), e2, u);
    es, t := e1 + [clean] + e2, u;
    NobodyElse(s, t);
  }

  /** The load fails after it has set one section, and the deferred release is all that runs. */
  lemma RunToCutShort(plan: Plan, s: State, id: nat, x: string) returns (es: seq<Event>, t: State)
    requires At(s, id, Load) && !s.handlers[id].handOff
    ensures PlannedRun(plan, s, es, t) && t.sections == s.sections + {x} && t.contexts == s.contexts
    ensures t.handlers == s.handlers[id := s.handlers[id].(pc := Returned, reply := Refused)]
    ensures t.reapers == s.reapers && t.unpublishers == s.unpublishers
  {
    es, t := [], s;
    RunStep(plan, s, es, t, PublishEvent(id, LoadFails({x})));
    es, t := es + [PublishEvent(id, LoadFails({x}))], DoPublish(t, id, LoadFails({x}));
    RunStep(plan, s, es, t, PublishEvent(id, RunRelease));
    es, t := es + [PublishEvent(id, RunRelease)], DoPublish(t, id, RunRelease);
  }

  lemma NobodyElse(s: State, t: State)
    requires Idle(s) && t.handlers.Keys == {0} && t.handlers[0].pc.Returned? && t.reapers == map[]
        && t.unpublishers == map[]
    ensures Quiet(t)
  {
  }

  /**
   * One volume at two targets: unpublishing it at one drops the sections that the context of the other still lists,
   * in a run that is steady in every other respect.
   */
  lemma SharedVolumeLosesSections(plan: Plan, s: State, a: Request, b: Request) returns (es: seq<Event>, t: State)
    requires Booted(s, plan) && SectionsBooted(plan, s) && Planned(plan, a) && Planned(plan, b)
    requires a.volume == b.volume && a.target != b.target && a.target in s.contexts && b.target in s.contexts
    ensures PlannedRun(plan, s, es, t) && SteadyEvents(plan, s, es)
    ensures b.target in t.contexts && t.contexts[b.target].remotes == NamesAt(plan, b.target)
    ensures t.contexts[b.target].remotes !! t.sections
  {
    es, t := RunToCaptured(plan, s, a);
    es, t := RunUnpublish(plan, s, es, t, GracefulUnmount(true));
    es, t := RunUnpublish(plan, s, es, t, DropSections);
    UnpublishesAreSteady(plan, s, es, t);
  }

  /** An unpublish gets as far as knowing the context of its target. */
  lemma RunToCaptured(plan: Plan, s: State, a: Request) returns (es: seq<Event>, t: State)
    requires Booted(s, plan) && Planned(plan, a) && a.target in s.contexts
    ensures PlannedRun(plan, s, es, t) && forall e | e in es :: e.UnpublishEvent?
    ensures t.contexts == s.contexts && 0 in t.unpublishers
    ensures t.unpublishers[0] == Unpublisher(a, UGraceful, Some(s.contexts[a.target]), Pending)
  {
    es, t := RunUnpublish(plan, s, [], s, CallUnpublish(a));
    assert t.contexts == s.contexts && t.locks == {} && t.unpublishers[0] == Unpublisher(a, UStart, None, Pending);
    es, t := RunUnpublish(plan, s, es, t, AcquireUnpublish);
    assert t.contexts == s.contexts && t.unpublishers[0] == Unpublisher(a, ULocked, None, Pending);
    es, t := RunUnpublish(plan, s, es, t, CaptureContext);
  }

  lemma RunUnpublish(plan: Plan, s: State, es: seq<Event>, t: State, step: UnpublishStep)
    returns (more: seq<Event>, u: State)
    requires PlannedRun(plan, s, es, t) && CanUnpublish(t, 0, step) && (step.CallUnpublish? ==> Planned(plan, step.req))
    requires forall e | e in es :: e.UnpublishEvent?
    ensures u == DoUnpublish(t, 0, step) && PlannedRun(plan, s, more, u)
    ensures forall e | e in more :: e.UnpublishEvent?
  {
    var e := UnpublishEvent(0, step);
    RunStep(plan, s, es, t, e);
    more, u := es + [e], Apply(t, e);
  }

  lemma UnpublishesAreSteady(plan: Plan, s: State, es: seq<Event>, t: State)
    requires PlannedRun(plan, s, es, t) && forall e | e in es :: e.UnpublishEvent?
    ensures SteadyEvents(plan, s, es)
    decreases |es|
  {
    if es != [] {
      assert es[0] in es;
      UnpublishesAreSteady(plan, Apply(s, es[0]), es[1..], t);
    }
  }
}
