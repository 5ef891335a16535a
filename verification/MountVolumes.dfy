/** Direct mode: loading and dropping sections for one volume leaves every section of another volume as it was. */
module MountVolumes {
  import opened Text
  import opened MountLifecycle
  import opened MountSafety
  import opened MountOutcomes
  import ConfigIsolation

  // ---------------------------------------------------------------- whose sections a step touches

  /** A step that sets or deletes sections of one volume. */
  datatype Touch = Touch(volume: string, loads: bool)

  function TouchOf(s: State, e: Event): Option<Touch>
    requires Enabled(s, e)
  {
    match e
    case PublishEvent(id, step) =>
      (match step
       case LoadConfig(_) => Some(Touch(s.handlers[id].req.volume, true))
       case LoadFails(_) => Some(Touch(s.handlers[id].req.volume, true))
       case RunCleanup =>
         var h := s.handlers[id];
         if !h.mountSuccess && !h.handOff then Some(Touch(h.req.volume, false)) else None
       case _ => None)
    case ReapEvent(id, step) => if step.ReapDrop? then Some(Touch(s.reapers[id].req.volume, false)) else None
    case UnpublishEvent(id, step) =>
      if step.DropSections? then Some(Touch(s.unpublishers[id].req.volume, false)) else None
    case _ => None
  }

  // ---------------------------------------------------------------- the volume a section belongs to

  /** The volume whose prefix a section name carries. */
  type Carrier = string -> string

  predicate CarriedBy(own: Carrier, names: set<string>, volume: string) {
    forall x | x in names :: own(x) == volume
  }

  /** A load sets only names that carry the prefix of its volume; which ones may change from load to load. */
  predicate LoadsOwn(own: Carrier, s: State, e: Event)
    requires Enabled(s, e)
  {
    e.PublishEvent? ==>
      match e.publish
      case LoadConfig(names) => CarriedBy(own, names, s.handlers[e.id].req.volume)
      case LoadFails(part) => CarriedBy(own, part, s.handlers[e.id].req.volume)
      case _ => true
  }

  ghost predicate LoadsOwnAlong(own: Carrier, s: State, es: seq<Event>)
    decreases |es|
  {
    es == [] || (Enabled(s, es[0]) && LoadsOwn(own, s, es[0]) && LoadsOwnAlong(own, Apply(s, es[0]), es[1..]))
  }

  ghost predicate ContextsCarried(own: Carrier, plan: Plan, s: State) {
    forall t | t in s.contexts :: t in plan.volumeAt && CarriedBy(own, s.contexts[t].remotes, plan.volumeAt[t])
  }

  ghost predicate CallsCarried(own: Carrier, s: State) {
    && (forall id | id in s.handlers :: CarriedBy(own, s.handlers[id].remotes, s.handlers[id].req.volume))
    && (forall id | id in s.reapers :: CarriedBy(own, s.reapers[id].remotes, s.reapers[id].req.volume))
    && (forall id | id in s.unpublishers && s.unpublishers[id].captured.Some? ::
          CarriedBy(own, s.unpublishers[id].captured.value.remotes, s.unpublishers[id].req.volume))
  }

  /** Every actor and every context lists names of its own volume only. */
  ghost predicate Carried(own: Carrier, plan: Plan, s: State) {
    CallsPlanned(plan, s) && CallsCarried(own, s) && ContextsCarried(own, plan, s)
  }

  lemma CarriedKept(own: Carrier, plan: Plan, s: State, e: Event)
    requires Carried(own, plan, s) && Enabled(s, e) && Follows(plan, e) && LoadsOwn(own, s, e)
    ensures Carried(own, plan, Apply(s, e))
  {
    CallsPlannedKept(plan, s, e);
    match e {
      case PublishEvent(id, step) => PublishCarried(own, plan, s, id, step);
      case UnpublishEvent(id, step) => UnpublishCarried(own, plan, s, id, step);
      case MountEvent(id, step) =>
      case ReapEvent(id, step) => ReapCarried(own, plan, s, id, step);
      case RowVanishes(_) =>
    }
  }

  lemma PublishCarried(own: Carrier, plan: Plan, s: State, id: nat, step: PublishStep)
    requires Carried(own, plan, s) && CanPublish(s, id, step) && LoadsOwn(own, s, PublishEvent(id, step))
    ensures CallsCarried(own, DoPublish(s, id, step)) && ContextsCarried(own, plan, DoPublish(s, id, step))
  {
    PublishMoves(s, id, step);
    NextCarried(own, s, id, step);
    PublishContextsCarried(own, plan, s, id, step);
  }

  lemma NextCarried(own: Carrier, s: State, id: nat, step: PublishStep)
    requires CallsCarried(own, s) && CanPublish(s, id, step) && LoadsOwn(own, s, PublishEvent(id, step))
    ensures var h := NextHandler(s, id, step); CarriedBy(own, h.remotes, h.req.volume)
  {
  }

  lemma PublishContextsCarried(own: Carrier, plan: Plan, s: State, id: nat, step: PublishStep)
    requires Carried(own, plan, s) && CanPublish(s, id, step)
    ensures ContextsCarried(own, plan, DoPublish(s, id, step))
  {
    assert DoPublish(s, id, step).contexts == PublishContexts(s, id, step);
  }

  lemma UnpublishCarried(own: Carrier, plan: Plan, s: State, id: nat, step: UnpublishStep)
    requires Carried(own, plan, s) && CanUnpublish(s, id, step)
    ensures CallsCarried(own, DoUnpublish(s, id, step)) && ContextsCarried(own, plan, DoUnpublish(s, id, step))
  {
  }

  lemma ReapCarried(own: Carrier, plan: Plan, s: State, id: nat, step: ReapStep)
    requires Carried(own, plan, s) && CanReap(s, id, step)
    ensures CallsCarried(own, DoReap(s, id, step)) && ContextsCarried(own, plan, DoReap(s, id, step))
  {
  }

  // ---------------------------------------------------------------- no step touches another volume's sections

  /** No step of a run sets or drops sections of the volume. */
  ghost predicate NeverTouched(s: State, es: seq<Event>, volume: string)
    decreases |es|
  {
    es == []
    || (Enabled(s, es[0]) && (TouchOf(s, es[0]).None? || TouchOf(s, es[0]).value.volume != volume)
        && NeverTouched(Apply(s, es[0]), es[1..], volume))
  }

  lemma StepLeavesOthers(own: Carrier, plan: Plan, s: State, e: Event, x: string)
    requires Carried(own, plan, s) && Enabled(s, e) && LoadsOwn(own, s, e)
    requires TouchOf(s, e).None? || TouchOf(s, e).value.volume != own(x)
    ensures x in s.sections <==> x in Apply(s, e).sections
  {
  }

  lemma {:induction false} RunLeavesOthers(own: Carrier, plan: Plan, s: State, es: seq<Event>, t: State, x: string)
    requires Carried(own, plan, s) && PlannedRun(plan, s, es, t) && LoadsOwnAlong(own, s, es)
    requires NeverTouched(s, es, own(x))
    ensures x in s.sections <==> x in t.sections
    decreases |es|
  {
    if es != [] {
      StepLeavesOthers(own, plan, s, es[0], x);
      CarriedKept(own, plan, s, es[0]);
      RunLeavesOthers(own, plan, Apply(s, es[0]), es[1..], t, x);
    }
  }

  lemma {:induction false} RunCarried(own: Carrier, plan: Plan, s: State, es: seq<Event>, t: State)
    requires Carried(own, plan, s) && PlannedRun(plan, s, es, t) && LoadsOwnAlong(own, s, es)
    ensures Carried(own, plan, t)
    decreases |es|
  {
    if es != [] {
      CarriedKept(own, plan, s, es[0]);
      RunCarried(own, plan, Apply(s, es[0]), es[1..], t);
    }
  }

  /**
   * After any run, whatever becomes of the configs: as long as loads, cut short or not, and cleanups work for other
   * volumes, a section stays loaded if it was and absent if it was not.
   */
  lemma OtherVolumesUntouched(
    own: Carrier, plan: Plan, boot: State, before: seq<Event>, s: State, es: seq<Event>, t: State, x: string)
    requires Booted(boot, plan) && ContextsCarried(own, plan, boot)
    requires PlannedRun(plan, boot, before, s) && LoadsOwnAlong(own, boot, before)
    requires PlannedRun(plan, s, es, t) && LoadsOwnAlong(own, s, es) && NeverTouched(s, es, own(x))
    ensures x in s.sections <==> x in t.sections
  {
    RunCarried(own, plan, boot, before, s);
    RunLeavesOthers(own, plan, s, es, t, x);
  }

  // ---------------------------------------------------------------- prefixes

  /** No prefix in use begins with another; two volumes may not share one. */
  ghost predicate PrefixesApart(prefixes: map<string, string>) {
    forall v, w | v in prefixes && w in prefixes && v != w ::
      ConfigIsolation.AlwaysDisjoint(prefixes[v] + "-", prefixes[w] + "-")
  }

  /** With the default prefixes that is so whenever the cut digests differ. */
  lemma DefaultPrefixesApart(digests: map<string, string>, prefixes: map<string, string>)
    requires prefixes.Keys == digests.Keys
    requires forall v | v in digests :: |digests[v]| >= ConfigIsolation.HASH_LENGTH
                                         && prefixes[v] == ConfigIsolation.RemotePrefixForVolume(digests[v], "")
    requires forall v, w | v in digests && w in digests && v != w ::
               digests[v][..ConfigIsolation.HASH_LENGTH] != digests[w][..ConfigIsolation.HASH_LENGTH]
    ensures PrefixesApart(prefixes)
  {
    forall v, w | v in prefixes && w in prefixes && v != w
      ensures ConfigIsolation.AlwaysDisjoint(prefixes[v] + "-", prefixes[w] + "-")
    {
      ConfigIsolation.DefaultPrefixesDisjoint(digests[v], digests[w]);
    }
  }

  ghost predicate Bears(prefixes: map<string, string>, volume: string, x: string) {
    volume in prefixes && HasPrefix(x, prefixes[volume] + "-")
  }

  /** The volume whose prefix the name begins with. */
  ghost function VolumeOf(prefixes: map<string, string>, x: string): string {
    if exists v :: Bears(prefixes, v, x) then var v :| Bears(prefixes, v, x); v else ""
  }

  /** `names` are the sections, or some of the sections, of an isolated config. */
  ghost predicate Isolated(names: set<string>, prefix: string) {
    exists all :: names <= ConfigIsolation.IsolatedConfig(all, prefix + "-").Keys
  }

  lemma IsolatedCarried(prefixes: map<string, string>, volume: string, names: set<string>)
    requires PrefixesApart(prefixes) && volume in prefixes && Isolated(names, prefixes[volume])
    ensures forall x | x in names :: VolumeOf(prefixes, x) == volume
  {
    IsolatedBear(prefixes[volume], names);
    forall x | x in names ensures VolumeOf(prefixes, x) == volume {
      assert Bears(prefixes, volume, x);
      OneBearer(prefixes, volume, VolumeOf(prefixes, x), x);
    }
  }

  lemma IsolatedBear(prefix: string, names: set<string>)
    requires Isolated(names, prefix)
    ensures forall x | x in names :: HasPrefix(x, prefix + "-")
  {
    var all :| names <= ConfigIsolation.IsolatedConfig(all, prefix + "-").Keys;
    ConfigIsolation.SectionsCarriedOver(all, prefix + "-");
  }

  lemma OneBearer(prefixes: map<string, string>, v: string, w: string, x: string)
    requires PrefixesApart(prefixes) && Bears(prefixes, v, x) && Bears(prefixes, w, x)
    ensures v == w
  {
    if v != w {
      var p, q := prefixes[v] + "-", prefixes[w] + "-";
      ConfigIsolation.DisjointIff(p, q);
      ConfigIsolation.NoCommonExtension(x, p, q);
    }
  }

  /** A load sets sections of the isolated form of some config of its volume, perhaps of another one each time. */
  ghost predicate LoadsIsolated(prefixes: map<string, string>, s: State, e: Event)
    requires Enabled(s, e)
  {
    e.PublishEvent? ==>
      match e.publish
      case LoadConfig(names) => OfVolume(prefixes, s.handlers[e.id].req.volume, names)
      case LoadFails(part) => OfVolume(prefixes, s.handlers[e.id].req.volume, part)
      case _ => true
  }

  ghost predicate OfVolume(prefixes: map<string, string>, volume: string, names: set<string>) {
    volume in prefixes && Isolated(names, prefixes[volume])
  }

  ghost predicate LoadsIsolatedAlong(prefixes: map<string, string>, s: State, es: seq<Event>)
    decreases |es|
  {
    es == []
    || (Enabled(s, es[0]) && LoadsIsolated(prefixes, s, es[0])
        && LoadsIsolatedAlong(prefixes, Apply(s, es[0]), es[1..]))
  }

  ghost function CarrierOf(prefixes: map<string, string>): Carrier {
    x => VolumeOf(prefixes, x)
  }

  lemma {:induction false} IsolatedLoadsOwn(prefixes: map<string, string>, s: State, es: seq<Event>)
    requires PrefixesApart(prefixes) && LoadsIsolatedAlong(prefixes, s, es)
    ensures LoadsOwnAlong(CarrierOf(prefixes), s, es)
    decreases |es|
  {
    if es != [] {
      StepLoadsOwn(prefixes, s, es[0]);
      IsolatedLoadsOwn(prefixes, Apply(s, es[0]), es[1..]);
    }
  }

  lemma StepLoadsOwn(prefixes: map<string, string>, s: State, e: Event)
    requires PrefixesApart(prefixes) && Enabled(s, e) && LoadsIsolated(prefixes, s, e)
    ensures LoadsOwn(CarrierOf(prefixes), s, e)
  {
    match e {
      case PublishEvent(id, LoadConfig(names)) => IsolatedCarried(prefixes, s.handlers[id].req.volume, names);
      case PublishEvent(id, LoadFails(part)) => IsolatedCarried(prefixes, s.handlers[id].req.volume, part);
      case _ =>
    }
  }

  /**
   * Put together: when no prefix in use begins with another, as with default prefixes, no load, load cut short or
   * cleanup for other volumes ever adds or removes a section whose name begins with this volume's prefix.
   */
  lemma PrefixedSectionsUntouched(
    prefixes: map<string, string>, plan: Plan, boot: State, before: seq<Event>, s: State, es: seq<Event>, t: State,
    volume: string, x: string)
    requires PrefixesApart(prefixes) && Bears(prefixes, volume, x) && Booted(boot, plan)
    requires forall c | c in boot.contexts :: OfVolume(prefixes, plan.volumeAt[c], boot.contexts[c].remotes)
    requires PlannedRun(plan, boot, before, s) && LoadsIsolatedAlong(prefixes, boot, before)
    requires PlannedRun(plan, s, es, t) && LoadsIsolatedAlong(prefixes, s, es) && NeverTouched(s, es, volume)
    ensures x in s.sections <==> x in t.sections
  {
    OneBearer(prefixes, volume, VolumeOf(prefixes, x), x);
    forall c | c in boot.contexts
      ensures CarriedBy(CarrierOf(prefixes), boot.contexts[c].remotes, plan.volumeAt[c])
    {
      IsolatedCarried(prefixes, plan.volumeAt[c], boot.contexts[c].remotes);
    }
    IsolatedLoadsOwn(prefixes, boot, before);
    IsolatedLoadsOwn(prefixes, s, es);
    OtherVolumesUntouched(CarrierOf(prefixes), plan, boot, before, s, es, t, x);
  }
}
