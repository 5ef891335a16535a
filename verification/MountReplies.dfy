/** Direct mode: what stands behind the answer a caller of publish or unpublish hears. */
module MountReplies {
  import opened MountLifecycle
  import opened MountSafety
  import opened MountOutcomes
  import opened MountVolumes
  import opened MountSections
  import opened MountReapers

  // ---------------------------------------------------------------- "already published"

  /** On its way the call found something mounted at its target, and a context for it. */
  ghost predicate FoundPublished(s: State, es: seq<Event>, id: nat)
    decreases |es|
  {
    && es != [] && Enabled(s, es[0])
    && ((es[0] == PublishEvent(id, PrepareHealthy) && s.handlers[id].req.target in s.contexts)
        || FoundPublished(Apply(s, es[0]), es[1..], id))
  }

  predicate SaysAlready(s: State, id: nat) {
    id in s.handlers && s.handlers[id].reply == AlreadyPublished
  }

  lemma SaysAlreadyStep(s: State, e: Event, id: nat)
    requires Safe(s) && Enabled(s, e)
    ensures SaysAlready(Apply(s, e), id)
            <==> SaysAlready(s, id)
                 || (e == PublishEvent(id, PrepareHealthy) && s.handlers[id].req.target in s.contexts)
  {
    if e.PublishEvent? {
      PublishMoves(s, e.id, e.publish);
      assert id in s.handlers ==> AnswerFits(s, id);
    } else {
      OthersLeaveHandlers(s, e);
    }
  }

  /** "Already published" is answered by exactly the calls that found their target mounted and with a context. */
  lemma {:induction false} AlreadyPublishedIff(s: State, es: seq<Event>, t: State, id: nat)
    requires Safe(s) && Run(s, es, t)
    ensures SaysAlready(t, id) <==> SaysAlready(s, id) || FoundPublished(s, es, id)
    decreases |es|
  {
    if es != [] {
      SaysAlreadyStep(s, es[0], id);
      SafeKept(s, es[0]);
      AlreadyPublishedIff(Apply(s, es[0]), es[1..], t, id);
    }
  }

  // ---------------------------------------------------------------- a publish that succeeded

  /** The call has stored its context, and still holds its key. */
  predicate HasStored(s: State, id: nat) {
    && id in s.handlers && s.handlers[id].mountSuccess
    && (s.handlers[id].pc.Persist? || s.handlers[id].pc.DeferCleanup? || s.handlers[id].pc.DeferRelease?)
  }

  ghost predicate StoredFits(s: State, id: nat) {
    HasStored(s, id) ==>
      var h := s.handlers[id]; h.req.target in s.contexts && s.contexts[h.req.target] == Context(Attempt(id), h.remotes)
  }

  ghost predicate Stored(s: State) {
    forall id :: StoredFits(s, id)
  }

  lemma OwnStored(s: State, id: nat, step: PublishStep)
    requires Safe(s) && StoredFits(s, id) && CanPublish(s, id, step)
    ensures StoredFits(DoPublish(s, id, step), id)
  {
    assert CallFits(s, id);
    PublishMoves(s, id, step);
    assert DoPublish(s, id, step).contexts == PublishContexts(s, id, step);
  }

  lemma OtherStored(plan: Plan, s: State, e: Event, id: nat)
    requires Reported(plan, s) && StoredFits(s, id) && Enabled(s, e) && !(e.PublishEvent? && e.id == id)
    requires HasStored(Apply(s, e), id)
    ensures StoredFits(Apply(s, e), id)
  {
    if e.PublishEvent? {
      PublishMovesOne(s, e.id, e.publish);
    } else {
      OthersLeaveHandlers(s, e);
    }
    assert CallFits(s, id);
    ContextTouched(s, e, s.handlers[id].req.target);
    if Toucher(s, e).Some? {
      NotSameTarget(plan, s, HandlerOwner(id), Toucher(s, e).value);
    }
  }

  lemma StoredKept(plan: Plan, s: State, e: Event)
    requires Reported(plan, s) && Stored(s) && Enabled(s, e)
    ensures Stored(Apply(s, e))
  {
    forall id ensures StoredFits(Apply(s, e), id) {
      assert StoredFits(s, id);
      if e.PublishEvent? && e.id == id {
        OwnStored(s, id, e.publish);
      } else if HasStored(Apply(s, e), id) {
        OtherStored(plan, s, e, id);
      }
    }
  }

  lemma {:induction false} RunStored(plan: Plan, s: State, es: seq<Event>, t: State)
    requires Reported(plan, s) && Stored(s) && PlannedRun(plan, s, es, t)
    ensures Reported(plan, t) && Stored(t)
    decreases |es|
  {
    if es != [] {
      StoredKept(plan, s, es[0]);
      ReportedKept(plan, s, es[0]);
      RunStored(plan, Apply(s, es[0]), es[1..], t);
    }
  }

  /** Until a publish that answers success gives its key back, the context of its target is that of its own mount. */
  lemma SuccessIsStored(plan: Plan, s: State, es: seq<Event>, t: State, id: nat)
    requires Booted(s, plan) && PlannedRun(plan, s, es, t)
    requires id in t.handlers && t.handlers[id].reply == Published && !t.handlers[id].pc.Returned?
    ensures var h := t.handlers[id];
            h.req.target in t.contexts && t.contexts[h.req.target] == Context(Attempt(id), h.remotes)
  {
    BootedReported(plan, s);
    RunStored(plan, s, es, t);
    assert AnswerFits(t, id) && CallFits(t, id) && StoredFits(t, id);
  }

  // ---------------------------------------------------------------- its sections are loaded

  /** The call has loaded its sections and not dropped them, and still holds its key. */
  predicate HasLoaded(s: State, id: nat) {
    && id in s.handlers
    && var h := s.handlers[id];
       h.pc.Spawn? || (h.pc.Wait? && !h.handOff) || h.pc.Store? || HasStored(s, id)
  }

  ghost predicate LoadedFits(s: State, id: nat) {
    HasLoaded(s, id) ==> s.handlers[id].remotes <= s.sections
  }

  lemma OwnLoaded(s: State, id: nat, step: PublishStep)
    requires Safe(s) && LoadedFits(s, id) && CanPublish(s, id, step)
    ensures LoadedFits(DoPublish(s, id, step), id)
  {
    assert CallFits(s, id);
    PublishMoves(s, id, step);
    NextRemotes(s, id, step);
    assert DoPublish(s, id, step).sections == PublishSections(s, id, step);
  }

  /** Whoever drops sections still holds the key of its target. */
  lemma DropperOwns(s: State, e: Event) returns (o: Owner)
    requires Fits(s) && Enabled(s, e) && TouchOf(s, e).Some?
    ensures Owns(s, o) && VolumeAt(s, o) == TouchOf(s, e).value.volume
    ensures e.PublishEvent? ==> o == HandlerOwner(e.id)
    ensures !e.PublishEvent? ==> !o.HandlerOwner?
  {
    match e {
      case PublishEvent(id, step) =>
        assert CallFits(s, id);
        o := HandlerOwner(id);
      case ReapEvent(id, _) => o := ReaperOwner(id);
      case UnpublishEvent(id, _) => o := UnpublisherOwner(id);
    }
  }

  function VolumeAt(s: State, o: Owner): string
    requires Owns(s, o)
  {
    match o
    case HandlerOwner(id) => s.handlers[id].req.volume
    case ReaperOwner(id) => s.reapers[id].req.volume
    case UnpublisherOwner(id) => s.unpublishers[id].req.volume
  }

  lemma OwnerPlanned(plan: Plan, s: State, o: Owner)
    requires Reported(plan, s) && Owns(s, o)
    ensures TargetOf(s, o) in plan.volumeAt && plan.volumeAt[TargetOf(s, o)] == VolumeAt(s, o)
  {
    match o {
      case ReaperOwner(id) => assert CallFits(s, id) && Planned(plan, s.handlers[id].req);
      case HandlerOwner(id) => assert Planned(plan, s.handlers[id].req);
      case UnpublisherOwner(id) => assert Planned(plan, s.unpublishers[id].req);
    }
  }

  /** With one target per volume nobody else touches the sections of a volume while a call holds its key. */
  lemma OthersTouchElsewhere(plan: Plan, s: State, e: Event, id: nat)
    requires OneTargetPerVolume(plan) && Reported(plan, s) && Enabled(s, e) && Owns(s, HandlerOwner(id))
    requires TouchOf(s, e).Some? && !(e.PublishEvent? && e.id == id)
    ensures TouchOf(s, e).value.volume != s.handlers[id].req.volume
  {
    var o := DropperOwns(s, e);
    OwnerPlanned(plan, s, o);
    OwnerPlanned(plan, s, HandlerOwner(id));
    NotSameTarget(plan, s, HandlerOwner(id), o);
  }

  lemma OtherLoaded(plan: Plan, s: State, e: Event, id: nat)
    requires DisjointNames(plan) && OneTargetPerVolume(plan) && Steady(plan, s) && LoadedFits(s, id)
    requires Enabled(s, e) && StableNames(plan, s, e) && !(e.PublishEvent? && e.id == id) && HasLoaded(Apply(s, e), id)
    ensures LoadedFits(Apply(s, e), id)
  {
    if e.PublishEvent? {
      PublishMovesOne(s, e.id, e.publish);
    } else {
      OthersLeaveHandlers(s, e);
    }
    assert CallFits(s, id) && HandlerNamed(plan, s, id);
    HandlerNames(plan, s, id);
    Touches(plan, s, e);
    if TouchOf(s, e).Some? {
      OthersTouchElsewhere(plan, s, e, id);
    }
  }

  ghost predicate AllLoaded(s: State) {
    forall id :: LoadedFits(s, id)
  }

  lemma {:induction false} RunLoaded(plan: Plan, s: State, es: seq<Event>, t: State)
    requires DisjointNames(plan) && OneTargetPerVolume(plan) && Steady(plan, s) && AllLoaded(s)
    requires PlannedRun(plan, s, es, t) && StableAlong(plan, s, es)
    ensures Steady(plan, t) && AllLoaded(t)
    decreases |es|
  {
    if es != [] {
      var e := es[0];
      forall id ensures LoadedFits(Apply(s, e), id) {
        assert LoadedFits(s, id);
        if e.PublishEvent? && e.id == id {
          OwnLoaded(s, id, e.publish);
        } else if HasLoaded(Apply(s, e), id) {
          OtherLoaded(plan, s, e, id);
        }
      }
      SteadyKept(plan, s, e);
      RunLoaded(plan, Apply(s, e), es[1..], t);
    }
  }

  /** With one target per volume all sections of a publish are loaded when it answers success. */
  lemma SuccessIsLoaded(plan: Plan, s: State, es: seq<Event>, t: State, id: nat)
    requires DisjointNames(plan) && OneTargetPerVolume(plan) && Booted(s, plan)
    requires forall c | c in s.contexts :: s.contexts[c].remotes == NamesAt(plan, c)
    requires PlannedRun(plan, s, es, t) && StableAlong(plan, s, es)
    requires id in t.handlers && t.handlers[id].reply == Published && !t.handlers[id].pc.Returned?
    ensures t.handlers[id].remotes == NamesAt(plan, t.handlers[id].req.target) <= t.sections
  {
    BootedSteady(plan, s);
    RunLoaded(plan, s, es, t);
    assert AnswerFits(t, id) && CallFits(t, id) && LoadedFits(t, id) && HandlerNamed(plan, t, id);
  }

  // ---------------------------------------------------------------- an unpublish that succeeded

  /** What an unpublish has cleared away by the time it gets here. */
  ghost predicate ClearedFits(s: State, id: nat)
    requires id in s.unpublishers
  {
    var u := s.unpublishers[id];
    var done := u.pc.URelease? && u.reply == Published;
    && (u.reply == Pending <==> !u.pc.URelease? && !u.pc.UReturned?) && u.reply != AlreadyPublished
    && (u.pc.UForget? || u.pc.UDelete? || done ==> RowsAt(s, u.req.target) == {})
    && (u.pc.UDelete? || done ==> u.req.target !in s.contexts)
    && (done ==> u.req !in s.saved)
  }

  ghost predicate Cleared(s: State) {
    forall id | id in s.unpublishers :: ClearedFits(s, id)
  }

  lemma OwnCleared(s: State, id: nat, step: UnpublishStep)
    requires CanUnpublish(s, id, step) && (id in s.unpublishers ==> ClearedFits(s, id))
    ensures ClearedFits(DoUnpublish(s, id, step), id)
  {
    assert DoUnpublish(s, id, step).mounts == UnpublishMounts(s, id, step);
  }

  /** A new row stems from a mount whose call or reaper still holds the key of the target. */
  lemma NewRow(s: State, e: Event, row: Row) returns (o: Owner)
    requires Fits(s) && Enabled(s, e) && row !in s.mounts && row in Apply(s, e).mounts
    ensures Owns(s, o) && !o.UnpublisherOwner? && TargetOf(s, o) == row.target
  {
    assert e.MountEvent?;
    var id := e.id;
    assert CallFits(s, id);
    o := if s.handlers[id].pc.Wait? then HandlerOwner(id) else ReaperOwner(id);
  }

  /** A new saved state stems from a call that holds the key of its target. */
  lemma NewState(s: State, e: Event, req: Request) returns (o: Owner)
    requires Fits(s) && Enabled(s, e) && req !in s.saved && req in Apply(s, e).saved
    ensures Owns(s, o) && o.HandlerOwner? && TargetOf(s, o) == req.target
  {
    assert e.PublishEvent?;
    assert CallFits(s, e.id);
    o := HandlerOwner(e.id);
  }

  lemma OtherCleared(plan: Plan, s: State, e: Event, id: nat)
    requires Reported(plan, s) && Enabled(s, e) && !(e.UnpublishEvent? && e.id == id)
    requires id in Apply(s, e).unpublishers && id in s.unpublishers && ClearedFits(s, id)
    ensures ClearedFits(Apply(s, e), id)
  {
    SameUnpublisher(s, e, id);
    if Owns(s, UnpublisherOwner(id)) {
      NoRowAppears(plan, s, e, id);
      NoContextOrStateAppears(plan, s, e, id);
    }
  }

  lemma NoRowAppears(plan: Plan, s: State, e: Event, id: nat)
    requires Reported(plan, s) && Enabled(s, e) && !(e.UnpublishEvent? && e.id == id)
    requires Owns(s, UnpublisherOwner(id))
    ensures var target := s.unpublishers[id].req.target; RowsAt(Apply(s, e), target) <= RowsAt(s, target)
  {
    var target := s.unpublishers[id].req.target;
    forall row | row in RowsAt(Apply(s, e), target) ensures row in RowsAt(s, target) {
      if row !in s.mounts {
        var other := NewRow(s, e, row);
        NotSameTarget(plan, s, UnpublisherOwner(id), other);
      }
    }
  }

  lemma NoContextOrStateAppears(plan: Plan, s: State, e: Event, id: nat)
    requires Reported(plan, s) && Enabled(s, e) && !(e.UnpublishEvent? && e.id == id)
    requires Owns(s, UnpublisherOwner(id))
    ensures var t, req := Apply(s, e), s.unpublishers[id].req;
            (req.target in t.contexts ==> req.target in s.contexts) && (req in t.saved ==> req in s.saved)
  {
    var t, req, o := Apply(s, e), s.unpublishers[id].req, UnpublisherOwner(id);
    ContextTouched(s, e, req.target);
    if Toucher(s, e).Some? {
      NotSameTarget(plan, s, o, Toucher(s, e).value);
    }
    if req !in s.saved && req in t.saved {
      var other := NewState(s, e, req);
      NotSameTarget(plan, s, o, other);
    }
  }

  lemma ClearedKept(plan: Plan, s: State, e: Event)
    requires Reported(plan, s) && Cleared(s) && Enabled(s, e)
    ensures Cleared(Apply(s, e))
  {
    forall id | id in Apply(s, e).unpublishers ensures ClearedFits(Apply(s, e), id) {
      if e.UnpublishEvent? && e.id == id {
        assert id in s.unpublishers ==> ClearedFits(s, id);
        OwnCleared(s, id, e.unpublish);
      } else {
        SameUnpublisher(s, e, id);
        assert ClearedFits(s, id);
        OtherCleared(plan, s, e, id);
      }
    }
  }

  lemma {:induction false} RunCleared(plan: Plan, s: State, es: seq<Event>, t: State)
    requires Reported(plan, s) && Cleared(s) && PlannedRun(plan, s, es, t)
    ensures Cleared(t)
    decreases |es|
  {
    if es != [] {
      ClearedKept(plan, s, es[0]);
      ReportedKept(plan, s, es[0]);
      RunCleared(plan, Apply(s, es[0]), es[1..], t);
    }
  }

  /**
   * In every planned run: an unpublish that answers success leaves nothing mounted at its target, no context and no
   * saved state, when it gives its key back; and it answers before that.
   */
  lemma UnpublishedIsClear(plan: Plan, s: State, es: seq<Event>, t: State, id: nat)
    requires Booted(s, plan) && PlannedRun(plan, s, es, t) && id in t.unpublishers && t.unpublishers[id].pc.URelease?
    ensures var u := t.unpublishers[id];
            && u.reply in {Published, Refused}
            && (u.reply == Published ==>
                  RowsAt(t, u.req.target) == {} && u.req.target !in t.contexts && u.req !in t.saved)
  {
    BootedReported(plan, s);
    RunCleared(plan, s, es, t);
    assert ClearedFits(t, id);
  }

  // ---------------------------------------------------------------- what the caller of unpublish hears

  /** An unpublish answers at its end, and not before. */
  predicate UnpublisherAnswers(s: State, id: nat) {
    id in s.unpublishers ==>
      var u := s.unpublishers[id];
      (u.reply == Pending <==> !u.pc.URelease? && !u.pc.UReturned?) && u.reply != AlreadyPublished
  }

  predicate SaysUnpublished(s: State, id: nat) {
    id in s.unpublishers && s.unpublishers[id].reply == Published
  }

  lemma SaysUnpublishedStep(s: State, e: Event, id: nat)
    requires UnpublisherAnswers(s, id) && Enabled(s, e)
    ensures UnpublisherAnswers(Apply(s, e), id)
    ensures SaysUnpublished(Apply(s, e), id)
            <==> SaysUnpublished(s, id) || e == UnpublishEvent(id, DeleteState(true))
  {
    UnpublisherMoves(s, e, id);
  }

  lemma UnpublisherMoves(s: State, e: Event, id: nat)
    requires Enabled(s, e)
    ensures var t := Apply(s, e);
            if e.UnpublishEvent? && e.id == id
            then id in t.unpublishers && t.unpublishers[id] == NextUnpublisher(s, id, e.unpublish)
            else (id in t.unpublishers <==> id in s.unpublishers)
                 && (id in s.unpublishers ==> t.unpublishers[id] == s.unpublishers[id])
  {
  }

  /** An unpublish is a success exactly if it came as far as deleting the saved state, and that worked. */
  lemma {:induction false} UnpublishedIff(s: State, es: seq<Event>, t: State, id: nat)
    requires UnpublisherAnswers(s, id) && Run(s, es, t)
    ensures UnpublisherAnswers(t, id)
    ensures SaysUnpublished(t, id) <==> SaysUnpublished(s, id) || UnpublishEvent(id, DeleteState(true)) in es
    decreases |es|
  {
    if es != [] {
      SaysUnpublishedStep(s, es[0], id);
      UnpublishedIff(Apply(s, es[0]), es[1..], t, id);
      assert es == [es[0]] + es[1..];
    }
  }
}
