/** What every interleaving of publishes, unpublishes, background mounts and reapers keeps. */
module MountSafety {
  import opened Text
  import opened MountLifecycle

  // ---------------------------------------------------------------- one call moves at a time

  /** Only call `id` (handler, background mount, reaper) may differ. */
  ghost predicate SamePublishers(s: State, t: State, id: nat) {
    && (forall j | j != id :: j in s.handlers <==> j in t.handlers)
    && (forall j | j != id && j in s.handlers :: s.handlers[j] == t.handlers[j])
    && (forall j | j != id :: j in s.attempts <==> j in t.attempts)
    && (forall j | j != id && j in s.attempts :: s.attempts[j] == t.attempts[j])
    && (forall j | j != id :: j in s.reapers <==> j in t.reapers)
    && (forall j | j != id && j in s.reapers :: s.reapers[j] == t.reapers[j])
  }

  ghost predicate SameUnpublishers(s: State, t: State, id: nat) {
    && (forall j | j != id :: j in s.unpublishers <==> j in t.unpublishers)
    && (forall j | j != id && j in s.unpublishers :: s.unpublishers[j] == t.unpublishers[j])
  }

  lemma PublishMovesOne(s: State, id: nat, step: PublishStep)
    requires CanPublish(s, id, step)
    ensures SamePublishers(s, DoPublish(s, id, step), id) && DoPublish(s, id, step).unpublishers == s.unpublishers
  {
    PublishMoves(s, id, step);
    AttemptsMoveOne(s, id, step);
  }

  lemma AttemptsMoveOne(s: State, id: nat, step: PublishStep)
    requires CanPublish(s, id, step)
    ensures forall j | j != id :: j in s.attempts <==> j in PublishAttempts(s, id, step)
    ensures forall j | j != id && j in s.attempts :: s.attempts[j] == PublishAttempts(s, id, step)[j]
    ensures forall j | j != id :: j in s.reapers <==> j in PublishReapers(s, id, step)
    ensures forall j | j != id && j in s.reapers :: s.reapers[j] == PublishReapers(s, id, step)[j]
  {
  }

  lemma PublishMoves(s: State, id: nat, step: PublishStep)
    requires CanPublish(s, id, step)
    ensures var t := DoPublish(s, id, step);
            && t.handlers == s.handlers[id := NextHandler(s, id, step)] && t.attempts == PublishAttempts(s, id, step)
            && t.reapers == PublishReapers(s, id, step) && t.unpublishers == s.unpublishers
  {
  }

  lemma MountMovesOne(s: State, id: nat, step: MountStep)
    requires CanMount(s, id, step)
    ensures SamePublishers(s, DoMount(s, id, step), id) && DoMount(s, id, step).unpublishers == s.unpublishers
  {
  }

  lemma ReapMovesOne(s: State, id: nat, step: ReapStep)
    requires CanReap(s, id, step)
    ensures SamePublishers(s, DoReap(s, id, step), id) && DoReap(s, id, step).unpublishers == s.unpublishers
  {
  }

  lemma UnpublishMovesOne(s: State, id: nat, step: UnpublishStep)
    requires CanUnpublish(s, id, step)
    ensures var t := DoUnpublish(s, id, step);
            && SameUnpublishers(s, t, id)
            && t.handlers == s.handlers && t.attempts == s.attempts && t.reapers == s.reapers
  {
  }

  // ---------------------------------------------------------------- handler, mount and reaper fit together

  /** The control states of one publish call. */
  ghost predicate CallFits(s: State, id: nat) {
    && (id in s.attempts || id in s.reapers ==> id in s.handlers)
    && (id in s.handlers ==> HandlerFits(s, id))
    && (id in s.reapers ==> ReaperFits(s, id))
  }

  ghost predicate HandlerFits(s: State, id: nat)
    requires id in s.handlers
  {
    var h := s.handlers[id];
    && (h.handOff <==> id in s.reapers)
    && (h.handOff ==> (h.pc.DeferCleanup? || h.pc.DeferRelease? || h.pc.Returned?) && !h.mountSuccess)
    && (h.pc.Start? || h.pc.Locked? || h.pc.Prepare? || h.pc.Clean? || h.pc.Load? || h.pc.Spawn?
        ==> id !in s.attempts && !h.mountSuccess)
    && (h.pc.Wait? ==> id in s.attempts && !s.attempts[id].Consumed? && !h.mountSuccess)
    && (h.pc.DeferCleanup? ==> id in s.attempts)
    && (h.pc.Store? || h.pc.Persist? ==> h.mountSuccess)
    && (h.mountSuccess ==> id in s.attempts && s.attempts[id] == Consumed(true))
    && (id in s.attempts && !s.attempts[id].Consumed? ==> h.pc.Wait? || ReaperAt(s, id, Receiving))
  }

  ghost predicate ReaperFits(s: State, id: nat)
    requires id in s.reapers && id in s.handlers
  {
    var r := s.reapers[id];
    && id in s.attempts
    && r.req == s.handlers[id].req && r.remotes == s.handlers[id].remotes
    && (r.pc.Receiving? <==> !s.attempts[id].Consumed?)
    && (r.pc.Detaching? ==> s.attempts[id] == Consumed(true))
  }

  ghost predicate Fits(s: State) {
    forall id :: CallFits(s, id)
  }

  lemma PublishReaperFits(s: State, id: nat, step: PublishStep)
    requires CallFits(s, id) && CanPublish(s, id, step) && id in DoPublish(s, id, step).reapers
    ensures ReaperFits(DoPublish(s, id, step), id)
  {
    if !step.Abandon? {
      OldReaperFits(s, id, step);
    }
  }

  /** A handler that has handed its mount over only runs its deferred calls. */
  lemma OldReaperFits(s: State, id: nat, step: PublishStep)
    requires CallFits(s, id) && CanPublish(s, id, step) && id in s.reapers && !step.Abandon?
    ensures ReaperFits(DoPublish(s, id, step), id)
  {
    assert step.RunCleanup? || step.RunRelease?;
    var t := DoPublish(s, id, step);
    assert t.reapers == s.reapers && t.attempts == s.attempts;
    assert t.handlers[id].req == s.handlers[id].req && t.handlers[id].remotes == s.handlers[id].remotes;
  }

  lemma PublishFits(s: State, id: nat, step: PublishStep)
    requires CallFits(s, id) && CanPublish(s, id, step)
    ensures CallFits(DoPublish(s, id, step), id)
  {
    if id in DoPublish(s, id, step).reapers {
      PublishReaperFits(s, id, step);
    }
  }

  lemma MountFits(s: State, id: nat, step: MountStep)
    requires CallFits(s, id) && CanMount(s, id, step)
    ensures CallFits(DoMount(s, id, step), id)
  {
  }

  lemma ReapFits(s: State, id: nat, step: ReapStep)
    requires CallFits(s, id) && CanReap(s, id, step)
    ensures CallFits(DoReap(s, id, step), id)
  {
  }

  lemma FitsElsewhere(s: State, t: State, id: nat)
    requires Fits(s) && SamePublishers(s, t, id) && CallFits(t, id)
    ensures Fits(t)
  {
    forall j ensures CallFits(t, j) {
      assert CallFits(s, j);
    }
  }

  lemma FitsKept(s: State, e: Event)
    requires Fits(s) && Enabled(s, e)
    ensures Fits(Apply(s, e))
  {
    match e {
      case PublishEvent(id, step) =>
        PublishMovesOne(s, id, step);
        PublishFits(s, id, step);
        FitsElsewhere(s, Apply(s, e), id);
      case MountEvent(id, step) =>
        MountMovesOne(s, id, step);
        MountFits(s, id, step);
        FitsElsewhere(s, Apply(s, e), id);
      case ReapEvent(id, step) =>
        ReapMovesOne(s, id, step);
        ReapFits(s, id, step);
        FitsElsewhere(s, Apply(s, e), id);
      case UnpublishEvent(id, step) =>
        UnpublishMovesOne(s, id, step);
        SameCallsFit(s, Apply(s, e));
      case RowVanishes(row) =>
        SameCallsFit(s, Apply(s, e));
    }
  }

  lemma SameCallsFit(s: State, t: State)
    requires Fits(s) && t.handlers == s.handlers && t.attempts == s.attempts && t.reapers == s.reapers
    ensures Fits(t)
  {
    forall j ensures CallFits(t, j) {
      assert CallFits(s, j);
    }
  }

  // ---------------------------------------------------------------- lock ownership

  predicate HandlerOwns(h: Handler) {
    !h.pc.Start? && !h.pc.Returned? && !h.handOff
  }

  predicate UnpublisherOwns(u: Unpublisher) {
    !u.pc.UStart? && !u.pc.UReturned?
  }

  /** The actor still has to release a key. */
  predicate Owns(s: State, o: Owner) {
    match o
    case HandlerOwner(id) => id in s.handlers && HandlerOwns(s.handlers[id])
    case ReaperOwner(id) => id in s.reapers && !s.reapers[id].pc.Gone?
    case UnpublisherOwner(id) => id in s.unpublishers && UnpublisherOwns(s.unpublishers[id])
  }

  function KeyOf(s: State, o: Owner): string
    requires Owns(s, o)
  {
    match o
    case HandlerOwner(id) => LockKey(s.handlers[id].req)
    case ReaperOwner(id) => LockKey(s.reapers[id].req)
    case UnpublisherOwner(id) => LockKey(s.unpublishers[id].req)
  }

  ghost predicate OwnerListed(s: State, o: Owner) {
    Owns(s, o) ==> KeyOf(s, o) in s.holder && s.holder[KeyOf(s, o)] == o
  }

  ghost predicate KeyListed(s: State, key: string) {
    key in s.holder ==> Owns(s, s.holder[key]) && KeyOf(s, s.holder[key]) == key
  }

  /** The bookkeeping names, for every key in the lock set, the one actor that will release it. */
  ghost predicate Owned(s: State) {
    s.locks == s.holder.Keys && (forall o :: OwnerListed(s, o)) && (forall key :: KeyListed(s, key))
  }

  /** Owners other than the moving call are where they were. */
  ghost predicate SameOwnersBut(s: State, t: State, a: Owner, b: Owner) {
    forall o | o != a && o != b :: Owns(s, o) == Owns(t, o) && (Owns(s, o) ==> KeyOf(s, o) == KeyOf(t, o))
  }

  lemma OwnersElsewhere(s: State, t: State, id: nat)
    requires SamePublishers(s, t, id) && t.unpublishers == s.unpublishers
    ensures SameOwnersBut(s, t, HandlerOwner(id), ReaperOwner(id))
  {
  }

  /** Ownership survives if the lock action matches what the moving call gained or gave up. */
  lemma OwnedAfterKeep(s: State, t: State, a: Owner, b: Owner)
    requires Owned(s) && SameOwnersBut(s, t, a, b) && t.locks == s.locks && t.holder == s.holder
    requires Owns(s, a) == Owns(t, a) && (Owns(s, a) ==> KeyOf(s, a) == KeyOf(t, a))
    requires Owns(s, b) == Owns(t, b) && (Owns(s, b) ==> KeyOf(s, b) == KeyOf(t, b))
    ensures Owned(t)
  {
    forall o ensures OwnerListed(t, o) {
      assert OwnerListed(s, o);
    }
    forall key ensures KeyListed(t, key) {
      assert KeyListed(s, key);
    }
  }

  lemma OwnedAfterGrant(s: State, t: State, a: Owner, b: Owner, key: string)
    requires Owned(s) && SameOwnersBut(s, t, a, b) && key !in s.locks
    requires t.locks == s.locks + {key} && t.holder == s.holder[key := a]
    requires !Owns(s, a) && Owns(t, a) && KeyOf(t, a) == key
    requires Owns(s, b) == Owns(t, b) && (Owns(s, b) ==> KeyOf(s, b) == KeyOf(t, b))
    ensures Owned(t)
  {
    forall o ensures OwnerListed(t, o) {
      assert OwnerListed(s, o);
    }
    forall k ensures KeyListed(t, k) {
      assert KeyListed(s, k);
    }
  }

  lemma OwnedAfterHandOver(s: State, t: State, a: Owner, b: Owner, key: string)
    requires Owned(s) && SameOwnersBut(s, t, a, b) && a != b
    requires t.locks == s.locks && t.holder == s.holder[key := b]
    requires Owns(s, a) && KeyOf(s, a) == key && !Owns(t, a)
    requires !Owns(s, b) && Owns(t, b) && KeyOf(t, b) == key
    ensures Owned(t)
  {
    assert OwnerListed(s, a);
    forall o ensures OwnerListed(t, o) {
      assert OwnerListed(s, o);
    }
    forall k ensures KeyListed(t, k) {
      assert KeyListed(s, k);
    }
  }

  lemma OwnedAfterGiveBack(s: State, t: State, a: Owner, b: Owner, key: string)
    requires Owned(s) && SameOwnersBut(s, t, a, b)
    requires t.locks == s.locks - {key} && t.holder == s.holder - {key}
    requires Owns(s, a) && KeyOf(s, a) == key && !Owns(t, a)
    requires a != b ==> Owns(s, b) == Owns(t, b) && (Owns(s, b) ==> KeyOf(s, b) == KeyOf(t, b))
    ensures Owned(t)
  {
    assert OwnerListed(s, a);
    forall o ensures OwnerListed(t, o) {
      assert OwnerListed(s, o);
    }
    forall k ensures KeyListed(t, k) {
      assert KeyListed(s, k);
    }
  }

  lemma PublishOwned(s: State, id: nat, step: PublishStep)
    requires Fits(s) && Owned(s) && CanPublish(s, id, step)
    ensures Owned(DoPublish(s, id, step))
  {
    var t, a, b := DoPublish(s, id, step), HandlerOwner(id), ReaperOwner(id);
    assert CallFits(s, id);
    PublishMovesOne(s, id, step);
    OwnersElsewhere(s, t, id);
    match PublishLock(s, id, step) {
      case Leave => OwnedAfterKeep(s, t, a, b);
      case Grant(key, _, _) => OwnedAfterGrant(s, t, a, b, key);
      case HandOver(key, _) => OwnedAfterHandOver(s, t, a, b, key);
      case GiveBack(key, _) => OwnedAfterGiveBack(s, t, a, b, key);
    }
  }

  lemma ReapOwned(s: State, id: nat, step: ReapStep)
    requires Fits(s) && Owned(s) && CanReap(s, id, step)
    ensures Owned(DoReap(s, id, step))
  {
    var t, a, b := DoReap(s, id, step), HandlerOwner(id), ReaperOwner(id);
    ReapMovesOne(s, id, step);
    OwnersElsewhere(s, t, id);
    if step.ReapRelease? {
      OwnedAfterGiveBack(s, t, b, a, LockKey(s.reapers[id].req));
    } else {
      OwnedAfterKeep(s, t, a, b);
    }
  }

  lemma UnpublishOwned(s: State, id: nat, step: UnpublishStep)
    requires Owned(s) && CanUnpublish(s, id, step)
    ensures Owned(DoUnpublish(s, id, step))
  {
    var t, a := DoUnpublish(s, id, step), UnpublisherOwner(id);
    UnpublishMovesOne(s, id, step);
    assert SameOwnersBut(s, t, a, a);
    match UnpublishLock(s, id, step) {
      case Leave => OwnedAfterKeep(s, t, a, a);
      case Grant(key, _, _) => OwnedAfterGrant(s, t, a, HandlerOwner(id), key);
      case GiveBack(key, _) => OwnedAfterGiveBack(s, t, a, a, key);
    }
  }

  lemma OwnedKept(s: State, e: Event)
    requires Fits(s) && Owned(s) && Enabled(s, e)
    ensures Owned(Apply(s, e))
  {
    match e {
      case PublishEvent(id, step) => PublishOwned(s, id, step);
      case ReapEvent(id, step) => ReapOwned(s, id, step);
      case UnpublishEvent(id, step) => UnpublishOwned(s, id, step);
      case MountEvent(id, step) =>
        MountMovesOne(s, id, step);
        OwnersElsewhere(s, Apply(s, e), id);
        OwnedAfterKeep(s, Apply(s, e), HandlerOwner(id), ReaperOwner(id));
      case RowVanishes(_) =>
        OwnedAfterKeep(s, Apply(s, e), HandlerOwner(0), ReaperOwner(0));
    }
  }

  // ---------------------------------------------------------------- every grant is given back once

  function OwnersOf(token: Token): (Owner, Owner) {
    match token
    case PublishToken(id) => (HandlerOwner(id), ReaperOwner(id))
    case UnpublishToken(id) => (UnpublisherOwner(id), UnpublisherOwner(id))
  }

  predicate Live(s: State, token: Token) {
    Owns(s, OwnersOf(token).0) || Owns(s, OwnersOf(token).1)
  }

  predicate NotGranted(s: State, token: Token) {
    match token
    case PublishToken(id) => id !in s.handlers || s.handlers[id].pc.Start?
    case UnpublishToken(id) => id !in s.unpublishers || s.unpublishers[id].pc.UStart?
  }

  ghost predicate TokenCounted(s: State, token: Token) {
    && s.releases[token] <= s.grants[token] <= 1
    && (NotGranted(s, token) ==> s.grants[token] == 0)
    && (Live(s, token) <==> s.grants[token] == 1 && s.releases[token] == 0)
  }

  ghost predicate Counted(s: State) {
    forall token :: TokenCounted(s, token)
  }

  lemma CountedElsewhere(s: State, t: State, token: Token, id: nat)
    requires TokenCounted(s, token) && SamePublishers(s, t, id) && t.unpublishers == s.unpublishers
    requires token != PublishToken(id)
    requires s.grants[token] == t.grants[token] && s.releases[token] == t.releases[token]
    ensures TokenCounted(t, token)
  {
  }

  predicate GivesBack(s: State, id: nat, step: PublishStep)
    requires CanPublish(s, id, step)
  {
    step.RunRelease? && !s.handlers[id].handOff
  }

  lemma OwnTokenMoves(s: State, id: nat, step: PublishStep)
    requires CanPublish(s, id, step)
    ensures var t, token := DoPublish(s, id, step), PublishToken(id);
            && t.grants[token] == s.grants[token] + (if step.Acquire? then 1 else 0)
            && t.releases[token] == s.releases[token] + (if GivesBack(s, id, step) then 1 else 0)
  {
  }

  lemma OwnTokenChanges(s: State, id: nat, step: PublishStep)
    requires CallFits(s, id) && CanPublish(s, id, step)
    ensures var t, token := DoPublish(s, id, step), PublishToken(id);
            && (NotGranted(t, token) ==> NotGranted(s, token))
            && (step.Acquire? ==> NotGranted(s, token) && Live(t, token))
            && (GivesBack(s, id, step) ==> Live(s, token) && !Live(t, token))
  {
  }

  lemma OwnTokenStays(s: State, id: nat, step: PublishStep)
    requires CallFits(s, id) && CanPublish(s, id, step) && !step.Acquire? && !GivesBack(s, id, step)
    ensures Live(s, PublishToken(id)) == Live(DoPublish(s, id, step), PublishToken(id))
  {
    PublishMoves(s, id, step);
    NextOwns(s, id, step);
  }

  lemma NextOwns(s: State, id: nat, step: PublishStep)
    requires CallFits(s, id) && CanPublish(s, id, step) && !step.Acquire? && !GivesBack(s, id, step)
    ensures step.Abandon? ==> id in s.handlers && HandlerOwns(s.handlers[id]) && !HandlerOwns(NextHandler(s, id, step))
    ensures !step.Abandon? ==>
              HandlerOwns(NextHandler(s, id, step)) == (id in s.handlers && HandlerOwns(s.handlers[id]))
  {
  }

  lemma OwnTokenCounted(s: State, id: nat, step: PublishStep)
    requires CallFits(s, id) && TokenCounted(s, PublishToken(id)) && CanPublish(s, id, step)
    ensures TokenCounted(DoPublish(s, id, step), PublishToken(id))
  {
    OwnTokenMoves(s, id, step);
    OwnTokenChanges(s, id, step);
    if !step.Acquire? && !GivesBack(s, id, step) {
      OwnTokenStays(s, id, step);
    }
  }

  lemma OtherCountsSame(s: State, id: nat, step: PublishStep, token: Token)
    requires CanPublish(s, id, step) && token != PublishToken(id)
    ensures var t := DoPublish(s, id, step);
            t.grants[token] == s.grants[token] && t.releases[token] == s.releases[token]
  {
  }

  lemma PublishCounted(s: State, id: nat, step: PublishStep)
    requires Fits(s) && Counted(s) && CanPublish(s, id, step)
    ensures Counted(DoPublish(s, id, step))
  {
    forall token ensures TokenCounted(DoPublish(s, id, step), token) {
      assert TokenCounted(s, token);
      if token == PublishToken(id) {
        assert CallFits(s, id);
        OwnTokenCounted(s, id, step);
      } else {
        PublishMovesOne(s, id, step);
        OtherCountsSame(s, id, step, token);
        CountedElsewhere(s, DoPublish(s, id, step), token, id);
      }
    }
  }

  lemma ReapCounted(s: State, id: nat, step: ReapStep)
    requires Fits(s) && Counted(s) && CanReap(s, id, step)
    ensures Counted(DoReap(s, id, step))
  {
    var t := DoReap(s, id, step);
    ReapMovesOne(s, id, step);
    forall token ensures TokenCounted(t, token) {
      assert TokenCounted(s, token);
      if token == PublishToken(id) {
        assert CallFits(s, id);
      } else {
        CountedElsewhere(s, t, token, id);
      }
    }
  }

  lemma UnpublishCounted(s: State, id: nat, step: UnpublishStep)
    requires Counted(s) && CanUnpublish(s, id, step)
    ensures Counted(DoUnpublish(s, id, step))
  {
    var t := DoUnpublish(s, id, step);
    UnpublishMovesOne(s, id, step);
    forall token ensures TokenCounted(t, token) {
      assert TokenCounted(s, token);
      if token == UnpublishToken(id) {
        UnpublisherCounted(s, id, step);
      }
    }
  }

  lemma UnpublisherCounted(s: State, id: nat, step: UnpublishStep)
    requires TokenCounted(s, UnpublishToken(id)) && CanUnpublish(s, id, step)
    ensures TokenCounted(DoUnpublish(s, id, step), UnpublishToken(id))
  {
  }

  lemma CountedKept(s: State, e: Event)
    requires Fits(s) && Counted(s) && Enabled(s, e)
    ensures Counted(Apply(s, e))
  {
    match e {
      case PublishEvent(id, step) => PublishCounted(s, id, step);
      case ReapEvent(id, step) => ReapCounted(s, id, step);
      case UnpublishEvent(id, step) => UnpublishCounted(s, id, step);
      case _ =>
        forall token ensures TokenCounted(Apply(s, e), token) {
          assert TokenCounted(s, token);
        }
    }
  }

  // ---------------------------------------------------------------- where a mount comes from

  /** A mounted attempt is still on its way, was reported as up, is being reaped, or could not be detached. */
  ghost predicate RowExplained(s: State, row: Row) {
    row.source.Attempt? ==>
      var id := row.source.id;
      && id in s.handlers && id in s.attempts && s.handlers[id].req.target == row.target
      && !s.attempts[id].Mounting? && s.attempts[id].ok
      && (s.attempts[id].Consumed? ==> s.handlers[id].mountSuccess || ReaperAt(s, id, Detaching) || id in s.undetached)
  }

  ghost predicate Explained(s: State) {
    forall row | row in s.mounts :: RowExplained(s, row)
  }

  lemma ExplainedElsewhere(s: State, t: State, row: Row, id: nat)
    requires RowExplained(s, row) && row.source != Attempt(id) && SamePublishers(s, t, id)
        && s.undetached <= t.undetached
    ensures RowExplained(t, row)
  {
  }

  lemma PublishExplained(s: State, id: nat, step: PublishStep)
    requires Fits(s) && Explained(s) && CanPublish(s, id, step)
    ensures Explained(DoPublish(s, id, step))
  {
    var t := DoPublish(s, id, step);
    PublishMovesOne(s, id, step);
    forall row | row in t.mounts ensures RowExplained(t, row) {
      assert row in s.mounts && RowExplained(s, row);
      if row.source == Attempt(id) {
        assert CallFits(s, id);
      } else {
        ExplainedElsewhere(s, t, row, id);
      }
    }
  }

  lemma ReapExplained(s: State, id: nat, step: ReapStep)
    requires Fits(s) && Explained(s) && CanReap(s, id, step)
    ensures Explained(DoReap(s, id, step))
  {
    var t := DoReap(s, id, step);
    ReapMovesOne(s, id, step);
    forall row | row in t.mounts ensures RowExplained(t, row) {
      assert row in s.mounts && RowExplained(s, row);
      if row.source == Attempt(id) {
        assert CallFits(s, id);
        assert row.target == s.reapers[id].req.target;
      } else {
        ExplainedElsewhere(s, t, row, id);
      }
    }
  }

  lemma MountExplained(s: State, id: nat, step: MountStep)
    requires Fits(s) && Explained(s) && CanMount(s, id, step)
    ensures Explained(DoMount(s, id, step))
  {
    var t := DoMount(s, id, step);
    assert CallFits(s, id);
    MountMovesOne(s, id, step);
    forall row | row in t.mounts ensures RowExplained(t, row) {
      assert row in s.mounts ==> RowExplained(s, row);
      if row.source != Attempt(id) {
        ExplainedElsewhere(s, t, row, id);
      }
    }
  }

  lemma UnpublishExplained(s: State, id: nat, step: UnpublishStep)
    requires Explained(s) && CanUnpublish(s, id, step)
    ensures Explained(DoUnpublish(s, id, step))
  {
    var t := DoUnpublish(s, id, step);
    assert t.mounts <= s.mounts && t.handlers == s.handlers && t.attempts == s.attempts && t.reapers == s.reapers;
    forall row | row in t.mounts ensures RowExplained(t, row) {
      assert RowExplained(s, row);
    }
  }

  lemma ExplainedKept(s: State, e: Event)
    requires Fits(s) && Explained(s) && Enabled(s, e)
    ensures Explained(Apply(s, e))
  {
    match e {
      case PublishEvent(id, step) => PublishExplained(s, id, step);
      case ReapEvent(id, step) => ReapExplained(s, id, step);
      case MountEvent(id, step) => MountExplained(s, id, step);
      case UnpublishEvent(id, step) => UnpublishExplained(s, id, step);
      case RowVanishes(_) =>
        forall row | row in Apply(s, e).mounts ensures RowExplained(Apply(s, e), row) {
          assert RowExplained(s, row);
        }
    }
  }

  // ---------------------------------------------------------------- what the caller of a publish hears

  predicate Ended(pc: HandlerPc) {
    pc.DeferCleanup? || pc.DeferRelease? || pc.Returned?
  }

  /**
   * A call answers when it has ended, and then success exactly if it has taken the result of its own mount and that
   * mount is up, or if it found the target published already; a call that was handed over is refused.
   */
  ghost predicate AnswerFits(s: State, id: nat)
    requires id in s.handlers
  {
    ReplyFits(s.handlers[id], s.attempts, id)
  }

  predicate ReplyFits(h: Handler, attempts: map<nat, Goroutine>, id: nat) {
    && (h.reply == Pending <==> !Ended(h.pc))
    && (h.mountSuccess <==> id in attempts && attempts[id] == Consumed(true) && !h.handOff)
    && (Ended(h.pc) ==> (h.reply == Published <==> h.mountSuccess))
    && (h.handOff ==> h.reply == Refused)
    && (h.reply == AlreadyPublished ==> id !in attempts)
  }

  ghost predicate Answered(s: State) {
    forall id | id in s.handlers :: AnswerFits(s, id)
  }

  lemma PublishAnswers(s: State, id: nat, step: PublishStep)
    requires CallFits(s, id) && (id in s.handlers ==> AnswerFits(s, id)) && CanPublish(s, id, step)
    ensures AnswerFits(DoPublish(s, id, step), id)
  {
    PublishMoves(s, id, step);
    NextAnswers(s, id, step);
  }

  lemma NextAnswers(s: State, id: nat, step: PublishStep)
    requires CallFits(s, id) && (id in s.handlers ==> AnswerFits(s, id)) && CanPublish(s, id, step)
    ensures ReplyFits(NextHandler(s, id, step), PublishAttempts(s, id, step), id)
  {
  }

  lemma AnsweredKept(s: State, e: Event)
    requires Fits(s) && Answered(s) && Enabled(s, e)
    ensures Answered(Apply(s, e))
  {
    var t := Apply(s, e);
    match e {
      case PublishEvent(id, step) =>
        assert CallFits(s, id);
        PublishMovesOne(s, id, step);
        PublishAnswers(s, id, step);
        AnswersElsewhere(s, t, id);
      case MountEvent(id, step) =>
        MountMovesOne(s, id, step);
        AnswersElsewhere(s, t, id);
      case ReapEvent(id, step) =>
        assert CallFits(s, id);
        ReapMovesOne(s, id, step);
        AnswersElsewhere(s, t, id);
      case UnpublishEvent(id, step) =>
        UnpublishMovesOne(s, id, step);
        SameAnswers(s, t);
      case RowVanishes(_) => SameAnswers(s, t);
    }
  }

  lemma AnswersElsewhere(s: State, t: State, id: nat)
    requires Answered(s) && SamePublishers(s, t, id) && (id in t.handlers ==> AnswerFits(t, id))
    ensures Answered(t)
  {
    forall j | j in t.handlers ensures AnswerFits(t, j) {
      assert j != id ==> AnswerFits(s, j);
    }
  }

  lemma SameAnswers(s: State, t: State)
    requires Answered(s) && t.handlers == s.handlers && t.attempts == s.attempts
    ensures Answered(t)
  {
    forall j | j in t.handlers ensures AnswerFits(t, j) {
      assert AnswerFits(s, j);
    }
  }

  // ---------------------------------------------------------------- all interleavings

  ghost predicate Safe(s: State) {
    Fits(s) && Owned(s) && Counted(s) && Explained(s) && Answered(s)
  }

  lemma IdleSafe(s: State)
    requires Idle(s)
    ensures Safe(s)
  {
  }

  lemma SafeKept(s: State, e: Event)
    requires Safe(s) && Enabled(s, e)
    ensures Safe(Apply(s, e))
  {
    FitsKept(s, e);
    OwnedKept(s, e);
    CountedKept(s, e);
    ExplainedKept(s, e);
    AnsweredKept(s, e);
  }

  lemma {:induction false} RunSafe(s: State, es: seq<Event>, t: State)
    requires Safe(s) && Run(s, es, t)
    ensures Safe(t)
    decreases |es|
  {
    if es != [] {
      SafeKept(s, es[0]);
      RunSafe(Apply(s, es[0]), es[1..], t);
    }
  }

  /** In every reachable state a key is locked exactly when one, and only one, actor still has to release it. */
  lemma LockedIffOneOwner(s: State, es: seq<Event>, t: State, key: string)
    requires Idle(s) && Run(s, es, t)
    ensures key in t.locks <==> exists o :: Owns(t, o) && KeyOf(t, o) == key
    ensures forall o1, o2 | Owns(t, o1) && Owns(t, o2) && KeyOf(t, o1) == KeyOf(t, o2) :: o1 == o2
  {
    IdleSafe(s);
    RunSafe(s, es, t);
    assert KeyListed(t, key);
    forall o1, o2 | Owns(t, o1) && Owns(t, o2) && KeyOf(t, o1) == KeyOf(t, o2) ensures o1 == o2 {
      assert OwnerListed(t, o1) && OwnerListed(t, o2);
    }
    forall o | Owns(t, o) && KeyOf(t, o) == key ensures key in t.locks {
      assert OwnerListed(t, o);
    }
  }

  /** The actor a releasing event belongs to. */
  function Releaser(e: Event): Option<Owner> {
    match e
    case PublishEvent(id, step) => if step.RunRelease? then Some(HandlerOwner(id)) else None
    case ReapEvent(id, step) => if step.ReapRelease? then Some(ReaperOwner(id)) else None
    case UnpublishEvent(id, step) => if step.ReleaseUnpublish? then Some(UnpublisherOwner(id)) else None
    case _ => None
  }

  /** A key that leaves the lock set was held by the very actor that released it: no release frees another one's key. */
  lemma ReleaseIsOnesOwn(s: State, es: seq<Event>, t: State, e: Event, key: string)
    requires Idle(s) && Run(s, es, t) && Enabled(t, e)
    requires key in t.locks && key !in Apply(t, e).locks
    ensures Releaser(e).Some? && Owns(t, Releaser(e).value) && KeyOf(t, Releaser(e).value) == key
    ensures !Owns(Apply(t, e), Releaser(e).value)
  {
    IdleSafe(s);
    RunSafe(s, es, t);
    FreedByReleaser(t, e, key);
  }

  lemma FreedByReleaser(t: State, e: Event, key: string)
    requires Fits(t) && Enabled(t, e) && key in t.locks && key !in Apply(t, e).locks
    ensures Releaser(e).Some? && Owns(t, Releaser(e).value) && KeyOf(t, Releaser(e).value) == key
    ensures !Owns(Apply(t, e), Releaser(e).value)
  {
    match e {
      case PublishEvent(id, step) => PublishFrees(t, id, step, key);
      case ReapEvent(id, step) => ReapFrees(t, id, step, key);
      case UnpublishEvent(id, step) => UnpublishFrees(t, id, step, key);
      case _ =>
    }
  }

  lemma ReapFrees(t: State, id: nat, step: ReapStep, key: string)
    requires CanReap(t, id, step) && key in t.locks && key !in DoReap(t, id, step).locks
    ensures step.ReapRelease? && LockKey(t.reapers[id].req) == key && DoReap(t, id, step).reapers[id].pc.Gone?
  {
  }

  lemma UnpublishFrees(t: State, id: nat, step: UnpublishStep, key: string)
    requires CanUnpublish(t, id, step) && key in t.locks && key !in DoUnpublish(t, id, step).locks
    ensures step.ReleaseUnpublish? && LockKey(t.unpublishers[id].req) == key
    ensures DoUnpublish(t, id, step).unpublishers[id].pc.UReturned?
  {
  }

  lemma PublishFrees(t: State, id: nat, step: PublishStep, key: string)
    requires CanPublish(t, id, step) && key in t.locks && key !in DoPublish(t, id, step).locks
    ensures step.RunRelease? && !t.handlers[id].handOff && LockKey(t.handlers[id].req) == key
    ensures DoPublish(t, id, step).handlers[id].pc.Returned?
  {
  }

  /** When nobody is at work, every granted lock has been released exactly once and no key is left. */
  lemma NothingLeftLocked(s: State, es: seq<Event>, t: State)
    requires Idle(s) && Run(s, es, t) && forall o :: !Owns(t, o)
    ensures t.locks == {} && t.grants == t.releases && forall token :: t.releases[token] <= 1
  {
    IdleSafe(s);
    RunSafe(s, es, t);
    forall key ensures key !in t.locks {
      assert KeyListed(t, key);
    }
    forall token ensures t.grants[token] == t.releases[token] <= 1 {
      assert TokenCounted(t, token) && !Live(t, token);
    }
  }

  /** A background mount whose result nobody has taken is guarded by its key, and has exactly one taker left. */
  lemma InFlightIsLocked(s: State, es: seq<Event>, t: State, id: nat)
    requires Idle(s) && Run(s, es, t)
    requires id in t.attempts && !t.attempts[id].Consumed?
    ensures id in t.handlers && LockKey(t.handlers[id].req) in t.locks
    ensures At(t, id, Wait) <==> !ReaperAt(t, id, Receiving)
  {
    IdleSafe(s);
    RunSafe(s, es, t);
    assert CallFits(t, id);
    assert OwnerListed(t, HandlerOwner(id)) && OwnerListed(t, ReaperOwner(id));
  }

  /**
   * In every reachable state: a call that has ended has answered, with success exactly if its own mount came up in
   * time, or if the target was published already; a call that gave up waiting has been refused.
   */
  lemma CallerHears(s: State, es: seq<Event>, t: State, id: nat)
    requires Idle(s) && Run(s, es, t) && id in t.handlers
    ensures var h := t.handlers[id];
            && (h.reply == Pending <==> !h.pc.DeferCleanup? && !h.pc.DeferRelease? && !h.pc.Returned?)
            && (h.reply == Published ==> id in t.attempts && t.attempts[id] == Consumed(true) && !h.handOff)
            && (h.pc.Returned? && id in t.attempts && t.attempts[id] == Consumed(true) && !h.handOff
                ==> h.reply == Published)
            && (h.handOff ==> h.reply == Refused)
            && (h.reply == AlreadyPublished ==> id !in t.attempts)
  {
    IdleSafe(s);
    RunSafe(s, es, t);
    assert AnswerFits(t, id);
  }

  /**
   * The key of a handed-off attempt, whose caller was refused, is freed only after its mount was detached, or the
   * detaching failed.
   */
  lemma ReapedBeforeFree(s: State, es: seq<Event>, t: State, id: nat)
    requires Idle(s) && Run(s, es, t) && ReaperAt(t, id, Releasing)
    ensures id in t.handlers && t.handlers[id].reply == Refused
    ensures id !in t.undetached ==> forall row | row in t.mounts :: row.source != Attempt(id)
  {
    IdleSafe(s);
    RunSafe(s, es, t);
    assert CallFits(t, id) && AnswerFits(t, id);
    forall row | row in t.mounts && row.source == Attempt(id) ensures id in t.undetached {
      assert RowExplained(t, row);
    }
  }
}
