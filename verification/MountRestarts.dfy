/** Direct mode: restarts. Only the saved states survive, and remounting them brings the contexts back. */
module MountRestarts {
  import opened MountLifecycle
  import opened MountOutcomes
  import opened MountSections
  import opened MountRecords

  // ---------------------------------------------------------------- a restart

  /** A new process: only the saved states survive; whatever is still mounted is foreign to it. */
  function Restarted(s: State): State {
    State({}, {}, map[], set r | r in s.mounts :: Row(r.target, Foreign), s.saved,
          map[], map[], map[], map[], map[], multiset{}, multiset{}, {})
  }

  /**
   * How one RemountState ends: mounted, or failed, perhaps after unmounting what was there or loading some
   * sections.
   */
  datatype Outcome = Up(names: set<string>) | Down(cleaned: bool, leaked: set<string>)

  datatype Remount = Remount(req: Request, outcome: Outcome)

  function Remounted(s: State, r: Remount): State {
    match r.outcome
    case Up(names) =>
      s.(mounts := s.mounts - RowsAt(s, r.req.target) + {Row(r.req.target, Boot)},
         sections := s.sections + names,
         contexts := s.contexts[r.req.target := Context(Boot, names)],
         saved := s.saved + {r.req})
    case Down(cleaned, leaked) =>
      s.(mounts := if cleaned then s.mounts - RowsAt(s, r.req.target) else s.mounts, sections := s.sections + leaked)
  }

  /** RemountAllStates over the states in the order LoadState happens to list them, going on after a failure. */
  function RemountedAll(s: State, rs: seq<Remount>): State
    decreases |rs|
  {
    if rs == [] then s else RemountedAll(Remounted(s, rs[0]), rs[1..])
  }

  /** Each state is listed at most once. */
  ghost predicate Listed(saved: set<Request>, rs: seq<Remount>) {
    && (forall r | r in rs :: r.req in saved)
    && (forall i, j | 0 <= i < j < |rs| :: rs[i].req != rs[j].req)
  }

  /** The state is remounted, and with success. */
  ghost predicate RemountedUp(rs: seq<Remount>, req: Request) {
    exists r :: r in rs && r.outcome.Up? && r.req == req
  }

  lemma RemountedBooted(plan: Plan, s: State, r: Remount)
    requires Booted(s, plan) && r.req in s.saved && Planned(plan, r.req)
    requires r.outcome.Down? ==> r.req.target !in s.contexts
    ensures Booted(Remounted(s, r), plan) && Remounted(s, r).saved == s.saved
    ensures Remounted(s, r).contexts.Keys == s.contexts.Keys + if r.outcome.Up? then {r.req.target} else {}
  {
  }

  lemma RestMissing(plan: Plan, s: State, rs: seq<Remount>)
    requires SavedPlanned(plan, s) && Listed(s.saved, rs) && forall r | r in rs :: r.req.target !in s.contexts
    requires rs != [] && Remounted(s, rs[0]).contexts.Keys <= s.contexts.Keys + {rs[0].req.target}
    ensures Listed(s.saved, rs[1..])
    ensures forall r | r in rs[1..] :: r.req.target !in Remounted(s, rs[0]).contexts
  {
    forall r | r in rs[1..] ensures r in rs && r.req.target != rs[0].req.target {
      var i :| 0 <= i < |rs| - 1 && rs[1..][i] == r;
      assert rs[i + 1] == r && rs[0].req != rs[i + 1].req;
      assert Planned(plan, rs[0].req) && Planned(plan, r.req);
    }
  }

  lemma {:induction false} RemountedAllBooted(plan: Plan, s: State, rs: seq<Remount>)
    requires Booted(s, plan) && SavedPlanned(plan, s)
    requires Listed(s.saved, rs) && forall r | r in rs :: r.req.target !in s.contexts
    ensures var t := RemountedAll(s, rs);
            && Booted(t, plan) && t.saved == s.saved
            && forall c :: c in t.contexts
                <==> c in s.contexts || exists r :: r in rs && r.outcome.Up? && r.req.target == c
    decreases |rs|
  {
    if rs != [] {
      assert rs[0] in rs;
      RemountedBooted(plan, s, rs[0]);
      RestMissing(plan, s, rs);
      RemountedAllBooted(plan, Remounted(s, rs[0]), rs[1..]);
      assert forall r :: r in rs <==> r == rs[0] || r in rs[1..];
    }
  }

  lemma RestartedBooted(plan: Plan, t: State)
    ensures Booted(Restarted(t), plan) && Restarted(t).saved == t.saved && Restarted(t).contexts == map[]
  {
  }

  /**
   * A restart at any moment of any run, with calls at work, whichever saves have failed and whichever remounts fail,
   * in whatever order the states are listed: the new process boots with the same saved states and with contexts for
   * exactly the targets whose remount succeeded.
   */
  lemma RestartBoots(plan: Plan, s: State, es: seq<Event>, t: State, rs: seq<Remount>)
    requires Booted(s, plan) && SavedPlanned(plan, s) && PlannedRun(plan, s, es, t) && Listed(t.saved, rs)
    ensures var u := RemountedAll(Restarted(t), rs);
            && Booted(u, plan) && SavedPlanned(plan, u) && u.saved == t.saved
            && forall c :: c in u.contexts
                <==> c in plan.volumeAt && RemountedUp(rs, Request(plan.volumeAt[c], c))
  {
    BootedReported(plan, s);
    RunSavedPlanned(plan, s, es, t);
    RestartedBooted(plan, t);
    RemountedAllBooted(plan, Restarted(t), rs);
    forall c ensures (exists r :: r in rs && r.outcome.Up? && r.req.target == c)
                     <==> c in plan.volumeAt && RemountedUp(rs, Request(plan.volumeAt[c], c))
    {
      assert forall r | r in rs :: Planned(plan, r.req);
    }
  }

  /** One target was looked after: its saves and deletes and its remount worked, and nobody was working on it. */
  ghost predicate Tended(plan: Plan, s: State, es: seq<Event>, t: State, rs: seq<Remount>, c: string)
    requires c in plan.volumeAt
  {
    var req := Request(plan.volumeAt[c], c);
    ApiOkAlong(s, es, {c}) && KeyAt(plan, c) !in t.locks && (req in t.saved ==> RemountedUp(rs, req))
  }

  /**
   * Target by target, whatever goes wrong elsewhere: one that the boot found in agreement, and that was looked after,
   * has a context after the restart exactly if it had one before, and is in agreement again.
   */
  lemma RestartRestores(plan: Plan, s: State, es: seq<Event>, t: State, rs: seq<Remount>, c: string)
    requires GoodPlan(plan) && Booted(s, plan) && SavedPlanned(plan, s)
    requires PlannedRun(plan, s, es, t) && Listed(t.saved, rs)
    requires c in plan.volumeAt && AgreedAt(plan, s, c) && Tended(plan, s, es, t, rs, c)
    ensures var u := RemountedAll(Restarted(t), rs);
            (c in u.contexts <==> c in t.contexts) && AgreedAt(plan, u, c)
  {
    RestartBoots(plan, s, es, t, rs);
    SavedIffMounted(plan, s, es, t, {c}, c);
  }

  // ---------------------------------------------------------------- any number of restarts

  /** The run of one process, the state it was killed in, and the remounts of the next. */
  datatype Life = Life(es: seq<Event>, end: State, remounts: seq<Remount>)

  ghost predicate Lives(plan: Plan, s: State, lives: seq<Life>, u: State)
    decreases |lives|
  {
    if lives == [] then s == u
    else
      var l := lives[0];
      && PlannedRun(plan, s, l.es, l.end) && Listed(l.end.saved, l.remounts)
      && Lives(plan, RemountedAll(Restarted(l.end), l.remounts), lives[1..], u)
  }

  /** After any number of restarts the process has booted, so whatever holds of runs from a boot holds of its runs. */
  lemma {:induction false} LivesBoot(plan: Plan, s: State, lives: seq<Life>, u: State)
    requires Booted(s, plan) && SavedPlanned(plan, s) && Lives(plan, s, lives, u)
    ensures Booted(u, plan) && SavedPlanned(plan, u)
    decreases |lives|
  {
    if lives != [] {
      var l := lives[0];
      RestartBoots(plan, s, l.es, l.end, l.remounts);
      LivesBoot(plan, RemountedAll(Restarted(l.end), l.remounts), lives[1..], u);
    }
  }

  ghost predicate TendedAlong(plan: Plan, s: State, lives: seq<Life>, c: string)
    requires c in plan.volumeAt
    decreases |lives|
  {
    lives == []
    || (Tended(plan, s, lives[0].es, lives[0].end, lives[0].remounts, c)
        && TendedAlong(plan, RemountedAll(Restarted(lives[0].end), lives[0].remounts), lives[1..], c))
  }

  /** A target that is looked after stays in agreement over any number of restarts. */
  lemma {:induction false} LivesAgree(plan: Plan, s: State, lives: seq<Life>, u: State, c: string)
    requires GoodPlan(plan) && Booted(s, plan) && SavedPlanned(plan, s) && Lives(plan, s, lives, u)
    requires c in plan.volumeAt && AgreedAt(plan, s, c) && TendedAlong(plan, s, lives, c)
    ensures AgreedAt(plan, u, c)
    decreases |lives|
  {
    if lives != [] {
      var l := lives[0];
      RestartBoots(plan, s, l.es, l.end, l.remounts);
      RestartRestores(plan, s, l.es, l.end, l.remounts, c);
      LivesAgree(plan, RemountedAll(Restarted(l.end), l.remounts), lives[1..], u, c);
    }
  }

  /**
   * If nothing fails anywhere and nobody is at work, all contexts are back for exactly the targets that had one, and
   * the saved states are exactly the contexts again.
   */
  lemma RestartRestoresAll(plan: Plan, s: State, es: seq<Event>, t: State, rs: seq<Remount>)
    requires GoodPlan(plan) && Booted(s, plan) && Agreed(plan, s)
    requires PlannedRun(plan, s, es, t) && ApiOkAlong(s, es, plan.volumeAt.Keys) && Quiet(t)
    requires Listed(t.saved, rs) && forall q | q in t.saved :: RemountedUp(rs, q)
    ensures var u := RemountedAll(Restarted(t), rs); u.contexts.Keys == t.contexts.Keys && Agreed(plan, u)
  {
    QuietAgreed(plan, s, es, t);
    RestartBoots(plan, s, es, t, rs);
  }

  // ---------------------------------------------------------------- the sections after a restart

  predicate SameNames(plan: Plan, r: Remount) {
    match r.outcome
    case Up(names) => names == NamesAt(plan, r.req.target)
    case Down(_, leaked) => leaked == {}
  }

  lemma RemountedSections(plan: Plan, s: State, r: Remount)
    requires SectionsBooted(plan, s) && SameNames(plan, r) && r.req.target !in s.contexts
    ensures SectionsBooted(plan, Remounted(s, r))
  {
    match r.outcome {
      case Up(names) => OneMoreContext(plan, s, Remounted(s, r), r.req.target);
      case Down(_, _) =>
    }
  }

  lemma OneMoreContext(plan: Plan, s: State, t: State, target: string)
    requires SectionsBooted(plan, s) && target !in s.contexts
    requires t.contexts == s.contexts[target := Context(Boot, NamesAt(plan, target))]
    requires t.sections == s.sections + NamesAt(plan, target)
    ensures SectionsBooted(plan, t)
  {
    forall x | x in t.sections ensures exists c :: c in t.contexts && x in t.contexts[c].remotes {
      if x in s.sections {
        var c :| c in s.contexts && x in s.contexts[c].remotes;
        assert c in t.contexts && x in t.contexts[c].remotes;
      } else {
        assert target in t.contexts && x in t.contexts[target].remotes;
      }
    }
  }

  /**
   * If moreover the configs have not changed and no failed load was cut short, the sections are in order too: each
   * belongs to a context, and those of every context are loaded.
   */
  lemma {:induction false} RestartSections(plan: Plan, s: State, rs: seq<Remount>)
    requires SectionsBooted(plan, s) && SavedPlanned(plan, s) && Listed(s.saved, rs)
    requires forall r | r in rs :: r.req.target !in s.contexts && SameNames(plan, r)
    ensures SectionsBooted(plan, RemountedAll(s, rs))
    decreases |rs|
  {
    if rs != [] {
      assert rs[0] in rs;
      RemountedSections(plan, s, rs[0]);
      RestMissing(plan, s, rs);
      RestartSections(plan, Remounted(s, rs[0]), rs[1..]);
    }
  }

  /** Every context has its sections loaded and a mount of its own at its target. */
  ghost predicate Served(s: State) {
    forall c | c in s.contexts ::
      s.contexts[c].remotes <= s.sections && Row(c, s.contexts[c].source) in s.mounts
  }

  lemma RemountedServed(s: State, r: Remount)
    requires Served(s) && r.req.target !in s.contexts
    ensures Served(Remounted(s, r))
  {
  }

  /**
   * Whatever the configs have become in between and whichever remounts fail, each context that comes back has its
   * sections loaded and its mount at the target.
   */
  lemma {:induction false} RestartServes(plan: Plan, s: State, rs: seq<Remount>)
    requires Served(s) && SavedPlanned(plan, s) && Listed(s.saved, rs)
    requires forall r | r in rs :: r.req.target !in s.contexts
    ensures Served(RemountedAll(s, rs))
    decreases |rs|
  {
    if rs != [] {
      assert rs[0] in rs && Planned(plan, rs[0].req);
      RemountedServed(s, rs[0]);
      RestMissing(plan, s, rs);
      RestartServes(plan, Remounted(s, rs[0]), rs[1..]);
    }
  }
}
