/** The operator's decisions, in both directions: what is restarted and torn down, and what must be. */
module RestartDecisions {
  import opened Text
  import opened Paths
  import opened Mountinfo
  import opened Recovery

  // ---------------------------------------------------------------- when a pod is deleted

  const SUPPORTED: set<string> := {"ReplicaSet", "StatefulSet", "DaemonSet", "Job"}

  /** The owner's note says that its pods were restarted a moment ago, or cannot be read as a time. */
  predicate NoteForbids(w: World, cfg: Settings, owner: Owner, now: int, a: Answers) {
    && owner.kind in SUPPORTED && a.ownerReadable && owner in w.notes
    && (w.notes[owner].Garbled? || now - w.notes[owner].at < cfg.cooldown)
  }

  /** Neither a restart of this process nor the owner's note stands in the way. */
  ghost predicate Rested(w: World, cfg: Settings, owner: Owner, now: int, a: Answers) {
    && (forall r | r in w.log && r.process == w.process && KeyOf(r.owner) == KeyOf(owner) ::
          now - r.at >= cfg.cooldown)
    && !NoteForbids(w, cfg, owner, now, a)
  }

  lemma LimitedIff(w: World, cfg: Settings, owner: Owner, now: int, a: Answers)
    requires Faithful(w, cfg.cooldown, now)
    ensures Limited(WithPrune(w, cfg, now), cfg, owner, now, a) <==> !Rested(w, cfg, owner, now, a)
  {
    assert FaithfulAt(w, KeyOf(owner), now, cfg.cooldown);
  }

  /** What a turn leaves that deletes the pod: the deletion in the trace, and unless it failed the restart on record. */
  ghost predicate Restarts(w: World, t: World, pod: Pod, owner: Owner, now: int, a: Answers) {
    && t.trace == w.trace + [DeletePod(pod.uid, !a.deletion.DeleteFailed?)] && t.process == w.process
    && (a.deletion.DeleteFailed? ==> t.log == w.log && t.notes == w.notes)
    && (!a.deletion.DeleteFailed? ==>
          var noted := owner.kind in SUPPORTED && a.noteWritten;
          && t.log == w.log + [Restart(owner, now, w.process, noted, owner.kind in SUPPORTED && a.ownerReadable)]
          && t.notes == (if noted then w.notes[owner := Stamp(now / 1_000_000_000 * 1_000_000_000)] else w.notes))
  }

  predicate Untouched(w: World, t: World) {
    t.trace == w.trace && t.log == w.log && t.notes == w.notes && t.process == w.process
  }

  /** The pod is one to restart at all: restartable, and its volume is the driver's. */
  ghost predicate Candidate(pod: Pod, a: Answers) {
    Restartable(pod) && a.managed
  }

  /** The probe was repeated before the restart and found the mount corrupted; a probe that timed out is not. */
  predicate FoundCorrupted(m: StaleMount, a: Answers) {
    a.corrupted && !HasPrefix(m.reason, "mount probe timed out after ")
  }

  /**
   * In one turn of a stale pass the pod of the mount is deleted exactly if it is a candidate, its workload has rested,
   * and the mount was found corrupted again; otherwise nothing happens to it.
   */
  lemma StaleTurnIff(w: World, cfg: Settings, pods: seq<Pod>, item: Item, now: int, pod: Pod)
    requires Faithful(w, cfg.cooldown, now) && PodByUid(pods, item.mount.podUid) == Some(pod)
    ensures OwnerOf(pod).None? ==> !Restartable(pod)
    ensures var t, a := ConsiderMount(w, cfg, pods, item, now), item.answers;
            if Candidate(pod, a) && Rested(w, cfg, OwnerOf(pod).value, now, a) && FoundCorrupted(item.mount, a)
            then Restarts(w, t, pod, OwnerOf(pod).value, now, a)
            else Untouched(w, t)
  {
    SkipIff(pod);
    if OwnerOf(pod).Some? {
      LimitedIff(w, cfg, OwnerOf(pod).value, now, item.answers);
    }
  }

  /** In one turn of the pass after a driver restart the same, but that no mount is looked at. */
  lemma CsiTurnIff(w: World, cfg: Settings, p: Listed, now: int)
    requires Faithful(w, cfg.cooldown, now)
    ensures OwnerOf(p.pod).None? ==> !Restartable(p.pod)
    ensures var t := ConsiderListed(w, cfg, p, now);
            if Candidate(p.pod, p.answers) && Rested(w, cfg, OwnerOf(p.pod).value, now, p.answers)
            then Restarts(w, t, p.pod, OwnerOf(p.pod).value, now, p.answers)
            else Untouched(w, t)
  {
    SkipIff(p.pod);
    if OwnerOf(p.pod).Some? {
      LimitedIff(w, cfg, OwnerOf(p.pod).value, now, p.answers);
    }
  }

  // ---------------------------------------------------------------- the teardown of an orphan

  /** The first FUSE mount at the path in the table read before the unmount has this connection. */
  predicate Resolves(m: StaleMount, a: Answers, id: string) {
    a.tableBefore.Some? && FirstMinor(Split(a.tableBefore.value, '\n'), Clean(m.path)) == Some(id) && id != ""
  }

  /** The table read after the unmount shows the connection nowhere else. */
  predicate Unshared(m: StaleMount, a: Answers, id: string) {
    a.tableAfter.Some?
    && forall line | line in Split(a.tableAfter.value, '\n') :: !SharingLine(line, Clean(m.path), id)
  }

  /**
   * With the pod gone, the path is unmounted exactly if the option is on, a connection is aborted exactly if the
   * unmount worked, its option is on and it was resolved and is shared with nobody, and the mount process is killed
   * exactly if the unmount worked and its option is on.
   */
  lemma TeardownIff(w: World, cfg: Settings, pods: seq<Pod>, item: Item, now: int, id: string, path: string, ok: bool)
    requires forall pod | pod in pods :: pod.uid != item.mount.podUid
    ensures var t, m, a := ConsiderMount(w, cfg, pods, item, now), item.mount, item.answers;
            && t.log == w.log && t.notes == w.notes && t.last == w.last
            && w.trace <= t.trace
            && var done := t.trace[|w.trace|..];
               && (Unmount(path, ok) in done <==> cfg.lazyUmount && path == m.path && ok == a.unmounted)
               && (Abort(id, path) in done
                   <==> && cfg.lazyUmount && a.unmounted && cfg.fuseAbort && path == m.path
                        && Resolves(m, a, id) && Unshared(m, a, id))
               && (Kill(path) in done <==> cfg.lazyUmount && a.unmounted && cfg.killProcess && path == m.path)
  {
    PodByUidFinds(pods, item.mount.podUid);
    var m, a := item.mount, item.answers;
    assert (w.trace + TeardownTrace(cfg, m, a))[|w.trace|..] == TeardownTrace(cfg, m, a);
    TeardownMembers(cfg, m, a, id, path, ok);
  }

  lemma TeardownMembers(cfg: Settings, m: StaleMount, a: Answers, id: string, path: string, ok: bool)
    ensures var done := TeardownTrace(cfg, m, a);
            && (Unmount(path, ok) in done <==> cfg.lazyUmount && path == m.path && ok == a.unmounted)
            && (Abort(id, path) in done <==> cfg.lazyUmount && a.unmounted && Abort(id, path) in AbortTrace(cfg, m, a))
            && (Kill(path) in done <==> cfg.lazyUmount && a.unmounted && cfg.killProcess && path == m.path)
    ensures Abort(id, path) in AbortTrace(cfg, m, a)
            <==> cfg.fuseAbort && path == m.path && Resolves(m, a, id) && Unshared(m, a, id)
  {
    AbortMembers(cfg, m, a, id, path);
    var done, aborts := TeardownTrace(cfg, m, a), AbortTrace(cfg, m, a);
    if cfg.lazyUmount && a.unmounted {
      var first := [ReadTable(m.path, a.tableBefore), Unmount(m.path, true)];
      var last := if cfg.killProcess then [Kill(m.path)] else [];
      assert done == first + aborts + last;
      assert forall x :: x in done <==> x in first || x in aborts || x in last;
    }
  }

  lemma AbortMembers(cfg: Settings, m: StaleMount, a: Answers, id: string, path: string)
    ensures Abort(id, path) in AbortTrace(cfg, m, a)
            <==> cfg.fuseAbort && path == m.path && Resolves(m, a, id) && Unshared(m, a, id)
    ensures forall x | x in AbortTrace(cfg, m, a) :: x.ReadTable? || x.Abort?
  {
    var aborts, c := AbortTrace(cfg, m, a), ConnectionId(m, a);
    if cfg.fuseAbort && c.Some? && c.value != "" {
      UnsharedIff(m, a, c.value);
      var last := if Unshared(m, a, c.value) then [Abort(c.value, m.path)] else [];
      assert aborts == [ReadTable(m.path, a.tableAfter)] + last;
      assert Abort(id, path) in aborts <==> Abort(id, path) in last;
    }
  }

  lemma UnsharedIff(m: StaleMount, a: Answers, id: string)
    ensures Unshared(m, a, id) <==> a.tableAfter.Some? && !SharedIn(a.tableAfter.value, m.path, id)
  {
  }

  /**
   * On tables as the kernel prints them: an orphan whose first FUSE mount has a connection that no other mount point
   * shows after the unmount is aborted.
   */
  lemma OrphanAborted(
    w: World, cfg: Settings, pods: seq<Pod>, item: Item, now: int, id: string, before: seq<Row>, after: seq<Row>)
    requires forall pod | pod in pods :: pod.uid != item.mount.podUid
    requires cfg.lazyUmount && cfg.fuseAbort && item.answers.unmounted && id != ""
    requires GoodRows(before) && GoodRows(after)
    requires item.answers.tableBefore == Some(PrintTable(before)) && item.answers.tableAfter == Some(PrintTable(after))
    ensures Abort(id, item.mount.path) in ConsiderMount(w, cfg, pods, item, now).trace[|w.trace|..]
            <==> && FirstFuseMinor(before, item.mount.path) == Some(id)
                 && forall r | r in after && FuseRow(r) && r.minor == id :: Clean(r.point) == Clean(item.mount.path)
  {
    TeardownIff(w, cfg, pods, item, now, id, item.mount.path, true);
    LookupPrinted(before, item.mount.path);
    SharedPrinted(after, item.mount.path, id);
    assert (exists r :: r in after && Shares(r, item.mount.path, id))
           <==> !(forall r | r in after && FuseRow(r) && r.minor == id :: Clean(r.point) == Clean(item.mount.path)) by {
      if r :| r in after && FuseRow(r) && r.minor == id && Clean(r.point) != Clean(item.mount.path) {
        assert Shares(r, item.mount.path, id);
      }
    }
  }

  // ---------------------------------------------------------------- whole passes

  /** What was done on the way from one world to a later one. */
  function DoneBetween(w: World, t: World): seq<Action> {
    if |w.trace| <= |t.trace| then t.trace[|w.trace|..] else []
  }

  /** This turn deletes the pod. */
  ghost predicate RestartDue(w: World, cfg: Settings, pods: seq<Pod>, item: Item, now: int, uid: string, done: bool) {
    var pod, a := PodByUid(pods, uid), item.answers;
    && item.mount.podUid == uid && pod.Some? && Candidate(pod.value, a) && OwnerOf(pod.value).Some?
    && Rested(w, cfg, OwnerOf(pod.value).value, now, a) && FoundCorrupted(item.mount, a)
    && done == !a.deletion.DeleteFailed?
  }

  /** In some turn of the pass a restart is due, on what the turns before it left. */
  ghost predicate RestartComes(
    w: World, cfg: Settings, pods: seq<Pod>, items: seq<Item>, now: int, uid: string, done: bool)
    decreases |items|
  {
    items != []
    && (RestartDue(w, cfg, pods, items[0], now, uid, done)
        || RestartComes(ConsiderMount(w, cfg, pods, items[0], now), cfg, pods, items[1..], now, uid, done))
  }

  lemma DoneInTurns(w: World, next: World, t: World, turn: seq<Action>)
    requires next.trace == w.trace + turn && next.trace <= t.trace
    ensures w.trace <= t.trace && DoneBetween(w, t) == turn + DoneBetween(next, t)
  {
  }

  /**
   * A stale pass deletes exactly the pods whose turn comes with a restart due: of several mounts of one workload only
   * the first that is found corrupted again, since after it the workload has not rested.
   */
  lemma {:induction false} StalePassRestarts(
    w: World, cfg: Settings, pods: seq<Pod>, items: seq<Item>, now: int, uid: string, done: bool)
    requires Good(w, cfg.cooldown, now)
    ensures w.trace <= StalePass(w, cfg, pods, items, now).trace
    ensures DeletePod(uid, done) in DoneBetween(w, StalePass(w, cfg, pods, items, now))
            <==> RestartComes(w, cfg, pods, items, now, uid, done)
    decreases |items|
  {
    if items != [] {
      var next := ConsiderMount(w, cfg, pods, items[0], now);
      ConsiderMountGood(w, cfg, pods, items[0], now);
      TurnRestarts(w, cfg, pods, items[0], now, uid, done);
      StalePassRestarts(next, cfg, pods, items[1..], now, uid, done);
      DoneInTurns(w, next, StalePass(w, cfg, pods, items, now), TurnTrace(w, cfg, pods, items[0], now));
    }
  }

  lemma TurnRestarts(w: World, cfg: Settings, pods: seq<Pod>, item: Item, now: int, uid: string, done: bool)
    requires Good(w, cfg.cooldown, now)
    ensures DeletePod(uid, done) in TurnTrace(w, cfg, pods, item, now)
            <==> RestartDue(w, cfg, pods, item, now, uid, done)
  {
    var found := PodByUid(pods, item.mount.podUid);
    PodByUidFinds(pods, item.mount.podUid);
    if found.Some? {
      SkipIff(found.value);
      if OwnerOf(found.value).Some? {
        LimitedIff(w, cfg, OwnerOf(found.value).value, now, item.answers);
      }
    } else {
      assert DeletePod(uid, done) !in TeardownTrace(cfg, item.mount, item.answers);
    }
  }

  /** The mount belongs to no listed pod, and its path was unmounted. */
  ghost predicate Orphaned(cfg: Settings, pods: seq<Pod>, item: Item, path: string) {
    && (forall pod | pod in pods :: pod.uid != item.mount.podUid)
    && cfg.lazyUmount && item.mount.path == path
  }

  ghost predicate Unmounts(cfg: Settings, pods: seq<Pod>, item: Item, path: string, ok: bool) {
    Orphaned(cfg, pods, item, path) && item.answers.unmounted == ok
  }

  ghost predicate Kills(cfg: Settings, pods: seq<Pod>, item: Item, path: string) {
    Orphaned(cfg, pods, item, path) && item.answers.unmounted && cfg.killProcess
  }

  ghost predicate Aborts(cfg: Settings, pods: seq<Pod>, item: Item, id: string, path: string) {
    && Orphaned(cfg, pods, item, path) && item.answers.unmounted && cfg.fuseAbort
    && Resolves(item.mount, item.answers, id) && Unshared(item.mount, item.answers, id)
  }

  /** A stale pass unmounts exactly the paths of mounts without a pod, and kills and aborts for exactly those due. */
  lemma {:induction false} StalePassTearsDown(
    w: World, cfg: Settings, pods: seq<Pod>, items: seq<Item>, now: int, id: string, path: string, ok: bool)
    ensures w.trace <= StalePass(w, cfg, pods, items, now).trace
    ensures var done := DoneBetween(w, StalePass(w, cfg, pods, items, now));
            && (Unmount(path, ok) in done <==> exists item :: item in items && Unmounts(cfg, pods, item, path, ok))
            && (Kill(path) in done <==> exists item :: item in items && Kills(cfg, pods, item, path))
            && (Abort(id, path) in done <==> exists item :: item in items && Aborts(cfg, pods, item, id, path))
    decreases |items|
  {
    if items != [] {
      var next := ConsiderMount(w, cfg, pods, items[0], now);
      TurnTearsDown(w, cfg, pods, items[0], now, id, path, ok);
      StalePassTearsDown(next, cfg, pods, items[1..], now, id, path, ok);
      DoneInTurns(w, next, StalePass(w, cfg, pods, items, now), TurnTrace(w, cfg, pods, items[0], now));
      assert forall item :: item in items <==> item == items[0] || item in items[1..];
    }
  }

  lemma TurnTearsDown(
    w: World, cfg: Settings, pods: seq<Pod>, item: Item, now: int, id: string, path: string, ok: bool)
    ensures var done := TurnTrace(w, cfg, pods, item, now);
            && (Unmount(path, ok) in done <==> Unmounts(cfg, pods, item, path, ok))
            && (Kill(path) in done <==> Kills(cfg, pods, item, path))
            && (Abort(id, path) in done <==> Aborts(cfg, pods, item, id, path))
  {
    PodByUidFinds(pods, item.mount.podUid);
    TeardownMembers(cfg, item.mount, item.answers, id, path, ok);
    if PodByUid(pods, item.mount.podUid).Some? {
      var pod := PodByUid(pods, item.mount.podUid).value;
      assert pod in pods && pod.uid == item.mount.podUid;
    }
  }

  // ---------------------------------------------------------------- the pass after a driver restart

  ghost predicate CsiRestartDue(w: World, cfg: Settings, p: Listed, now: int, uid: string, done: bool) {
    && p.pod.uid == uid && Candidate(p.pod, p.answers) && OwnerOf(p.pod).Some?
    && Rested(w, cfg, OwnerOf(p.pod).value, now, p.answers) && done == !p.answers.deletion.DeleteFailed?
  }

  ghost predicate CsiRestartComes(w: World, cfg: Settings, listed: seq<Listed>, now: int, uid: string, done: bool)
    decreases |listed|
  {
    listed != []
    && (CsiRestartDue(w, cfg, listed[0], now, uid, done)
        || CsiRestartComes(ConsiderListed(w, cfg, listed[0], now), cfg, listed[1..], now, uid, done))
  }

  /** The pass after a driver restart deletes exactly the pods whose turn comes with a restart due. */
  lemma {:induction false} CsiPassRestarts(
    w: World, cfg: Settings, listed: seq<Listed>, now: int, uid: string, done: bool)
    requires Good(w, cfg.cooldown, now)
    ensures w.trace <= CsiPass(w, cfg, listed, now).trace
    ensures DeletePod(uid, done) in DoneBetween(w, CsiPass(w, cfg, listed, now))
            <==> CsiRestartComes(w, cfg, listed, now, uid, done)
    decreases |listed|
  {
    if listed != [] {
      var next := ConsiderListed(w, cfg, listed[0], now);
      ConsiderListedGood(w, cfg, listed[0], now);
      CsiTurnRestarts(w, cfg, listed[0], now, uid, done);
      CsiPassRestarts(next, cfg, listed[1..], now, uid, done);
      DoneInTurns(w, next, CsiPass(w, cfg, listed, now), DoneBetween(w, next));
    }
  }

  lemma CsiTurnRestarts(w: World, cfg: Settings, p: Listed, now: int, uid: string, done: bool)
    requires Good(w, cfg.cooldown, now)
    ensures var t := ConsiderListed(w, cfg, p, now);
            && t.trace == w.trace + DoneBetween(w, t)
            && (DeletePod(uid, done) in DoneBetween(w, t) <==> CsiRestartDue(w, cfg, p, now, uid, done))
  {
    CsiTurnIff(w, cfg, p, now);
  }

  // ---------------------------------------------------------------- the life of an operator, restarts included

  /** A restart of the pod is due in this pass. */
  ghost predicate DueInPass(w: World, cfg: Settings, op: Op, uid: string, done: bool) {
    match op
    case Stale(pods, items, now) => RestartComes(w, cfg, pods, items, now, uid, done)
    case Csi(listed, now) => CsiRestartComes(w, cfg, listed, now, uid, done)
    case NewProcess => false
  }

  ghost predicate DueAlong(w: World, cfg: Settings, ops: seq<Op>, uid: string, done: bool)
    decreases |ops|
  {
    ops != []
    && (DueInPass(w, cfg, ops[0], uid, done) || DueAlong(Perform(w, cfg, ops[0]), cfg, ops[1..], uid, done))
  }

  lemma PassRestarts(w: World, cfg: Settings, op: Op, uid: string, done: bool)
    requires op.NewProcess? || Good(w, cfg.cooldown, op.now)
    ensures var t := Perform(w, cfg, op);
            && w.trace <= t.trace
            && (DeletePod(uid, done) in DoneBetween(w, t) <==> DueInPass(w, cfg, op, uid, done))
  {
    match op {
      case Stale(pods, items, now) => StalePassRestarts(w, cfg, pods, items, now, uid, done);
      case Csi(listed, now) => CsiPassRestarts(w, cfg, listed, now, uid, done);
      case NewProcess =>
    }
  }

  /** Over any passes and restarts of the operator the pods deleted are exactly those whose restart was due. */
  lemma {:induction false} RunRestarts(w: World, cfg: Settings, ops: seq<Op>, clock: int, uid: string, done: bool)
    requires Good(w, cfg.cooldown, clock) && Ordered(ops, clock)
    ensures w.trace <= PerformAll(w, cfg, ops).trace
    ensures DeletePod(uid, done) in DoneBetween(w, PerformAll(w, cfg, ops)) <==> DueAlong(w, cfg, ops, uid, done)
    decreases |ops|
  {
    if ops != [] {
      var next, t := Perform(w, cfg, ops[0]), PerformAll(w, cfg, ops);
      PassGood(w, cfg, ops[0], clock);
      PassRestarts(w, cfg, ops[0], uid, done);
      RunRestarts(next, cfg, ops[1..], if ops[0].NewProcess? then clock else ops[0].now, uid, done);
      assert DoneBetween(w, t) == DoneBetween(w, next) + DoneBetween(next, t);
    }
  }
}
