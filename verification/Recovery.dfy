/**
 * The node-local recovery operator: restart cooldown and orphan teardown, as functions on what a pass reads and
 * does.
 */
module Recovery {
  import opened Text
  import opened Paths
  import opened Mountinfo

  // ---------------------------------------------------------------- pods and their owners

  datatype OwnerRef = OwnerRef(kind: string, name: string, controller: bool)

  datatype Pod = Pod(uid: string, namespace: string, name: string, owners: seq<OwnerRef>)

  /** The object whose pods one cooldown covers. */
  datatype Owner = Owner(namespace: string, kind: string, name: string)

  /** controllerOwnerRef */
  function ControllerOf(owners: seq<OwnerRef>): Option<OwnerRef> {
    if owners == [] then None
    else if owners[0].controller then Some(owners[0])
    else ControllerOf(owners[1..])
  }

  function OwnerOf(pod: Pod): Option<Owner> {
    match ControllerOf(pod.owners)
    case None => None
    case Some(o) => Some(Owner(pod.namespace, o.kind, o.name))
  }

  function KeyOf(o: Owner): string {
    o.namespace + "/" + o.kind + "/" + o.name
  }

  /** RecoveryKey */
  function RecoveryKey(pod: Pod): string {
    match OwnerOf(pod)
    case Some(o) => KeyOf(o)
    case None => pod.namespace + "/Pod/" + pod.name
  }

  /** Namespaces and kinds carry no '/', so different owners never share a cooldown. */
  lemma KeyOfInjective(a: Owner, b: Owner)
    requires Free(a.namespace, '/') && Free(b.namespace, '/') && Free(a.kind, '/') && Free(b.kind, '/')
    ensures KeyOf(a) == KeyOf(b) <==> a == b
  {
    var x, y := a.kind + ['/'] + a.name, b.kind + ['/'] + b.name;
    assert KeyOf(a) == a.namespace + ['/'] + x && KeyOf(b) == b.namespace + ['/'] + y;
    if KeyOf(a) == KeyOf(b) {
      FirstCutUnique(a.namespace, x, b.namespace, y, '/');
      FirstCutUnique(a.kind, a.name, b.kind, b.name, '/');
    }
  }

  predicate Contains(s: string, part: string) {
    HasPrefix(s, part) || (s != "" && Contains(s[1..], part))
  }

  /** ShouldSkipPod */
  predicate ShouldSkipPod(pod: Pod) {
    || OwnerOf(pod).None?
    || pod.namespace == "kube-system"
    || Contains(pod.name, "csi-rclone")
    || exists o :: o in pod.owners && o.kind == "DaemonSet" && Contains(ToLower(o.name), "csi-rclone")
  }

  predicate StandsAt(s: string, part: string, i: nat) {
    i + |part| <= |s| && s[i..i + |part|] == part
  }

  /** The part stands somewhere in the string. */
  ghost predicate Within(s: string, part: string) {
    exists i: nat :: StandsAt(s, part, i)
  }

  lemma {:induction false} ContainsIff(s: string, part: string)
    ensures Contains(s, part) <==> Within(s, part)
    decreases |s|
  {
    if HasPrefix(s, part) {
      assert StandsAt(s, part, 0);
    }
    if s != "" {
      ContainsIff(s[1..], part);
      forall i: nat | StandsAt(s[1..], part, i) ensures StandsAt(s, part, i + 1) {
        assert s[1..][i..i + |part|] == s[i + 1..i + 1 + |part|];
      }
      forall i: nat | StandsAt(s, part, i) && i > 0 ensures StandsAt(s[1..], part, i - 1) {
        assert s[1..][i - 1..i - 1 + |part|] == s[i..i + |part|];
      }
    }
  }

  /**
   * A pod the operator may restart: some controller will replace it, it is no part of the cluster's own system, and
   * it is none of the driver's pods.
   */
  ghost predicate Restartable(pod: Pod) {
    && (exists o :: o in pod.owners && o.controller)
    && pod.namespace != "kube-system"
    && !Within(pod.name, "csi-rclone")
    && forall o | o in pod.owners && o.kind == "DaemonSet" :: !Within(ToLower(o.name), "csi-rclone")
  }

  /** The controller of a pod is the first of its owners marked as one. */
  lemma {:induction false} ControllerIs(owners: seq<OwnerRef>)
    ensures ControllerOf(owners).None? ==> forall o | o in owners :: !o.controller
    ensures ControllerOf(owners).Some? ==>
              exists i :: 0 <= i < |owners| && owners[i] == ControllerOf(owners).value && owners[i].controller
                          && forall j | 0 <= j < i :: !owners[j].controller
    decreases |owners|
  {
    if owners != [] && !owners[0].controller {
      ControllerIs(owners[1..]);
      if ControllerOf(owners).Some? {
        var i :| 0 <= i < |owners| - 1 && owners[1..][i] == ControllerOf(owners[1..]).value && owners[1..][i].controller
                 && forall j | 0 <= j < i :: !owners[1..][j].controller;
        forall j | 0 <= j < i + 1 ensures !owners[j].controller {
          assert j > 0 ==> !owners[1..][j - 1].controller;
        }
        assert owners[i + 1] == ControllerOf(owners).value;
      }
    }
  }

  lemma SkipIff(pod: Pod)
    ensures ShouldSkipPod(pod) <==> !Restartable(pod)
  {
    ControllerIs(pod.owners);
    ContainsIff(pod.name, "csi-rclone");
    forall o | o in pod.owners
      ensures Contains(ToLower(o.name), "csi-rclone") <==> Within(ToLower(o.name), "csi-rclone")
    {
      ContainsIff(ToLower(o.name), "csi-rclone");
    }
  }

  /** The map from UIDs to listed pods: of two entries with one UID the later stays. */
  function PodByUid(pods: seq<Pod>, uid: string): Option<Pod>
    decreases |pods|
  {
    if pods == [] then None
    else if pods[|pods| - 1].uid == uid then Some(pods[|pods| - 1])
    else PodByUid(pods[..|pods| - 1], uid)
  }

  // ---------------------------------------------------------------- the limiter

  const SECOND := 1_000_000_000

  /** What an RFC 3339 time without a fraction keeps of an instant. */
  function WholeSecond(at: int): int {
    at / SECOND * SECOND
  }

  lemma WholeSecondBounds(a: int, b: int)
    requires a <= b
    ensures WholeSecond(a) <= WholeSecond(b) && WholeSecond(a) <= a < WholeSecond(a) + SECOND
  {
  }

  /** The recovery annotation of an owner. */
  datatype Note = Garbled | Stamp(at: int)

  predicate SupportedKind(kind: string) {
    kind == "ReplicaSet" || kind == "StatefulSet" || kind == "DaemonSet" || kind == "Job"
  }

  /** A restart that was carried out; `noted`: its annotation was written, `checked`: the previous one could be read. */
  datatype Restart = Restart(owner: Owner, at: int, process: nat, noted: bool, checked: bool)

  datatype Action =
    | ReadTable(path: string, table: Option<string>)   // the mount table, read on behalf of the path
    | Unmount(path: string, ok: bool)
    | Abort(id: string, path: string)
    | Kill(path: string)
    | DeletePod(uid: string, done: bool)

  /** `last` belongs to the running process; annotations outlive it; `log` and `trace` record what happened. */
  datatype World = World(
    last: map<string, int>, notes: map<Owner, Note>, process: nat, log: seq<Restart>, trace: seq<Action>)

  datatype Settings = Settings(cooldown: int, lazyUmount: bool, fuseAbort: bool, killProcess: bool)

  function Pruned(last: map<string, int>, cutoff: int): map<string, int> {
    map key | key in last && last[key] > cutoff :: last[key]
  }

  predicate MemoryLimits(last: map<string, int>, key: string, now: int, cooldown: int) {
    key in last && now - last[key] < cooldown
  }

  /** parseRecoveryAnnotation: an unreadable stamp counts as a recent one. */
  predicate NoteLimits(note: Note, now: int, cooldown: int) {
    match note
    case Garbled => true
    case Stamp(at) => now - at < cooldown
  }

  /** ownerAnnotationRateLimited; `readable`: the API returned the owner. */
  predicate OwnerLimits(notes: map<Owner, Note>, owner: Owner, now: int, cooldown: int, readable: bool) {
    SupportedKind(owner.kind) && readable && owner in notes && NoteLimits(notes[owner], now, cooldown)
  }

  // ---------------------------------------------------------------- one pod or one mount

  datatype Deletion = Deleted | AlreadyGone | DeleteFailed

  datatype StaleMount = StaleMount(podUid: string, volume: string, path: string, reason: string)

  /** What the outside answers while one pod or mount is considered. */
  datatype Answers = Answers(
    tableBefore: Option<string>,   // mountinfo read before the unmount
    unmounted: bool,
    tableAfter: Option<string>,    // mountinfo read after the unmount
    managed: bool,                 // the volume belongs to this driver
    ownerReadable: bool,
    corrupted: bool,               // the confirming probe
    deletion: Deletion,
    noteWritten: bool)

  datatype Item = Item(mount: StaleMount, answers: Answers)

  function WithRestart(w: World, cfg: Settings, pod: Pod, owner: Owner, now: int, a: Answers): World {
    if a.deletion.DeleteFailed? then w.(trace := w.trace + [DeletePod(pod.uid, false)])
    else
      var noted := SupportedKind(owner.kind) && a.noteWritten;
      w.(last := Pruned(w.last, now - cfg.cooldown)[KeyOf(owner) := now],
         notes := if noted then w.notes[owner := Stamp(WholeSecond(now))] else w.notes,
         log := w.log + [Restart(owner, now, w.process, noted, SupportedKind(owner.kind) && a.ownerReadable)],
         trace := w.trace + [DeletePod(pod.uid, true)])
  }

  function WithPrune(w: World, cfg: Settings, now: int): World {
    w.(last := Pruned(w.last, now - cfg.cooldown))
  }

  predicate Limited(w: World, cfg: Settings, owner: Owner, now: int, a: Answers) {
    MemoryLimits(w.last, KeyOf(owner), now, cfg.cooldown)
    || OwnerLimits(w.notes, owner, now, cfg.cooldown, a.ownerReadable)
  }

  const TIMED_OUT := "mount probe timed out after "

  /** The confirmation before a restart: a timed-out probe never confirms. */
  predicate Confirmed(m: StaleMount, a: Answers) {
    !HasPrefix(m.reason, TIMED_OUT) && a.corrupted
  }

  function TeardownTrace(cfg: Settings, m: StaleMount, a: Answers): seq<Action> {
    if !cfg.lazyUmount then []
    else if !a.unmounted then [ReadTable(m.path, a.tableBefore), Unmount(m.path, false)]
    else
      [ReadTable(m.path, a.tableBefore), Unmount(m.path, true)] + AbortTrace(cfg, m, a)
      + (if cfg.killProcess then [Kill(m.path)] else [])
  }

  function ConnectionId(m: StaleMount, a: Answers): Option<string> {
    if a.tableBefore.None? then None else FirstMinor(Split(a.tableBefore.value, '\n'), Clean(m.path))
  }

  predicate SharedIn(table: string, path: string, id: string) {
    exists line :: line in Split(table, '\n') && SharingLine(line, Clean(path), id)
  }

  function AbortTrace(cfg: Settings, m: StaleMount, a: Answers): seq<Action> {
    var id := ConnectionId(m, a);
    if !cfg.fuseAbort || id.None? || id.value == "" then []
    else
      [ReadTable(m.path, a.tableAfter)]
      + if a.tableAfter.Some? && !SharedIn(a.tableAfter.value, m.path, id.value) then [Abort(id.value, m.path)] else []
  }

  /** The pod part of one turn of either pass, once the pod is known to use the driver. */
  function ConsiderPod(w: World, cfg: Settings, pod: Pod, now: int, a: Answers, confirmed: bool): World
    requires OwnerOf(pod).Some?
  {
    var owner, pruned := OwnerOf(pod).value, WithPrune(w, cfg, now);
    if Limited(pruned, cfg, owner, now, a) || !confirmed then pruned
    else WithRestart(pruned, cfg, pod, owner, now, a)
  }

  /** One turn of ReconcileStaleMounts. */
  function ConsiderMount(w: World, cfg: Settings, pods: seq<Pod>, item: Item, now: int): World {
    match PodByUid(pods, item.mount.podUid)
    case None => w.(trace := w.trace + TeardownTrace(cfg, item.mount, item.answers))
    case Some(pod) =>
      if ShouldSkipPod(pod) || !item.answers.managed then w
      else ConsiderPod(w, cfg, pod, now, item.answers, Confirmed(item.mount, item.answers))
  }

  function StalePass(w: World, cfg: Settings, pods: seq<Pod>, items: seq<Item>, now: int): World
    decreases |items|
  {
    if items == [] then w else StalePass(ConsiderMount(w, cfg, pods, items[0], now), cfg, pods, items[1..], now)
  }

  /** One listed pod with the answers given while it is considered. */
  datatype Listed = Listed(pod: Pod, answers: Answers)

  /** One turn of ReconcileWorkloadPodsAfterCSIRestart. */
  function ConsiderListed(w: World, cfg: Settings, p: Listed, now: int): World {
    if ShouldSkipPod(p.pod) || !p.answers.managed then w else ConsiderPod(w, cfg, p.pod, now, p.answers, true)
  }

  function CsiPass(w: World, cfg: Settings, pods: seq<Listed>, now: int): World
    decreases |pods|
  {
    if pods == [] then w else CsiPass(ConsiderListed(w, cfg, pods[0], now), cfg, pods[1..], now)
  }

  // ---------------------------------------------------------------- runs

  datatype Op =
    | Stale(pods: seq<Pod>, items: seq<Item>, now: int)
    | Csi(listed: seq<Listed>, now: int)
    | NewProcess

  function Perform(w: World, cfg: Settings, op: Op): World {
    match op
    case Stale(pods, items, now) => StalePass(w, cfg, pods, items, now)
    case Csi(listed, now) => CsiPass(w, cfg, listed, now)
    case NewProcess => w.(last := map[], process := w.process + 1)
  }

  function PerformAll(w: World, cfg: Settings, ops: seq<Op>): World
    decreases |ops|
  {
    if ops == [] then w else PerformAll(Perform(w, cfg, ops[0]), cfg, ops[1..])
  }

  /** The clock never runs backwards. */
  predicate Ordered(ops: seq<Op>, clock: int)
    decreases |ops|
  {
    if ops == [] then true
    else if ops[0].NewProcess? then Ordered(ops[1..], clock)
    else clock <= ops[0].now && Ordered(ops[1..], ops[0].now)
  }

  /** The time of the last pass. */
  function EndClock(ops: seq<Op>, clock: int): int
    decreases |ops|
  {
    if ops == [] then clock else EndClock(ops[1..], if ops[0].NewProcess? then clock else ops[0].now)
  }

  // ---------------------------------------------------------------- the pruned map stands for the whole history

  ghost predicate HistoryLimits(w: World, key: string, now: int, cooldown: int) {
    exists r :: r in w.log && r.process == w.process && KeyOf(r.owner) == key && now - r.at < cooldown
  }

  ghost predicate FaithfulAt(w: World, key: string, now: int, cooldown: int) {
    MemoryLimits(w.last, key, now, cooldown) <==> HistoryLimits(w, key, now, cooldown)
  }

  ghost predicate Faithful(w: World, cooldown: int, clock: int) {
    forall key, now | clock <= now :: FaithfulAt(w, key, now, cooldown)
  }

  /**
   * Restarts of one workload keep their distance: exactly within a process, up to the truncated second across
   * processes.
   */
  predicate Apart(earlier: Restart, later: Restart, cooldown: int) {
    KeyOf(earlier.owner) == KeyOf(later.owner) ==>
      && (earlier.process == later.process ==> later.at - earlier.at >= cooldown)
      && (earlier.owner == later.owner && earlier.noted && later.checked ==> later.at - earlier.at > cooldown - SECOND)
  }

  ghost predicate Spaced(log: seq<Restart>, cooldown: int) {
    forall i, j | 0 <= i < j < |log| :: Apart(log[i], log[j], cooldown)
  }

  /** A written annotation is still there, or a later one is. */
  predicate Noted(notes: map<Owner, Note>, r: Restart) {
    r.noted ==> r.owner in notes && notes[r.owner].Stamp? && WholeSecond(r.at) <= notes[r.owner].at
  }

  ghost predicate Good(w: World, cooldown: int, clock: int) {
    && Faithful(w, cooldown, clock) && Spaced(w.log, cooldown)
    && (forall r | r in w.log :: r.at <= clock && r.process <= w.process && Noted(w.notes, r))
  }

  lemma GoodLater(w: World, cooldown: int, clock: int, later: int)
    requires Good(w, cooldown, clock) && clock <= later
    ensures Good(w, cooldown, later)
  {
  }

  lemma PruneGood(w: World, cfg: Settings, now: int)
    requires Good(w, cfg.cooldown, now)
    ensures Good(WithPrune(w, cfg, now), cfg.cooldown, now)
  {
    var t := WithPrune(w, cfg, now);
    forall key, at | now <= at ensures FaithfulAt(t, key, at, cfg.cooldown) {
      assert FaithfulAt(w, key, at, cfg.cooldown);
      assert HistoryLimits(w, key, at, cfg.cooldown) == HistoryLimits(t, key, at, cfg.cooldown);
    }
  }

  lemma RestartFaithful(w: World, cfg: Settings, pod: Pod, owner: Owner, now: int, a: Answers)
    requires Good(w, cfg.cooldown, now) && !a.deletion.DeleteFailed?
    ensures Faithful(WithRestart(w, cfg, pod, owner, now, a), cfg.cooldown, now)
  {
    var p, t, c := WithPrune(w, cfg, now), WithRestart(w, cfg, pod, owner, now, a), cfg.cooldown;
    PruneGood(w, cfg, now);
    var r := t.log[|w.log|];
    assert t.log == w.log + [r];
    forall key, at | now <= at ensures FaithfulAt(t, key, at, c) {
      assert FaithfulAt(p, key, at, c);
      if key == KeyOf(owner) {
        assert r in t.log;
        assert HistoryLimits(t, key, at, c) <==> at - now < c;
      } else {
        assert HistoryLimits(t, key, at, c) <==> HistoryLimits(p, key, at, c);
      }
    }
  }

  lemma RestartSpaced(w: World, cfg: Settings, pod: Pod, owner: Owner, now: int, a: Answers)
    requires Good(w, cfg.cooldown, now) && !a.deletion.DeleteFailed? && !Limited(w, cfg, owner, now, a)
    ensures Spaced(WithRestart(w, cfg, pod, owner, now, a).log, cfg.cooldown)
  {
    var t := WithRestart(w, cfg, pod, owner, now, a);
    var r := t.log[|w.log|];
    forall i, j | 0 <= i < j < |t.log| ensures Apart(t.log[i], t.log[j], cfg.cooldown) {
      if j < |w.log| {
        assert Apart(w.log[i], w.log[j], cfg.cooldown);
      } else {
        NewRestartApart(w, cfg, owner, now, a, w.log[i], r);
      }
    }
  }

  lemma NewRestartApart(
    w: World, cfg: Settings, owner: Owner, now: int, a: Answers, earlier: Restart, r: Restart)
    requires Good(w, cfg.cooldown, now) && !Limited(w, cfg, owner, now, a) && earlier in w.log
    requires r.owner == owner && r.at == now && r.process == w.process
    requires r.checked ==> SupportedKind(owner.kind) && a.ownerReadable
    ensures Apart(earlier, r, cfg.cooldown)
  {
    assert FaithfulAt(w, KeyOf(owner), now, cfg.cooldown);
    WholeSecondBounds(earlier.at, earlier.at);
    assert Noted(w.notes, earlier);
  }

  lemma RestartNoted(w: World, cfg: Settings, pod: Pod, owner: Owner, now: int, a: Answers)
    requires Good(w, cfg.cooldown, now) && !a.deletion.DeleteFailed?
    ensures var t := WithRestart(w, cfg, pod, owner, now, a);
            forall r | r in t.log :: r.at <= now && r.process <= t.process && Noted(t.notes, r)
  {
    var t := WithRestart(w, cfg, pod, owner, now, a);
    forall r | r in t.log ensures r.at <= now && r.process <= t.process && Noted(t.notes, r) {
      if r in w.log {
        assert Noted(w.notes, r);
        WholeSecondBounds(r.at, now);
      }
    }
  }

  lemma ConsiderPodGood(w: World, cfg: Settings, pod: Pod, now: int, a: Answers, confirmed: bool)
    requires Good(w, cfg.cooldown, now) && OwnerOf(pod).Some?
    ensures Good(ConsiderPod(w, cfg, pod, now, a, confirmed), cfg.cooldown, now)
  {
    var owner, p := OwnerOf(pod).value, WithPrune(w, cfg, now);
    PruneGood(w, cfg, now);
    if !Limited(p, cfg, owner, now, a) && confirmed {
      var t := WithRestart(p, cfg, pod, owner, now, a);
      if a.deletion.DeleteFailed? {
        SameLimiterGood(p, t, cfg.cooldown, now);
      } else {
        RestartFaithful(p, cfg, pod, owner, now, a);
        RestartSpaced(p, cfg, pod, owner, now, a);
        RestartNoted(p, cfg, pod, owner, now, a);
      }
    }
  }

  lemma SameLimiterGood(w: World, t: World, cooldown: int, clock: int)
    requires Good(w, cooldown, clock) && t.last == w.last && t.notes == w.notes && t.log == w.log
        && t.process == w.process
    ensures Good(t, cooldown, clock)
  {
    forall key, at | clock <= at ensures FaithfulAt(t, key, at, cooldown) {
      assert FaithfulAt(w, key, at, cooldown);
    }
  }

  lemma ConsiderMountGood(w: World, cfg: Settings, pods: seq<Pod>, item: Item, now: int)
    requires Good(w, cfg.cooldown, now)
    ensures Good(ConsiderMount(w, cfg, pods, item, now), cfg.cooldown, now)
  {
    match PodByUid(pods, item.mount.podUid) {
      case None => SameLimiterGood(w, ConsiderMount(w, cfg, pods, item, now), cfg.cooldown, now);
      case Some(pod) =>
        if !ShouldSkipPod(pod) && item.answers.managed {
          ConsiderPodGood(w, cfg, pod, now, item.answers, Confirmed(item.mount, item.answers));
        }
    }
  }

  lemma {:induction false} StalePassGood(w: World, cfg: Settings, pods: seq<Pod>, items: seq<Item>, now: int)
    requires Good(w, cfg.cooldown, now)
    ensures Good(StalePass(w, cfg, pods, items, now), cfg.cooldown, now)
    decreases |items|
  {
    if items != [] {
      ConsiderMountGood(w, cfg, pods, items[0], now);
      StalePassGood(ConsiderMount(w, cfg, pods, items[0], now), cfg, pods, items[1..], now);
    }
  }

  lemma ConsiderListedGood(w: World, cfg: Settings, p: Listed, now: int)
    requires Good(w, cfg.cooldown, now)
    ensures Good(ConsiderListed(w, cfg, p, now), cfg.cooldown, now)
  {
    if !ShouldSkipPod(p.pod) && p.answers.managed {
      ConsiderPodGood(w, cfg, p.pod, now, p.answers, true);
    }
  }

  lemma {:induction false} CsiPassGood(w: World, cfg: Settings, pods: seq<Listed>, now: int)
    requires Good(w, cfg.cooldown, now)
    ensures Good(CsiPass(w, cfg, pods, now), cfg.cooldown, now)
    decreases |pods|
  {
    if pods != [] {
      ConsiderListedGood(w, cfg, pods[0], now);
      CsiPassGood(ConsiderListed(w, cfg, pods[0], now), cfg, pods[1..], now);
    }
  }

  lemma NewProcessGood(w: World, cfg: Settings, clock: int)
    requires Good(w, cfg.cooldown, clock)
    ensures Good(Perform(w, cfg, NewProcess), cfg.cooldown, clock)
  {
    var t := Perform(w, cfg, NewProcess);
    forall key, at | clock <= at ensures FaithfulAt(t, key, at, cfg.cooldown) {
      assert !HistoryLimits(t, key, at, cfg.cooldown);
    }
  }

  lemma PassGood(w: World, cfg: Settings, op: Op, clock: int)
    requires Good(w, cfg.cooldown, clock) && (op.NewProcess? || clock <= op.now)
    ensures Good(Perform(w, cfg, op), cfg.cooldown, if op.NewProcess? then clock else op.now)
    ensures op.NewProcess? || Good(w, cfg.cooldown, op.now)
  {
    match op {
      case Stale(pods, items, now) =>
        GoodLater(w, cfg.cooldown, clock, now);
        StalePassGood(w, cfg, pods, items, now);
      case Csi(listed, now) =>
        GoodLater(w, cfg.cooldown, clock, now);
        CsiPassGood(w, cfg, listed, now);
      case NewProcess => NewProcessGood(w, cfg, clock);
    }
  }

  lemma {:induction false} PerformAllGood(w: World, cfg: Settings, ops: seq<Op>, clock: int)
    requires Good(w, cfg.cooldown, clock) && Ordered(ops, clock)
    ensures Good(PerformAll(w, cfg, ops), cfg.cooldown, EndClock(ops, clock))
    decreases |ops|
  {
    if ops != [] {
      PassGood(w, cfg, ops[0], clock);
      PerformAllGood(Perform(w, cfg, ops[0]), cfg, ops[1..], if ops[0].NewProcess? then clock else ops[0].now);
    }
  }

  /** Nothing restarted yet; annotations of any age may be there. */
  predicate Fresh(w: World) {
    w.last == map[] && w.log == []
  }

  lemma FreshGood(w: World, cooldown: int, clock: int)
    requires Fresh(w)
    ensures Good(w, cooldown, clock)
  {
    forall key, at | clock <= at ensures FaithfulAt(w, key, at, cooldown) {
      assert !HistoryLimits(w, key, at, cooldown);
    }
  }

  /**
   * Over any sequence of passes and operator restarts, two restarts of one workload by one process are at least the
   * cooldown apart, also within one pass; across processes the gap is above the cooldown less one second whenever the
   * first was noted on its owner and the second could read the note.
   */
  lemma CooldownHolds(w: World, cfg: Settings, ops: seq<Op>, clock: int, i: nat, j: nat)
    requires Fresh(w) && Ordered(ops, clock) && i < j < |PerformAll(w, cfg, ops).log|
    ensures var log := PerformAll(w, cfg, ops).log; Apart(log[i], log[j], cfg.cooldown)
  {
    FreshGood(w, cfg.cooldown, clock);
    PerformAllGood(w, cfg, ops, clock);
  }

  /**
   * From the last pass of any such run on, the pruned map answers every query as the full history of the process
   * does.
   */
  lemma MemoryStandsForHistory(w: World, cfg: Settings, ops: seq<Op>, clock: int, key: string, now: int)
    requires Fresh(w) && Ordered(ops, clock) && EndClock(ops, clock) <= now
    ensures var t := PerformAll(w, cfg, ops);
            MemoryLimits(t.last, key, now, cfg.cooldown)
            <==> exists r :: r in t.log && r.process == t.process && KeyOf(r.owner) == key && now - r.at < cfg.cooldown
  {
    FreshGood(w, cfg.cooldown, clock);
    PerformAllGood(w, cfg, ops, clock);
    assert FaithfulAt(PerformAll(w, cfg, ops), key, now, cfg.cooldown);
  }

  /**
   * The lost second is real: after an operator restart, a gap `short` of the cooldown by less than a second is let
   * through.
   */
  lemma TruncationIsVisible(cfg: Settings, pod: Pod, a: Answers, short: int)
    requires 0 < short < SECOND <= cfg.cooldown && !ShouldSkipPod(pod) && OwnerOf(pod).Some?
    requires SupportedKind(OwnerOf(pod).value.kind)
    requires a.managed && a.ownerReadable && a.deletion.Deleted? && a.noteWritten
    ensures var ops := [Csi([Listed(pod, a)], short), NewProcess, Csi([Listed(pod, a)], cfg.cooldown)];
            var log := PerformAll(World(map[], map[], 0, [], []), cfg, ops).log;
            Ordered(ops, 0) && |log| == 2 && log[1].at - log[0].at == cfg.cooldown - short
            && log[0].owner == log[1].owner && log[0].noted && log[1].checked
  {
    var p, owner := Listed(pod, a), OwnerOf(pod).value;
    var ops := [Csi([p], short), NewProcess, Csi([p], cfg.cooldown)];
    var w0 := World(map[], map[], 0, [], []);
    var w1 := ConsiderPod(w0, cfg, pod, short, a, true);
    assert CsiPass(w0, cfg, [p], short) == w1 by { assert [p][1..] == []; }
    assert WholeSecond(short) == 0;
    assert w1.log == [Restart(owner, short, 0, true, true)] && w1.notes == map[owner := Stamp(0)];
    var w2 := Perform(w1, cfg, NewProcess);
    var w3 := ConsiderPod(w2, cfg, pod, cfg.cooldown, a, true);
    assert CsiPass(w2, cfg, [p], cfg.cooldown) == w3 by { assert [p][1..] == []; }
    assert w3.log == w1.log + [Restart(owner, cfg.cooldown, 1, true, true)];
    assert ops[1..] == [NewProcess, Csi([p], cfg.cooldown)] && ops[1..][1..] == [Csi([p], cfg.cooldown)];
    assert ops[1..][1..][1..] == [];
    assert PerformAll(w2, cfg, ops[1..][1..]) == w3;
    assert PerformAll(w1, cfg, ops[1..]) == w3;
    assert Ordered(ops[1..][1..], short);
    assert Ordered(ops[1..], short);
  }

  // ---------------------------------------------------------------- what a stale pass may do to the node

  /**
   * The last three actions on behalf of the path: a table in which the connection belongs to it was read,
   * then the path was unmounted, then a table was read in which no other mount shares the connection.
   */
  predicate AbortPreceded(done: seq<Action>, k: nat, path: string, id: string)
    requires k < |done|
  {
    && k >= 3
    && done[k - 3].ReadTable? && done[k - 3].path == path && done[k - 3].table.Some?
    && FirstMinor(Split(done[k - 3].table.value, '\n'), Clean(path)) == Some(id)
    && done[k - 2] == Unmount(path, true)
    && done[k - 1].ReadTable? && done[k - 1].path == path && done[k - 1].table.Some?
    && !SharedIn(done[k - 1].table.value, path, id)
  }

  /** The k-th action of a pass is warranted by the item. */
  ghost predicate WarrantedBy(done: seq<Action>, k: nat, item: Item, pods: seq<Pod>, cfg: Settings)
    requires k < |done|
  {
    var m, a := item.mount, item.answers;
    match done[k]
    case ReadTable(path, _) => path == m.path && PodByUid(pods, m.podUid).None? && cfg.lazyUmount
    case Unmount(path, _) => path == m.path && PodByUid(pods, m.podUid).None? && cfg.lazyUmount
    case Abort(id, path) =>
      && path == m.path && PodByUid(pods, m.podUid).None? && cfg.lazyUmount && cfg.fuseAbort
      && AbortPreceded(done, k, path, id)
    case Kill(path) =>
      && path == m.path && PodByUid(pods, m.podUid).None? && cfg.lazyUmount && cfg.killProcess
      && Unmount(path, true) in done[..k]
    case DeletePod(uid, _) =>
      && uid == m.podUid && PodByUid(pods, uid).Some? && Restartable(PodByUid(pods, uid).value)
      && a.managed && a.corrupted && !HasPrefix(m.reason, "mount probe timed out after ")
  }

  ghost predicate SomeWarrants(done: seq<Action>, k: nat, items: seq<Item>, pods: seq<Pod>, cfg: Settings)
    requires k < |done|
  {
    exists item :: item in items && WarrantedBy(done, k, item, pods, cfg)
  }

  ghost predicate Warranted(done: seq<Action>, items: seq<Item>, pods: seq<Pod>, cfg: Settings) {
    forall k | 0 <= k < |done| :: SomeWarrants(done, k, items, pods, cfg)
  }

  /** The pod is the last listed one with that UID. */
  ghost predicate LastWithUid(pods: seq<Pod>, pod: Pod, i: nat) {
    i < |pods| && pods[i] == pod && forall j | i < j < |pods| :: pods[j].uid != pod.uid
  }

  lemma {:induction false} PodByUidFinds(pods: seq<Pod>, uid: string)
    ensures match PodByUid(pods, uid)
            case Some(pod) => pod.uid == uid && exists i: nat :: LastWithUid(pods, pod, i)
            case None => forall pod | pod in pods :: pod.uid != uid
    decreases |pods|
  {
    if pods != [] {
      var front, last := pods[..|pods| - 1], pods[|pods| - 1];
      PodByUidFinds(front, uid);
      if last.uid == uid {
        assert LastWithUid(pods, last, |pods| - 1);
      } else if PodByUid(front, uid).Some? {
        var i: nat :| LastWithUid(front, PodByUid(front, uid).value, i);
        StillLast(pods, PodByUid(front, uid).value, i);
      }
    }
  }

  lemma StillLast(pods: seq<Pod>, pod: Pod, i: nat)
    requires pods != [] && LastWithUid(pods[..|pods| - 1], pod, i) && pods[|pods| - 1].uid != pod.uid
    ensures LastWithUid(pods, pod, i)
  {
    forall j | i < j < |pods| ensures pods[j].uid != pod.uid {
      assert j < |pods| - 1 ==> pods[..|pods| - 1][j] == pods[j];
    }
  }

  /** What one turn adds to the trace. */
  function TurnTrace(w: World, cfg: Settings, pods: seq<Pod>, item: Item, now: int): seq<Action>
    ensures ConsiderMount(w, cfg, pods, item, now).trace == w.trace + TurnTrace(w, cfg, pods, item, now)
  {
    match PodByUid(pods, item.mount.podUid)
    case None => TeardownTrace(cfg, item.mount, item.answers)
    case Some(pod) =>
      if !ShouldSkipPod(pod) && item.answers.managed && Confirmed(item.mount, item.answers)
         && !Limited(WithPrune(w, cfg, now), cfg, OwnerOf(pod).value, now, item.answers)
      then [DeletePod(pod.uid, !item.answers.deletion.DeleteFailed?)]
      else []
  }

  lemma TurnWarranted(w: World, cfg: Settings, pods: seq<Pod>, item: Item, now: int)
    ensures var done := TurnTrace(w, cfg, pods, item, now);
            forall k | 0 <= k < |done| :: WarrantedBy(done, k, item, pods, cfg)
  {
    PodByUidFinds(pods, item.mount.podUid);
    if PodByUid(pods, item.mount.podUid).Some? {
      SkipIff(PodByUid(pods, item.mount.podUid).value);
    } else {
      TeardownWarranted(cfg, pods, item);
    }
  }

  lemma TeardownWarranted(cfg: Settings, pods: seq<Pod>, item: Item)
    requires PodByUid(pods, item.mount.podUid).None?
    ensures var done := TeardownTrace(cfg, item.mount, item.answers);
            forall k | 0 <= k < |done| :: WarrantedBy(done, k, item, pods, cfg)
  {
    var done := TeardownTrace(cfg, item.mount, item.answers);
    forall k | 0 <= k < |done| ensures WarrantedBy(done, k, item, pods, cfg) {
      TeardownAt(cfg, item.mount, item.answers, k);
      if done[k].Abort? {
        AbortLast(cfg, item.mount, item.answers, k);
      }
    }
  }

  lemma TeardownAt(cfg: Settings, m: StaleMount, a: Answers, k: nat)
    requires k < |TeardownTrace(cfg, m, a)|
    ensures cfg.lazyUmount && !TeardownTrace(cfg, m, a)[k].DeletePod? && TeardownTrace(cfg, m, a)[k].path == m.path
    ensures TeardownTrace(cfg, m, a)[k].Kill? ==>
              cfg.killProcess && Unmount(m.path, true) in TeardownTrace(cfg, m, a)[..k]
  {
    var done := TeardownTrace(cfg, m, a);
    if done[k].Kill? {
      assert done[..k][1] == Unmount(m.path, true);
    }
  }

  lemma AbortLast(cfg: Settings, m: StaleMount, a: Answers, k: nat)
    requires k < |TeardownTrace(cfg, m, a)| && TeardownTrace(cfg, m, a)[k].Abort?
    ensures cfg.lazyUmount && cfg.fuseAbort && TeardownTrace(cfg, m, a)[k].path == m.path
    ensures AbortPreceded(TeardownTrace(cfg, m, a), k, m.path, TeardownTrace(cfg, m, a)[k].id)
  {
    assert k == 3;
  }

  lemma WarrantedLater(
    first: seq<Action>, rest: seq<Action>, k: nat, item: Item, pods: seq<Pod>, cfg: Settings)
    requires k < |rest| && WarrantedBy(rest, k, item, pods, cfg)
    ensures WarrantedBy(first + rest, |first| + k, item, pods, cfg)
  {
    var done := first + rest;
    assert done[|first| + k] == rest[k];
    assert done[..|first| + k] == first + rest[..k];
    assert forall i | 0 <= i < |rest| :: done[|first| + i] == rest[i];
    assert k >= 3 ==> done[|first| + k - 3] == rest[k - 3] && done[|first| + k - 2] == rest[k - 2];
    assert k >= 3 ==> done[|first| + k - 1] == rest[k - 1];
  }

  lemma WarrantedEarlier(
    first: seq<Action>, rest: seq<Action>, k: nat, item: Item, pods: seq<Pod>, cfg: Settings)
    requires k < |first| && WarrantedBy(first, k, item, pods, cfg)
    ensures WarrantedBy(first + rest, k, item, pods, cfg)
  {
    var done := first + rest;
    assert done[k] == first[k] && done[..k] == first[..k];
    assert k >= 3 ==> done[k - 3] == first[k - 3] && done[k - 2] == first[k - 2] && done[k - 1] == first[k - 1];
  }

  lemma WarrantedAppend(
    first: seq<Action>, rest: seq<Action>, item: Item, items: seq<Item>, pods: seq<Pod>, cfg: Settings)
    requires forall k | 0 <= k < |first| :: WarrantedBy(first, k, item, pods, cfg)
    requires Warranted(rest, items, pods, cfg)
    ensures Warranted(first + rest, [item] + items, pods, cfg)
  {
    var done := first + rest;
    forall k | 0 <= k < |done| ensures SomeWarrants(done, k, [item] + items, pods, cfg) {
      if k < |first| {
        WarrantedEarlier(first, rest, k, item, pods, cfg);
        Warrants(done, k, item, [item] + items, pods, cfg);
      } else {
        RestWarranted(first, rest, k - |first|, item, items, pods, cfg);
      }
    }
  }

  lemma Warrants(done: seq<Action>, k: nat, item: Item, items: seq<Item>, pods: seq<Pod>, cfg: Settings)
    requires k < |done| && item in items && WarrantedBy(done, k, item, pods, cfg)
    ensures SomeWarrants(done, k, items, pods, cfg)
  {
  }

  lemma RestWarranted(
    first: seq<Action>, rest: seq<Action>, k: nat, item: Item, items: seq<Item>, pods: seq<Pod>, cfg: Settings)
    requires k < |rest| && SomeWarrants(rest, k, items, pods, cfg)
    ensures SomeWarrants(first + rest, |first| + k, [item] + items, pods, cfg)
  {
    var i :| i in items && WarrantedBy(rest, k, i, pods, cfg);
    WarrantedLater(first, rest, k, i, pods, cfg);
    Warrants(first + rest, |first| + k, i, [item] + items, pods, cfg);
  }

  /**
   * Every action of a stale pass is warranted: mounts are touched only where the pod is gone, aborting and killing
   * only after that path was unmounted, aborting only an unshared connection resolved beforehand, and a pod is deleted
   * only for a confirmed mount of its own.
   */
  lemma {:induction false} StalePassWarranted(w: World, cfg: Settings, pods: seq<Pod>, items: seq<Item>, now: int)
    returns (done: seq<Action>)
    ensures StalePass(w, cfg, pods, items, now).trace == w.trace + done && Warranted(done, items, pods, cfg)
    decreases |items|
  {
    if items == [] {
      done := [];
    } else {
      var next := ConsiderMount(w, cfg, pods, items[0], now);
      var rest := StalePassWarranted(next, cfg, pods, items[1..], now);
      var first := TurnTrace(w, cfg, pods, items[0], now);
      done := first + rest;
      TurnWarranted(w, cfg, pods, items[0], now);
      WarrantedAppend(first, rest, items[0], items[1..], pods, cfg);
      assert items == [items[0]] + items[1..];
      assert w.trace + first + rest == w.trace + done;
    }
  }

  /**
   * On tables as the kernel prints them, an aborted connection served this path when the table was read before the
   * unmount, and served no other mount point when it was read after.
   */
  lemma AbortedServesNobody(
    done: seq<Action>, k: nat, path: string, id: string, before: seq<Row>, after: seq<Row>)
    requires k < |done| && AbortPreceded(done, k, path, id) && GoodRows(before) && GoodRows(after)
    requires done[k - 3].table == Some(PrintTable(before)) && done[k - 1].table == Some(PrintTable(after))
    ensures exists r :: r in before && FuseRow(r) && r.minor == id && Clean(r.point) == Clean(path)
    ensures forall r | r in after && FuseRow(r) && r.minor == id :: Clean(r.point) == Clean(path)
  {
    LookupPrinted(before, path);
    FirstFuseRow(before, path);
    SharedPrinted(after, path, id);
    forall r | r in after && FuseRow(r) && r.minor == id ensures Clean(r.point) == Clean(path) {
      assert !Shares(r, path, id);
    }
  }

  lemma {:induction false} FirstFuseRow(rows: seq<Row>, path: string)
    ensures var id := FirstFuseMinor(rows, path);
            if id.Some?
            then exists r :: r in rows && FuseRow(r) && r.minor == id.value && Clean(r.point) == Clean(path)
            else forall r | r in rows && FuseRow(r) :: Clean(r.point) != Clean(path)
    decreases |rows|
  {
    if rows != [] {
      FirstFuseRow(rows[1..], path);
      assert rows[0] in rows;
    }
  }
}
