/** The operator's Reconciler: its methods do to the cluster and the node exactly what Recovery says. */
module Reconciler {
  import opened Text
  import opened Mountinfo
  import opened Recovery

  /** The outside a reconciler acts on: owner annotations and the record of what was done. */
  class Cluster {
    var notes: map<Owner, Note>
    var log: seq<Restart>
    var trace: seq<Action>

    constructor (notes: map<Owner, Note>)
      ensures this.notes == notes && log == [] && trace == []
    {
      this.notes, log, trace := notes, [], [];
    }
  }

  class Reconciler {
    const settings: Settings
    const cluster: Cluster
    const process: nat
    var lastRecovery: map<string, int>

    /** A new operator process starts with an empty memory. */
    constructor (settings: Settings, cluster: Cluster, process: nat)
      ensures this.settings == settings && this.cluster == cluster && this.process == process
      ensures View() == World(map[], cluster.notes, process, cluster.log, cluster.trace)
    {
      this.settings, this.cluster, this.process := settings, cluster, process;
      lastRecovery := map[];
    }

    ghost function View(): World
      reads this, cluster
    {
      World(lastRecovery, cluster.notes, process, cluster.log, cluster.trace)
    }

    /** pruneExpiredRecoveriesLocked */
    method PruneExpiredRecoveries(now: int)
      modifies this`lastRecovery
      ensures View() == WithPrune(old(View()), settings, now)
    {
      var cutoff := now - settings.cooldown;
      var keys := lastRecovery.Keys;
      while keys != {}
        invariant keys <= lastRecovery.Keys <= old(lastRecovery).Keys
        invariant forall k | k in lastRecovery :: lastRecovery[k] == old(lastRecovery)[k]
        invariant forall k | k in lastRecovery && k !in keys :: lastRecovery[k] > cutoff
        invariant forall k | k in old(lastRecovery) && k !in lastRecovery :: old(lastRecovery)[k] <= cutoff
        decreases |keys|
      {
        var key :| key in keys;
        keys := keys - {key};
        if !(lastRecovery[key] > cutoff) {
          lastRecovery := lastRecovery - {key};
        }
      }
      assert lastRecovery == Pruned(old(lastRecovery), cutoff);
    }

    /** isRateLimited */
    method IsRateLimited(pod: Pod, now: int, a: Answers) returns (limited: bool)
      requires OwnerOf(pod).Some?
      modifies this`lastRecovery
      ensures View() == WithPrune(old(View()), settings, now)
      ensures limited <==> Limited(View(), settings, OwnerOf(pod).value, now, a)
    {
      PruneExpiredRecoveries(now);
      var key := RecoveryKey(pod);
      if key in lastRecovery && now - lastRecovery[key] < settings.cooldown {
        return true;
      }
      limited := OwnerLimits(cluster.notes, OwnerOf(pod).value, now, settings.cooldown, a.ownerReadable);
    }

    /** annotateOwner */
    method AnnotateOwner(owner: Owner, now: int, written: bool) returns (noted: bool)
      modifies cluster`notes
      ensures noted <==> SupportedKind(owner.kind) && written
      ensures cluster.notes
          == if noted then old(cluster.notes)[owner := Stamp(WholeSecond(now))] else old(cluster.notes)
    {
      noted := false;
      if SupportedKind(owner.kind) && written {
        cluster.notes := cluster.notes[owner := Stamp(WholeSecond(now))];
        noted := true;
      }
    }

    /** restartPod */
    method RestartPod(pod: Pod, now: int, a: Answers)
      requires OwnerOf(pod).Some?
      modifies this`lastRecovery, cluster
      ensures View() == WithRestart(old(View()), settings, pod, OwnerOf(pod).value, now, a)
    {
      cluster.trace := cluster.trace + [DeletePod(pod.uid, !a.deletion.DeleteFailed?)];
      if a.deletion.DeleteFailed? {
        return;
      }
      PruneExpiredRecoveries(now);
      lastRecovery := lastRecovery[RecoveryKey(pod) := now];
      var owner := OwnerOf(pod).value;
      var noted := AnnotateOwner(owner, now, a.noteWritten);
      cluster.log := cluster.log + [Restart(owner, now, process, noted, SupportedKind(owner.kind) && a.ownerReadable)];
    }

    /** The mount table is read; both lookups go through here. */
    method ReadMountTable(path: string, table: Option<string>) returns (content: Option<string>)
      modifies cluster`trace
      ensures cluster.trace == old(cluster.trace) + [ReadTable(path, table)] && content == table
    {
      cluster.trace := cluster.trace + [ReadTable(path, table)];
      content := table;
    }

    /** resolveFuseConnID; the empty string stands for a failed lookup. */
    method ResolveConnection(m: StaleMount, a: Answers) returns (connId: string)
      modifies cluster`trace
      ensures cluster.trace == old(cluster.trace) + [ReadTable(m.path, a.tableBefore)]
      ensures connId == if ConnectionId(m, a).Some? then ConnectionId(m, a).value else ""
    {
      connId := "";
      var content := ReadMountTable(m.path, a.tableBefore);
      if content.Some? {
        var id := ParseFuseConnIDFromMountinfo(content.value, m.path);
        if id.Some? { connId := id.value; }
      }
    }

    /** The abort part of the teardown: skipped when the sharing check fails or finds another mount. */
    method AbortUnshared(m: StaleMount, a: Answers, connId: string)
      requires connId == if ConnectionId(m, a).Some? then ConnectionId(m, a).value else ""
      modifies cluster`trace
      ensures cluster.trace == old(cluster.trace) + AbortTrace(settings, m, a)
    {
      if !settings.fuseAbort || connId == "" { return; }
      var content := ReadMountTable(m.path, a.tableAfter);
      if content.None? { return; }
      var shared := FuseConnSharedInMountinfo(content.value, m.path, connId);
      assert shared <==> SharedIn(content.value, m.path, connId);
      if !shared {
        cluster.trace := cluster.trace + [Abort(connId, m.path)];
      }
    }

    /** maybeLazyUmountOrphan */
    method MaybeLazyUmountOrphan(m: StaleMount, a: Answers)
      modifies cluster`trace
      ensures cluster.trace == old(cluster.trace) + TeardownTrace(settings, m, a)
    {
      if !settings.lazyUmount { return; }
      ghost var before, aborts := cluster.trace, AbortTrace(settings, m, a);
      var connId := ResolveConnection(m, a);
      cluster.trace := cluster.trace + [Unmount(m.path, a.unmounted)];
      ghost var first := [ReadTable(m.path, a.tableBefore), Unmount(m.path, a.unmounted)];
      assert cluster.trace == before + first;
      if !a.unmounted { return; }
      AbortUnshared(m, a, connId);
      assert cluster.trace == before + (first + aborts);
      if settings.killProcess {
        cluster.trace := cluster.trace + [Kill(m.path)];
        assert cluster.trace == before + (first + aborts + [Kill(m.path)]);
      }
    }

    /** The map from UIDs to pods that a stale pass builds. */
    method IndexPods(pods: seq<Pod>) returns (byUid: map<string, Pod>)
      ensures forall uid :: (uid in byUid <==> PodByUid(pods, uid).Some?)
      ensures forall uid | uid in byUid :: PodByUid(pods, uid) == Some(byUid[uid])
    {
      byUid := map[];
      var n := 0;
      while n < |pods|
        invariant 0 <= n <= |pods|
        invariant forall uid :: (uid in byUid <==> PodByUid(pods[..n], uid).Some?)
        invariant forall uid | uid in byUid :: PodByUid(pods[..n], uid) == Some(byUid[uid])
      {
        assert pods[..n + 1][..n] == pods[..n];
        byUid := byUid[pods[n].uid := pods[n]];
        n := n + 1;
      }
      assert pods[..n] == pods;
    }

    /** ReconcileStaleMounts, once the pods of the node have been listed. */
    method ReconcileStaleMounts(pods: seq<Pod>, items: seq<Item>, now: int)
      modifies this`lastRecovery, cluster
      ensures View() == StalePass(old(View()), settings, pods, items, now)
    {
      var byUid := IndexPods(pods);
      var n := 0;
      while n < |items|
        invariant 0 <= n <= |items|
        invariant StalePass(View(), settings, pods, items[n..], now)
                  == StalePass(old(View()), settings, pods, items, now)
      {
        var m, a := items[n].mount, items[n].answers;
        ghost var next := ConsiderMount(View(), settings, pods, items[n], now);
        assert items[n..][1..] == items[n + 1..];
        n := n + 1;
        if m.podUid !in byUid {
          MaybeLazyUmountOrphan(m, a);
          assert View() == next;
          continue;
        }
        var pod := byUid[m.podUid];
        if ShouldSkipPod(pod) || !a.managed { continue; }
        var limited := IsRateLimited(pod, now, a);
        if limited { continue; }
        var corrupted := false;
        if !HasPrefix(m.reason, TIMED_OUT) {
          corrupted := a.corrupted;
        }
        if !corrupted { continue; }
        RestartPod(pod, now, a);
        assert View() == next;
      }
    }

    /** ReconcileWorkloadPodsAfterCSIRestart, once the pods of the node have been listed. */
    method ReconcileWorkloadPodsAfterCsiRestart(listed: seq<Listed>, now: int)
      modifies this`lastRecovery, cluster
      ensures View() == CsiPass(old(View()), settings, listed, now)
    {
      var n := 0;
      while n < |listed|
        invariant 0 <= n <= |listed|
        invariant CsiPass(View(), settings, listed[n..], now) == CsiPass(old(View()), settings, listed, now)
      {
        var p := listed[n];
        assert listed[n..][1..] == listed[n + 1..];
        n := n + 1;
        if ShouldSkipPod(p.pod) || !p.answers.managed { continue; }
        var limited := IsRateLimited(p.pod, now, p.answers);
        if limited { continue; }
        RestartPod(p.pod, now, p.answers);
      }
    }
  }

  /**
   * A chain of operator processes over one cluster carries out any sequence of passes, so all of Recovery applies
   * to it.
   */
  method RunOperator(settings: Settings, notes: map<Owner, Note>, ops: seq<Op>, clock: int) returns (cluster: Cluster)
    requires Ordered(ops, clock)
    ensures fresh(cluster)
    ensures var w := PerformAll(World(map[], notes, 0, [], []), settings, ops);
            cluster.log == w.log && cluster.trace == w.trace && cluster.notes == w.notes
    ensures Spaced(cluster.log, settings.cooldown)
  {
    cluster := new Cluster(notes);
    var r := new Reconciler(settings, cluster, 0);
    ghost var start := World(map[], notes, 0, [], []);
    var n := 0;
    while n < |ops|
      invariant 0 <= n <= |ops|
      invariant fresh(cluster) && fresh(r) && r.settings == settings && r.cluster == cluster
      invariant PerformAll(r.View(), settings, ops[n..]) == PerformAll(start, settings, ops)
    {
      assert ops[n..][1..] == ops[n + 1..];
      match ops[n] {
        case Stale(pods, items, now) => r.ReconcileStaleMounts(pods, items, now);
        case Csi(listed, now) => r.ReconcileWorkloadPodsAfterCsiRestart(listed, now);
        case NewProcess => r := new Reconciler(settings, cluster, r.process + 1);
      }
      n := n + 1;
    }
    FreshGood(start, settings.cooldown, clock);
    PerformAllGood(start, settings, ops, clock);
  }
}
