/** Staging mode over whole runs of requests: the cache stays coherent, and a cached volume does not move. */
module StagingRuns {
  import opened Text
  import opened Staging
  import opened StagingEffects

  /** A request with the default staging path of its volume and the context of the mount it may create. */
  datatype Turn = Turn(request: Request, defaultPath: string, mc: MountContext?)

  ghost function After(w: View, t: Turn): View {
    Handle(w, t.request, t.defaultPath, t.mc).view
  }

  /**
   * Where a request has got to before it may cache anything: a publish has then dropped an unhealthy volume's
   * entry.
   */
  function Between(w: View, r: Request): View {
    if r.PublishRequest? && !r.publish.healthyFirst then w.(staged := w.staged - {r.v}) else w
  }

  /** All states of a run, those between the two halves of a request included. */
  ghost function States(w: View, turns: seq<Turn>): (states: seq<View>)
    ensures |states| == 2 * |turns| + 1 && states[0] == w
    decreases |turns|
  {
    if turns == [] then [w] else [w, Between(w, turns[0].request)] + States(After(w, turns[0]), turns[1..])
  }

  predicate AllOwned(turns: seq<Turn>, owners: Owners) {
    forall t | t in turns :: PathsOwned(t.request, t.defaultPath, owners)
  }

  /** No volume is cached at one path before and at another after. */
  predicate Unmoved(a: View, b: View) {
    forall v | v in a.staged && v in b.staged :: a.staged[v].path == b.staged[v].path
  }

  ghost predicate NeverMoves(states: seq<View>) {
    forall i | 0 <= i < |states| - 1 :: Unmoved(states[i], states[i + 1])
  }

  lemma BetweenSound(w: View, r: Request, owners: Owners)
    requires Sound(w, owners)
    ensures Sound(Between(w, r), owners) && Unmoved(w, Between(w, r))
  {
  }

  lemma PublishUnmoved(w: View, v: string, p: string, readOnly: bool, a: PublishAnswers, mc: MountContext?)
    ensures var n := if a.healthyFirst then w else Unstaged(w, v); Unmoved(n, Publish(w, v, p, readOnly, a, mc).view)
  {
    var n := if a.healthyFirst then w else Unstaged(w, v);
    if !(v in w.staged && a.healthyFirst) {
      var m := ContextDropped(n, p);
      StageUnmoved(m, v, p, a.stage, mc);
    }
  }

  lemma StageUnmoved(w: View, v: string, p: string, a: StageAnswers, mc: MountContext?)
    ensures Unmoved(w, Stage(w, v, p, a, mc).view)
  {
    StageNeverMoves(w, v, p, a, mc);
    forall u | u != v && u in w.staged ensures Stage(w, v, p, a, mc).view.staged[u] == w.staged[u] {
      StageLeavesOthers(w, v, p, a, mc, u);
    }
  }

  lemma SecondHalfUnmoved(w: View, t: Turn)
    ensures Unmoved(Between(w, t.request), After(w, t))
  {
    match t.request {
      case StageRequest(v, p, a) => StageUnmoved(w, v, p, a, t.mc);
      case UnstageRequest(v, p, a) =>
      case PublishRequest(v, requested, readOnly, a) =>
        PublishUnmoved(w, v, PublishPath(w, v, requested, a, t.defaultPath), readOnly, a, t.mc);
    }
  }

  lemma JoinUnmoved(w: View, b: View, rest: seq<View>)
    requires rest != [] && Unmoved(w, b) && Unmoved(b, rest[0]) && NeverMoves(rest)
    ensures NeverMoves([w, b] + rest)
  {
    var all := [w, b] + rest;
    forall i | 0 <= i < |all| - 1 ensures Unmoved(all[i], all[i + 1]) {
      if i >= 2 {
        assert all[i] == rest[i - 2] && all[i + 1] == rest[i - 2 + 1];
      }
    }
  }

  /**
   * Over any sequence of stage, unstage and staged publish requests, with any answers of the outside and every error
   * exit: in every state each cached volume points to the stored context of its path, and a volume's cached path
   * changes only through a state in which the volume is not cached.
   */
  lemma RunIsSound(w: View, turns: seq<Turn>, owners: Owners)
    requires Sound(w, owners) && AllOwned(turns, owners)
    ensures forall s | s in States(w, turns) :: Sound(s, owners)
    ensures NeverMoves(States(w, turns))
    decreases |turns|
  {
    if turns != [] {
      var t := turns[0];
      var b, next := Between(w, t.request), After(w, t);
      assert t in turns;
      BetweenSound(w, t.request, owners);
      HandleSound(w, t.request, t.defaultPath, t.mc, owners);
      RunIsSound(next, turns[1..], owners);
      SecondHalfUnmoved(w, t);
      JoinUnmoved(w, b, States(next, turns[1..]));
    }
  }

  lemma StatesCons(w: View, t: Turn, rest: seq<Turn>)
    ensures States(w, [t] + rest) == [w, Between(w, t.request)] + States(After(w, t), rest)
  {
    assert ([t] + rest)[1..] == rest;
  }

  function Last<T>(s: seq<T>): T
    requires s != []
  {
    s[|s| - 1]
  }

  lemma JoinAssociates<T>(a: seq<T>, b: seq<T>, c: seq<T>)
    requires b != []
    ensures (a + b) + c == a + (b + c) && Last(a + b) == Last(b)
  {
  }

  lemma StatesSnoc(w: View, turns: seq<Turn>, t: Turn)
    ensures var last := Last(States(w, turns));
            States(w, turns + [t]) == States(w, turns) + [Between(last, t.request), After(last, t)]
    decreases |turns|
  {
    if turns == [] {
      assert [] + [t] == [t] + [];
      StatesCons(w, t, []);
    } else {
      var head, rest := turns[0], turns[1..];
      assert turns == [head] + rest && turns + [t] == [head] + (rest + [t]);
      StatesCons(w, head, rest);
      StatesCons(w, head, rest + [t]);
      StatesSnoc(After(w, head), rest, t);
      var later := States(After(w, head), rest);
      JoinAssociates([w, Between(w, head.request)], later, [Between(Last(later), t.request), After(Last(later), t)]);
    }
  }

  // ---------------------------------------------------------------- which states are saved

  /** The request saved the state of this volume and path, or deleted it. */
  ghost function WriteOf(w: View, t: Turn, k: Key): Option<bool> {
    match t.request
    case StageRequest(v, p, a) =>
      if k == (v, p) && StageMounts(w, v, p, a) && a.mounting.saveOk then Some(true) else None
    case UnstageRequest(v, p, a) =>
      if k == (v, p) && Unstage(w, v, p, a).reply == Done && a.deleteOk then Some(false) else None
    case PublishRequest(v, requested, _, a) =>
      if k == (v, PublishPath(w, v, requested, a, t.defaultPath)) && Restages(w, v, a) && a.stage.mounting.saveOk
      then Some(true)
      else None
  }

  ghost function LastWrite(w: View, turns: seq<Turn>, k: Key): Option<bool>
    decreases |turns|
  {
    if turns == [] then None
    else
      var later := LastWrite(After(w, turns[0]), turns[1..], k);
      if later.Some? then later else WriteOf(w, turns[0], k)
  }

  lemma TurnSaves(w: View, t: Turn, k: Key)
    ensures k in After(w, t).saved <==> if WriteOf(w, t, k).Some? then WriteOf(w, t, k).value else k in w.saved
  {
    match t.request {
      case StageRequest(v, p, a) =>
        if StageMounts(w, v, p, a) {
          StageMountsEffects(w, v, p, a, t.mc);
        } else {
          NoMountEffects(w, v, p, a, t.mc);
        }
      case UnstageRequest(v, p, a) => UnstageEffects(w, v, p, a);
      case PublishRequest(v, requested, readOnly, a) =>
        PublishEffects(w, v, PublishPath(w, v, requested, a, t.defaultPath), readOnly, a, t.mc);
    }
  }

  /**
   * After any run of requests, whichever saves and deletes fail, a state is saved exactly if the last write for its
   * volume and path was a new mount that could save it, and not a finished unstage that could delete it.
   */
  lemma SavedIff(w: View, turns: seq<Turn>, k: Key)
    ensures var last := LastWrite(w, turns, k);
            k in Last(States(w, turns)).saved <==> if last.Some? then last.value else k in w.saved
    decreases |turns|
  {
    if turns != [] {
      TurnSaves(w, turns[0], k);
      SavedIff(After(w, turns[0]), turns[1..], k);
      var rest := States(After(w, turns[0]), turns[1..]);
      JoinAssociates([w, Between(w, turns[0].request)], rest, []);
    }
  }

  /** No unstage of this volume at this path finishes. */
  ghost predicate NeverUnstaged(w: View, turns: seq<Turn>, v: string, p: string)
    decreases |turns|
  {
    turns == []
    || (var r := turns[0].request;
        && (r.UnstageRequest? && r.v == v && r.p == p ==> Unstage(w, v, p, r.unstage).reply != Done)
        && NeverUnstaged(After(w, turns[0]), turns[1..], v, p))
  }

  lemma NothingDeleted(w: View, turns: seq<Turn>, v: string, p: string)
    requires NeverUnstaged(w, turns, v, p)
    ensures LastWrite(w, turns, (v, p)) != Some(false)
    decreases |turns|
  {
    if turns != [] {
      NothingDeleted(After(w, turns[0]), turns[1..], v, p);
    }
  }

  /**
   * A volume that was mounted by a stage and could be saved has a saved state for that path until an unstage of it
   * finishes, whatever requests come in between.
   */
  lemma StagedStaysSaved(w: View, t: Turn, rest: seq<Turn>)
    requires t.request.StageRequest? && StageMounts(w, t.request.v, t.request.p, t.request.stage)
    requires t.request.stage.mounting.saveOk && NeverUnstaged(After(w, t), rest, t.request.v, t.request.p)
    ensures var end := Last(States(w, [t] + rest));
            Handle(w, t.request, t.defaultPath, t.mc).reply == Done && (t.request.v, t.request.p) in end.saved
  {
    var k := (t.request.v, t.request.p);
    StageIff(w, t.request.v, t.request.p, t.request.stage, t.mc);
    NothingDeleted(After(w, t), rest, t.request.v, t.request.p);
    assert ([t] + rest)[1..] == rest && ([t] + rest)[0] == t;
    SavedIff(w, [t] + rest, k);
  }

  lemma LastAfter(w: View, turns: seq<Turn>, t: Turn, next: View)
    requires After(Last(States(w, turns)), t) == next
    ensures Last(States(w, turns + [t])) == next
  {
    StatesSnoc(w, turns, t);
  }

  datatype Asked = Asked(request: Request, defaultPath: string)

  lemma AskedOwned(asked: seq<Asked>, turns: seq<Turn>, owners: Owners)
    requires forall q | q in asked :: PathsOwned(q.request, q.defaultPath, owners)
    requires |turns| == |asked|
    requires forall i | 0 <= i < |asked| ::
               turns[i].request == asked[i].request && turns[i].defaultPath == asked[i].defaultPath
    ensures AllOwned(turns, owners)
  {
    forall t | t in turns ensures PathsOwned(t.request, t.defaultPath, owners) {
      var i :| 0 <= i < |turns| && turns[i] == t;
      assert asked[i] in asked;
    }
  }

  /** A server from its boot on: the saved states are remounted, then requests are served one after another. */
  method RunServer(saved: set<Key>, states: seq<SavedState>, asked: seq<Asked>, ghost owners: Owners)
    returns (server: NodeServer, ghost boot: View, ghost turns: seq<Turn>)
    requires forall k | k in saved :: Owns(owners, k.0, k.1)
    requires DistinctStates(states, owners)
    requires forall q | q in asked :: PathsOwned(q.request, q.defaultPath, owners)
    ensures |turns| == |asked|
    ensures forall i | 0 <= i < |asked| ::
              turns[i].request == asked[i].request && turns[i].defaultPath == asked[i].defaultPath
    ensures Last(States(boot, turns)) == server.Now() && Sound(server.Now(), owners)
    ensures (forall s | s in States(boot, turns) :: Sound(s, owners)) && NeverMoves(States(boot, turns))
  {
    server := new NodeServer(true, saved);
    var failed := server.RemountAllStates(states, owners);
    boot, turns := server.Now(), [];
    var n := 0;
    while n < |asked|
      invariant 0 <= n <= |asked| && fresh(server) && |turns| == n
      invariant forall i | 0 <= i < n ::
                  turns[i].request == asked[i].request && turns[i].defaultPath == asked[i].defaultPath
      invariant Last(States(boot, turns)) == server.Now()
      invariant Sound(boot, owners) && Sound(server.Now(), owners)
    {
      var q := asked[n];
      var r, mc := server.Serve(q.request, q.defaultPath, owners);
      LastAfter(boot, turns, Turn(q.request, q.defaultPath, mc), server.Now());
      turns := turns + [Turn(q.request, q.defaultPath, mc)];
      n := n + 1;
    }
    AskedOwned(asked, turns, owners);
    RunIsSound(boot, turns, owners);
  }

  /**
   * A run in which stageVolume leaks: the volume is staged, a publish finds it unhealthy and drops the entry but not
   * the context, and a new stage finds the mount healthy, then unhealthy, and cannot recreate the directory.
   */
  lemma StageLeakRun(v: string, p: string, x: string, mc: MountContext) returns (turns: seq<Turn>)
    requires p != "" && mc.remotes == {x}
    ensures var states := States(View(map[], map[], {}, {}), turns); !NoLeak(states[|states| - 1])
  {
    var none := MountAnswers(NoConfig, false, false);
    var idle := StageAnswers(false, false, PrepareFails, false, Detached, none);
    var stage := StageAnswers(false, false, TargetFresh, false, Detached, MountAnswers(Loaded({x}), true, true));
    var publish := PublishAnswers(None, false, false, false, false, false, idle, PrepareFails, false);
    var again := StageAnswers(false, false, TargetHealthy, false, MkdirFails, none);
    var t1, t2, t3 :=
      Turn(StageRequest(v, p, stage), p, mc), Turn(PublishRequest(v, p, false, publish), p, null),
      Turn(StageRequest(v, p, again), p, null);
    turns := [t1, t2, t3];
    var w0 := View(map[], map[], {}, {});
    var w1 := After(w0, t1);
    assert w1 == View(map[p := mc], map[v := Staged(p, mc, false)], {x}, {(v, p)});
    var w2 := After(w1, t2);
    assert w2.contexts == map[p := mc] && w2.staged == map[] && w2.sections == {x};
    var w3 := After(w2, t3);
    assert w3.contexts == map[] && x in w3.sections && !Held(w3, x);
    assert turns[1..] == [t2, t3] && turns[1..][1..] == [t3] && turns[1..][1..][1..] == [];
    var s2 := States(w2, [t3]);
    assert s2[|s2| - 1] == w3;
    var s1 := States(w1, [t2, t3]);
    assert s1[|s1| - 1] == w3;
  }
}
