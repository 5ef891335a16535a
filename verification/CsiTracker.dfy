/** Detecting restarts of the CSI node pod: report, recover, acknowledge. */
module CsiTracker {
  import opened Text

  /** The fields of a CSINodeTracker; an empty string stands for no UID. */
  datatype Memory = Memory(lastUid: string, pendingUid: string, initialized: bool)

  const FRESH := Memory("", "", false)

  datatype Pod = Pod(uid: string, created: int)

  /** The most recently created pod; of equally old ones the first listed. */
  predicate IsNewest(pods: seq<Pod>, i: nat) {
    && i < |pods|
    && (forall k | 0 <= k < |pods| :: pods[k].created <= pods[i].created)
    && (forall k | 0 <= k < i :: pods[k].created < pods[i].created)
  }

  /** What a check reads: nothing if the list call failed. */
  type Listing = Option<seq<Pod>>

  class CsiNodeTracker {
    var lastUid: string
    var pendingUid: string
    var initialized: bool

    constructor ()
      ensures View() == FRESH
    {
      lastUid, pendingUid, initialized := "", "", false;
    }

    ghost function View(): Memory
      reads this
    {
      Memory(lastUid, pendingUid, initialized)
    }

    /** newestCSINodePod */
    static method NewestPod(pods: seq<Pod>) returns (chosen: Option<Pod>)
      ensures chosen == Newest(pods)
      ensures chosen.None? <==> pods == []
      ensures chosen.Some? ==> exists i: nat :: IsNewest(pods, i) && pods[i] == chosen.value
    {
      chosen := None;
      ghost var at: nat := 0;
      for n := 0 to |pods|
        invariant chosen == Newest(pods[..n])
        invariant chosen.None? <==> n == 0
        invariant chosen.Some? ==> at < n && pods[at] == chosen.value && IsNewest(pods[..n], at)
      {
        assert pods[..n + 1][..n] == pods[..n];
        if chosen.None? || pods[n].created > chosen.value.created {
          chosen := Some(pods[n]);
          at := n;
        }
      }
      assert pods[..|pods|] == pods;
    }

    /** CheckRestarted; a failed list call is an error, reported here as no restart. */
    method CheckRestarted(listing: Listing) returns (restarted: bool)
      modifies this
      ensures View() == AfterCheck(old(View()), Observed(listing))
      ensures restarted <==> Reports(old(View()), Observed(listing))
    {
      if listing.None? { return false; }
      var pod := NewestPod(listing.value);
      if pod.None? { return false; }
      var uid := pod.value.uid;
      if !initialized {
        lastUid := uid;
        initialized := true;
        return false;
      }
      if uid == lastUid { return false; }
      if pendingUid != uid {
        pendingUid := uid;
      }
      return true;
    }

    /** AcknowledgeRestart */
    method AcknowledgeRestart()
      modifies this
      ensures View() == AfterAck(old(View()))
    {
      if pendingUid == "" { return; }
      lastUid := pendingUid;
      pendingUid := "";
    }

    /** The OnCSI callback: acknowledge only what was reported, waited for and recovered. */
    method OnCsi(round: Round) returns (recovering: bool)
      modifies this
      ensures View() == AfterRound(old(View()), round)
      ensures recovering <==> Reports(old(View()), Observed(round.listing)) && round.ready
    {
      recovering := false;
      var restarted := CheckRestarted(round.listing);
      if !restarted { return; }
      if !round.ready { return; }
      recovering := true;
      if !round.recovered { return; }
      AcknowledgeRestart();
    }
  }

  // ---------------------------------------------------------------- specification

  function Newest(pods: seq<Pod>): Option<Pod> {
    if pods == [] then None
    else
      var before := Newest(pods[..|pods| - 1]);
      if before.None? || pods[|pods| - 1].created > before.value.created then Some(pods[|pods| - 1]) else before
  }

  /** The UID a check sees, if it sees a pod. */
  function Observed(listing: Listing): Option<string> {
    if listing.None? then None
    else match Newest(listing.value)
         case None => None
         case Some(pod) => Some(pod.uid)
  }

  lemma {:induction false} NewestIs(pods: seq<Pod>, i: nat)
    requires IsNewest(pods, i)
    ensures Newest(pods) == Some(pods[i])
    decreases |pods|
  {
    var front := pods[..|pods| - 1];
    if i < |front| {
      assert IsNewest(front, i);
      NewestIs(front, i);
      assert front[i] == pods[i];
    } else if front != [] {
      NewestListed(front);
      var k :| 0 <= k < |front| && front[k] == Newest(front).value;
      assert pods[k].created < pods[i].created;
    }
  }

  lemma {:induction false} NewestListed(pods: seq<Pod>)
    requires pods != []
    ensures Newest(pods).Some? && Newest(pods).value in pods
    decreases |pods|
  {
    if |pods| > 1 {
      NewestListed(pods[..|pods| - 1]);
    }
  }

  /**
   * A check sees a UID exactly if it is that of the pod created last, the first listed of several; a list call that
   * fails and an empty list show none.
   */
  lemma ObservedIff(pods: seq<Pod>, uid: string)
    ensures Observed(None) == None && Observed(Some([])) == None
    ensures Observed(Some(pods)) == Some(uid) <==> exists i: nat :: IsNewest(pods, i) && pods[i].uid == uid
  {
    forall i: nat | IsNewest(pods, i) ensures Newest(pods) == Some(pods[i]) {
      NewestIs(pods, i);
    }
    if pods != [] {
      SomeNewest(pods);
    }
  }

  lemma {:induction false} SomeNewest(pods: seq<Pod>)
    requires pods != []
    ensures exists i: nat :: IsNewest(pods, i)
    decreases |pods|
  {
    var last := |pods| - 1;
    if last == 0 {
      assert IsNewest(pods, 0);
    } else {
      SomeNewest(pods[..last]);
      var i: nat :| IsNewest(pods[..last], i);
      assert IsNewest(pods, if pods[last].created > pods[i].created then last else i);
    }
  }

  predicate Reports(m: Memory, seen: Option<string>) {
    seen.Some? && m.initialized && seen.value != m.lastUid
  }

  function AfterCheck(m: Memory, seen: Option<string>): Memory {
    if seen.None? then m
    else if !m.initialized then m.(lastUid := seen.value, initialized := true)
    else if seen.value == m.lastUid then m
    else m.(pendingUid := seen.value)
  }

  function AfterAck(m: Memory): Memory {
    if m.pendingUid == "" then m else m.(lastUid := m.pendingUid, pendingUid := "")
  }

  /** One call of the callback; `ready`: the wait for the pod did not end in an error. */
  datatype Round = Round(listing: Listing, ready: bool, recovered: bool)

  function AfterRound(m: Memory, r: Round): Memory {
    var seen := Observed(r.listing);
    var next := AfterCheck(m, seen);
    if Reports(m, seen) && r.ready && r.recovered then AfterAck(next) else next
  }

  function AfterRounds(m: Memory, rounds: seq<Round>): Memory
    decreases |rounds|
  {
    if rounds == [] then m else AfterRounds(AfterRound(m, rounds[0]), rounds[1..])
  }

  // ---------------------------------------------------------------- no restart is lost

  /** The reference: the UID whose restart was recovered last, or else the first one seen. */
  function Settled(rounds: seq<Round>): Option<string>
    decreases |rounds|
  {
    if rounds == [] then None
    else
      var before, r := Settled(rounds[..|rounds| - 1]), rounds[|rounds| - 1];
      var seen := Observed(r.listing);
      if seen.None? || (before.Some? && !(r.ready && r.recovered)) then before else seen
  }

  predicate RealUid(r: Round) {
    Observed(r.listing) != Some("")
  }

  lemma {:induction false} AfterLastRound(m: Memory, rounds: seq<Round>)
    requires rounds != []
    ensures AfterRounds(m, rounds) == AfterRound(AfterRounds(m, rounds[..|rounds| - 1]), rounds[|rounds| - 1])
    decreases |rounds|
  {
    var front := rounds[..|rounds| - 1];
    if |rounds| == 1 {
      assert rounds[1..] == [] && front == [];
    } else {
      AfterLastRound(AfterRound(m, rounds[0]), rounds[1..]);
      assert rounds[1..][..|rounds| - 2] == front[1..];
    }
  }

  /** The three fields of the tracker stand for the one settled UID, and what is pending is never it. */
  lemma {:induction false} TrackerFollows(rounds: seq<Round>)
    requires forall k | 0 <= k < |rounds| :: RealUid(rounds[k])
    ensures var m := AfterRounds(FRESH, rounds);
            && (m.initialized <==> Settled(rounds).Some?)
            && (m.initialized ==> m.lastUid == Settled(rounds).value)
            && (m.pendingUid != "" ==> m.initialized && m.pendingUid != m.lastUid)
    decreases |rounds|
  {
    if rounds != [] {
      TrackerFollows(rounds[..|rounds| - 1]);
      AfterLastRound(FRESH, rounds);
    }
  }

  /** A check with a pod present reports a restart exactly when the newest UID is not the settled one. */
  lemma ReportsIff(rounds: seq<Round>, uid: string)
    requires forall k | 0 <= k < |rounds| :: RealUid(rounds[k])
    ensures Reports(AfterRounds(FRESH, rounds), Some(uid)) <==> Settled(rounds).Some? && Settled(rounds).value != uid
  {
    TrackerFollows(rounds);
  }

  /** The callback went all the way through in this round, had it been entered. */
  predicate Through(r: Round) {
    Observed(r.listing).Some? && r.ready && r.recovered
  }

  /**
   * A restart is never lost and never handled twice: once a new UID is the newest and stays it, each round that sees
   * the pod reports it until the first round that recovers it, and no round after that does.
   */
  lemma ReportedUntilRecovered(rounds: seq<Round>, i: nat, uid: string)
    requires i <= |rounds| && forall k | 0 <= k < |rounds| :: RealUid(rounds[k])
    requires Settled(rounds[..i]).Some? && Settled(rounds[..i]).value != uid
    requires forall k | i <= k < |rounds| :: Observed(rounds[k].listing) in {None, Some(uid)}
    ensures Reports(AfterRounds(FRESH, rounds), Some(uid)) <==> forall k | i <= k < |rounds| :: !Through(rounds[k])
  {
    StaysUnsettled(rounds, i, uid);
    ReportsIff(rounds, uid);
  }

  lemma {:induction false} StaysUnsettled(rounds: seq<Round>, i: nat, uid: string)
    requires i <= |rounds|
    requires Settled(rounds[..i]).Some? && Settled(rounds[..i]).value != uid
    requires forall k | i <= k < |rounds| :: Observed(rounds[k].listing) in {None, Some(uid)}
    ensures Settled(rounds).Some?
    ensures Settled(rounds) == Some(uid) <==> exists k :: i <= k < |rounds| && Through(rounds[k])
    decreases |rounds|
  {
    if i == |rounds| {
      assert rounds[..i] == rounds;
    } else {
      var front := rounds[..|rounds| - 1];
      assert front[..i] == rounds[..i];
      StaysUnsettled(front, i, uid);
      if Through(rounds[|rounds| - 1]) {
        assert Settled(rounds) == Some(uid);
      } else {
        assert Settled(rounds) == Settled(front);
        assert forall k | i <= k < |rounds| && Through(rounds[k]) :: k < |front| && Through(front[k]);
      }
    }
  }

  // ---------------------------------------------------------------- checks and acknowledgements in any order

  datatype Action = Check(seen: Option<string>) | Ack

  function After(m: Memory, a: Action): Memory {
    match a
    case Check(seen) => AfterCheck(m, seen)
    case Ack => AfterAck(m)
  }

  function AfterAll(actions: seq<Action>): Memory
    decreases |actions|
  {
    if actions == [] then FRESH else After(AfterAll(actions[..|actions| - 1]), actions[|actions| - 1])
  }

  /** Check number k reported its UID as a restart. */
  predicate ReportedAt(actions: seq<Action>, k: nat, uid: string) {
    k < |actions| && actions[k] == Check(Some(uid)) && Reports(AfterAll(actions[..k]), Some(uid))
  }

  /** Check number k was the first to see a pod. */
  predicate SeededAt(actions: seq<Action>, k: nat, uid: string) {
    && k < |actions| && actions[k] == Check(Some(uid))
    && forall j | 0 <= j < k :: actions[j].Check? ==> actions[j].seen.None?
  }

  /** Number k acknowledged a UID that check number j had reported. */
  predicate AcknowledgedAt(actions: seq<Action>, j: nat, k: nat, uid: string) {
    j < k < |actions| && ReportedAt(actions, j, uid) && actions[k].Ack?
  }

  ghost predicate PendingWasReported(actions: seq<Action>, m: Memory) {
    m.pendingUid != "" ==>
      m.initialized && m.pendingUid != m.lastUid && exists k :: ReportedAt(actions, k, m.pendingUid)
  }

  ghost predicate LastIsKnown(actions: seq<Action>, m: Memory) {
    m.initialized ==>
      (exists k :: SeededAt(actions, k, m.lastUid)) || (exists j, k :: AcknowledgedAt(actions, j, k, m.lastUid))
  }

  lemma ReportedStays(actions: seq<Action>, a: Action, k: nat, uid: string)
    requires ReportedAt(actions, k, uid)
    ensures ReportedAt(actions + [a], k, uid)
  {
    assert (actions + [a])[..k] == actions[..k];
  }

  lemma {:induction false} Unseeded(actions: seq<Action>)
    ensures AfterAll(actions).initialized
            || forall k | 0 <= k < |actions| :: actions[k].Check? ==> actions[k].seen.None?
    ensures !AfterAll(actions).initialized ==> AfterAll(actions) == FRESH
    decreases |actions|
  {
    if actions != [] {
      Unseeded(actions[..|actions| - 1]);
    }
  }

  lemma PendingStep(actions: seq<Action>, a: Action)
    requires PendingWasReported(actions, AfterAll(actions))
    ensures PendingWasReported(actions + [a], AfterAll(actions + [a]))
  {
    var m, all := AfterAll(actions), actions + [a];
    assert all[..|actions|] == actions;
    var t := AfterAll(all);
    if t.pendingUid != "" {
      if a.Check? && Reports(m, a.seen) {
        assert ReportedAt(all, |actions|, t.pendingUid);
      } else {
        var k :| ReportedAt(actions, k, m.pendingUid);
        ReportedStays(actions, a, k, m.pendingUid);
      }
    }
  }

  lemma LastStep(actions: seq<Action>, a: Action)
    requires PendingWasReported(actions, AfterAll(actions)) && LastIsKnown(actions, AfterAll(actions))
    ensures LastIsKnown(actions + [a], AfterAll(actions + [a]))
  {
    var m, all := AfterAll(actions), actions + [a];
    assert all[..|actions|] == actions;
    var t := AfterAll(all);
    Unseeded(actions);
    if t.initialized {
      if !m.initialized {
        assert SeededAt(all, |actions|, t.lastUid);
      } else if a.Ack? && m.pendingUid != "" {
        var k :| ReportedAt(actions, k, m.pendingUid);
        ReportedStays(actions, a, k, m.pendingUid);
        assert AcknowledgedAt(all, k, |actions|, t.lastUid);
      } else if k :| SeededAt(actions, k, m.lastUid) {
        assert SeededAt(all, k, m.lastUid);
      } else {
        var j, k :| AcknowledgedAt(actions, j, k, m.lastUid);
        ReportedStays(actions, a, j, m.lastUid);
        assert AcknowledgedAt(all, j, k, m.lastUid);
      }
    }
  }

  /**
   * However checks and acknowledgements are interleaved: the UID checks compare with is the seed or one that was
   * reported and then acknowledged, and what is pending was reported and differs from it.
   */
  lemma {:induction false} OnlyReportedIsAcknowledged(actions: seq<Action>)
    ensures PendingWasReported(actions, AfterAll(actions)) && LastIsKnown(actions, AfterAll(actions))
    decreases |actions|
  {
    if actions != [] {
      var front, a := actions[..|actions| - 1], actions[|actions| - 1];
      OnlyReportedIsAcknowledged(front);
      assert actions == front + [a];
      PendingStep(front, a);
      LastStep(front, a);
    }
  }

  ghost predicate Reported(actions: seq<Action>, k: nat) {
    exists uid :: ReportedAt(actions, k, uid)
  }

  /** Check number k reported the UID, and since then nothing was reported or acknowledged. */
  ghost predicate PendingSince(actions: seq<Action>, k: nat, uid: string) {
    ReportedAt(actions, k, uid) && forall j | k < j < |actions| :: !actions[j].Ack? && !Reported(actions, j)
  }

  lemma PendingSinceEarlier(actions: seq<Action>, a: Action, k: nat, uid: string)
    requires k < |actions|
    ensures PendingSince(actions + [a], k, uid)
            <==> PendingSince(actions, k, uid) && !a.Ack? && !Reported(actions + [a], |actions|)
  {
    var all := actions + [a];
    forall j | 0 <= j < |actions|
      ensures all[j] == actions[j]
      ensures forall u :: ReportedAt(all, j, u) <==> ReportedAt(actions, j, u)
    {
      assert all[..j] == actions[..j];
    }
    assert forall j | 0 <= j < |actions| :: Reported(all, j) <==> Reported(actions, j);
    assert all[|actions|] == a;
  }

  lemma PendingNow(actions: seq<Action>, a: Action, k: nat, uid: string)
    ensures var m := AfterAll(actions);
            PendingSince(actions + [a], k, uid)
            <==> if k < |actions| then PendingSince(actions, k, uid) && !a.Ack? && !(a.Check? && Reports(m, a.seen))
                 else k == |actions| && a == Check(Some(uid)) && Reports(m, a.seen)
  {
    var all, m := actions + [a], AfterAll(actions);
    assert all[..|actions|] == actions;
    assert forall u :: ReportedAt(all, |actions|, u) <==> a == Check(Some(u)) && Reports(m, Some(u));
    if k < |actions| {
      PendingSinceEarlier(actions, a, k, uid);
      assert a.Check? && Reports(m, a.seen) ==> ReportedAt(all, |actions|, a.seen.value);
    }
  }

  /** An acknowledgement would settle the UID exactly if it was the last to be reported, and after the last one. */
  lemma {:induction false} PendingIff(actions: seq<Action>, uid: string)
    requires uid != ""
    ensures AfterAll(actions).pendingUid == uid <==> exists k: nat :: PendingSince(actions, k, uid)
    decreases |actions|
  {
    if actions != [] {
      var front, a := actions[..|actions| - 1], actions[|actions| - 1];
      PendingIff(front, uid);
      assert actions == front + [a];
      if k: nat :| PendingSince(actions, k, uid) {
        PendingNow(front, a, k, uid);
        assert AfterAll(actions).pendingUid == uid;
      }
      if AfterAll(actions).pendingUid == uid {
        if a == Check(Some(uid)) && Reports(AfterAll(front), a.seen) {
          PendingNow(front, a, |front|, uid);
        } else {
          assert AfterAll(front).pendingUid == uid;
          var k: nat :| PendingSince(front, k, uid);
          PendingNow(front, a, k, uid);
        }
        assert exists k: nat :: PendingSince(actions, k, uid);
      }
    } else {
      assert AfterAll(actions).pendingUid != uid;
      assert !exists k: nat :: PendingSince(actions, k, uid);
    }
  }

  /** A UID that shows up between a report and its acknowledgement is reported by the next check. */
  lemma LateUidReported(actions: seq<Action>, reported: string, late: string)
    requires Reports(AfterAll(actions), Some(reported)) && reported != ""
    ensures Reports(AfterAll(actions + [Check(Some(reported)), Ack]), Some(late)) <==> late != reported
  {
    var one := actions + [Check(Some(reported))];
    assert one[..|actions|] == actions;
    var two := actions + [Check(Some(reported)), Ack];
    assert two[..|two| - 1] == one;
  }
}
