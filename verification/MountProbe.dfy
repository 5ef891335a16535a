/** Timed mount probes: any number of callers share one slot, and a hung probe holds it. */
module MountProbe {

  const MAX_CONCURRENT := 1

  datatype Verdict = Verdict(corrupted: bool)

  /** How a call ended; a call without a positive timeout probes in its own goroutine and waits as long as it takes. */
  datatype Outcome = Unavailable | TimedOut | Probed(verdict: Verdict) | ProbedUnbounded(verdict: Verdict)

  function Answer(o: Outcome): bool {
    match o
    case Unavailable => false
    case TimedOut => true
    case Probed(v) => v.corrupted
    case ProbedUnbounded(v) => v.corrupted
  }

  datatype Caller = WantsSlot | WantsResult | ProbesItself | Returned(outcome: Outcome)

  /** The probe goroutine of a call that got a slot. */
  datatype Probe = Running | Delivering(verdict: Verdict) | Freeing(verdict: Verdict) | Ended(verdict: Verdict)

  /** `slots` counts the tokens in the slot channel; `results` holds what lies in the one-place result channels. */
  datatype State = State(
    slots: nat, callers: map<nat, Caller>, probes: map<nat, Probe>, results: map<nat, Verdict>, freed: multiset<nat>)

  datatype Step =
    | Call(timeout: int)
    | TakeSlot | NoSlot | ProbeEnds(verdict: Verdict) | Deliver | FreeSlot | Receive | TimeOut
    | OwnProbeEnds(verdict: Verdict)

  predicate CallerIs(s: State, id: nat, c: Caller) {
    id in s.callers && s.callers[id] == c
  }

  /** Channel operations wait for room or for a value; timers may fire at any time. */
  predicate Can(s: State, id: nat, step: Step) {
    match step
    case Call(_) => id !in s.callers
    case TakeSlot => CallerIs(s, id, WantsSlot) && s.slots < MAX_CONCURRENT
    case NoSlot => CallerIs(s, id, WantsSlot)
    case ProbeEnds(_) => id in s.probes && s.probes[id].Running?
    case Deliver => id in s.probes && s.probes[id].Delivering? && id !in s.results
    case FreeSlot => id in s.probes && s.probes[id].Freeing? && s.slots > 0
    case Receive => CallerIs(s, id, WantsResult) && id in s.results
    case TimeOut => CallerIs(s, id, WantsResult)
    case OwnProbeEnds(_) => CallerIs(s, id, ProbesItself)
  }

  function Do(s: State, id: nat, step: Step): State
    requires Can(s, id, step)
  {
    match step
    case Call(timeout) => s.(callers := s.callers[id := if timeout <= 0 then ProbesItself else WantsSlot])
    case TakeSlot =>
      s.(slots := s.slots + 1, callers := s.callers[id := WantsResult], probes := s.probes[id := Running])
    case NoSlot => s.(callers := s.callers[id := Returned(Unavailable)])
    case ProbeEnds(v) => s.(probes := s.probes[id := Delivering(v)])
    case Deliver =>
      s.(probes := s.probes[id := Freeing(s.probes[id].verdict)], results := s.results[id := s.probes[id].verdict])
    case FreeSlot =>
      s.(probes := s.probes[id := Ended(s.probes[id].verdict)], slots := s.slots - 1, freed := s.freed + multiset{id})
    case Receive => s.(callers := s.callers[id := Returned(Probed(s.results[id]))], results := s.results - {id})
    case TimeOut => s.(callers := s.callers[id := Returned(TimedOut)])
    case OwnProbeEnds(v) => s.(callers := s.callers[id := Returned(ProbedUnbounded(v))])
  }

  datatype Event = Event(id: nat, step: Step)

  const START := State(0, map[], map[], map[], multiset{})

  ghost predicate Run(s: State, es: seq<Event>, t: State)
    decreases |es|
  {
    if es == [] then s == t else Can(s, es[0].id, es[0].step) && Run(Do(s, es[0].id, es[0].step), es[1..], t)
  }

  // ---------------------------------------------------------------- what every schedule keeps

  /** Probes that have not given their slot back. */
  function Unfinished(s: State): set<nat> {
    set id | id in s.probes && !s.probes[id].Ended?
  }

  /** A call that got the slot has a goroutine that probes for it. */
  predicate GotSlot(c: Caller) {
    c.WantsResult? || (c.Returned? && (c.outcome.TimedOut? || c.outcome.Probed?))
  }

  /** One call, its probe and its result channel. */
  predicate CallGood(s: State, id: nat) {
    && (id in s.probes <==> id in s.callers && GotSlot(s.callers[id]))
    && (id in s.results ==> id in s.probes)
    && (id in s.probes && (s.probes[id].Running? || s.probes[id].Delivering?) ==>
          id !in s.results && (s.callers[id].WantsResult? || s.callers[id] == Returned(TimedOut)))
    && (id in s.results ==> !s.probes[id].Running? && s.results[id] == s.probes[id].verdict)
    && (id in s.callers && s.callers[id].Returned? && s.callers[id].outcome.Probed? ==>
          id !in s.results && !s.probes[id].Running? && s.callers[id].outcome.verdict == s.probes[id].verdict)
    && (id in s.probes && (s.probes[id].Freeing? || s.probes[id].Ended?) && s.callers[id].WantsResult? ==>
          id in s.results)
    && s.freed[id] == (if id in s.probes && s.probes[id].Ended? then 1 else 0)
  }

  ghost predicate Good(s: State) {
    && s.slots == |Unfinished(s)| && s.slots <= MAX_CONCURRENT
    && forall id :: CallGood(s, id)
  }

  lemma SlotsKept(s: State, id: nat, step: Step)
    requires Good(s) && Can(s, id, step)
    ensures Do(s, id, step).slots == |Unfinished(Do(s, id, step))|
  {
    var t := Do(s, id, step);
    assert CallGood(s, id);
    match step {
      case TakeSlot => assert Unfinished(t) == Unfinished(s) + {id};
      case FreeSlot => assert Unfinished(t) == Unfinished(s) - {id};
      case _ => assert Unfinished(t) == Unfinished(s);
    }
  }

  lemma GoodKept(s: State, id: nat, step: Step)
    requires Good(s) && Can(s, id, step)
    ensures Good(Do(s, id, step))
  {
    var t := Do(s, id, step);
    SlotsKept(s, id, step);
    forall j ensures CallGood(t, j) {
      assert CallGood(s, j);
    }
  }

  lemma {:induction false} RunGood(s: State, es: seq<Event>, t: State)
    requires Good(s) && Run(s, es, t)
    ensures Good(t)
    decreases |es|
  {
    if es != [] {
      GoodKept(s, es[0].id, es[0].step);
      RunGood(Do(s, es[0].id, es[0].step), es[1..], t);
    }
  }

  /** In every schedule the slots in use are the unfinished probes, and there is never more than one. */
  lemma SlotsAreProbes(es: seq<Event>, t: State, a: nat, b: nat)
    requires Run(START, es, t)
    ensures t.slots == |Unfinished(t)| <= 1
    ensures a in Unfinished(t) && b in Unfinished(t) ==> a == b
  {
    RunGood(START, es, t);
    if a in Unfinished(t) && b in Unfinished(t) && a != b {
      var two := {a, b};
      assert two <= Unfinished(t);
      SubsetSmaller(two, Unfinished(t));
    }
  }

  lemma SubsetSmaller(a: set<nat>, b: set<nat>)
    requires a <= b
    ensures |a| <= |b|
  {
    assert b == a + (b - a) && |b| == |a| + |b - a|;
  }

  /** A probe never waits to deliver its result or to give its slot back, even when its caller has long timed out. */
  lemma ProbeNeverBlocks(es: seq<Event>, t: State, id: nat)
    requires Run(START, es, t) && id in t.probes
    ensures t.probes[id].Delivering? ==> Can(t, id, Deliver)
    ensures t.probes[id].Freeing? ==> Can(t, id, FreeSlot)
  {
    RunGood(START, es, t);
    assert CallGood(t, id);
    if t.probes[id].Freeing? {
      assert id in Unfinished(t);
      SubsetSmaller({id}, Unfinished(t));
    }
  }

  /** Each slot is given back by its own probe, once, and only at its end. */
  lemma FreedOnce(es: seq<Event>, t: State, id: nat)
    requires Run(START, es, t)
    ensures t.freed[id] == if id in t.probes && t.probes[id].Ended? then 1 else 0
  {
    RunGood(START, es, t);
    assert CallGood(t, id);
  }

  predicate ProbedAlone(c: Caller) {
    c.Returned? && c.outcome.ProbedUnbounded?
  }

  /** The call was made with a positive timeout, or with none. */
  ghost predicate Called(es: seq<Event>, id: nat, timed: bool) {
    exists k ::
      0 <= k < |es| && es[k].id == id && es[k].step.Call? && (es[k].step.timeout > 0 <==> timed)
  }

  /** What is known of a call so far goes back to what happened to it. */
  ghost predicate FromEvents(es: seq<Event>, t: State, id: nat) {
    && (id in t.probes ==> Event(id, TakeSlot) in es)
    && (id in t.probes && !t.probes[id].Running? ==> Event(id, ProbeEnds(t.probes[id].verdict)) in es)
    && (id in t.callers && t.callers[id].ProbesItself? ==> Called(es, id, false))
    && (id in t.callers && !t.callers[id].ProbesItself? && !ProbedAlone(t.callers[id]) ==>
          Called(es, id, true))
    && (id in t.callers && t.callers[id] == Returned(Unavailable) ==> Event(id, NoSlot) in es)
    && (id in t.callers && t.callers[id] == Returned(TimedOut) ==> Event(id, TimeOut) in es)
    && (id in t.callers && t.callers[id].Returned? && t.callers[id].outcome.Probed? ==> Event(id, Receive) in es)
    && (id in t.callers && ProbedAlone(t.callers[id]) ==>
          && Called(es, id, false)
          && Event(id, OwnProbeEnds(t.callers[id].outcome.verdict)) in es)
  }

  lemma CalledStays(es: seq<Event>, e: Event, id: nat, timed: bool)
    requires Called(es, id, timed)
    ensures Called(es + [e], id, timed)
  {
    var k :| 0 <= k < |es| && es[k].id == id && es[k].step.Call? && (es[k].step.timeout > 0 <==> timed);
    assert (es + [e])[k] == es[k];
  }

  lemma OtherFromEvents(es: seq<Event>, s: State, e: Event, id: nat)
    requires FromEvents(es, s, id) && Can(s, e.id, e.step) && e.id != id
    ensures FromEvents(es + [e], Do(s, e.id, e.step), id)
  {
    var t := Do(s, e.id, e.step);
    assert id in t.probes <==> id in s.probes;
    assert id in t.callers <==> id in s.callers;
    forall timed | Called(es, id, timed) ensures Called(es + [e], id, timed) {
      CalledStays(es, e, id, timed);
    }
  }

  lemma OwnFromEvents(es: seq<Event>, s: State, e: Event, id: nat)
    requires FromEvents(es, s, id) && CallGood(s, id) && Can(s, e.id, e.step) && e.id == id
    ensures FromEvents(es + [e], Do(s, e.id, e.step), id)
  {
    assert (es + [e])[|es|] == e;
    forall timed | Called(es, id, timed) ensures Called(es + [e], id, timed) {
      CalledStays(es, e, id, timed);
    }
  }

  lemma {:induction false} RunFromEvents(es: seq<Event>, t: State, id: nat)
    requires Run(START, es, t)
    ensures FromEvents(es, t, id)
    decreases |es|
  {
    if es != [] {
      var front, e := es[..|es| - 1], es[|es| - 1];
      var s := LastStep(START, es, t);
      RunFromEvents(front, s, id);
      RunGood(START, front, s);
      assert CallGood(s, id) && es == front + [e];
      if e.id == id {
        OwnFromEvents(front, s, e, id);
      } else {
        OtherFromEvents(front, s, e, id);
      }
    }
  }

  lemma {:induction false} LastStep(s: State, es: seq<Event>, t: State) returns (before: State)
    requires es != [] && Run(s, es, t)
    ensures var e := es[|es| - 1];
            Run(s, es[..|es| - 1], before) && Can(before, e.id, e.step) && t == Do(before, e.id, e.step)
    decreases |es|
  {
    if |es| == 1 {
      before := s;
    } else {
      var next := Do(s, es[0].id, es[0].step);
      before := LastStep(next, es[1..], t);
      assert es[1..][..|es| - 2] == es[..|es| - 1][1..];
    }
  }

  /**
   * A call with a positive timeout answers "corrupted" if and only if it got the slot and its own probe said so or it
   * was not given a result in time; without the slot no probe ran for it and it answers "not corrupted". A call with
   * none answers what its probe said.
   */
  lemma AnswersAreHonest(es: seq<Event>, t: State, id: nat)
    requires Run(START, es, t) && id in t.callers && t.callers[id].Returned?
    ensures var o := t.callers[id].outcome;
            && Called(es, id, !o.ProbedUnbounded?)
            && (o.Unavailable? ==> Event(id, NoSlot) in es && id !in t.probes && !Answer(o))
            && (o.TimedOut? ==> Event(id, TakeSlot) in es && Event(id, TimeOut) in es && Answer(o))
            && (o.Probed? ==>
                  && Event(id, TakeSlot) in es && Event(id, ProbeEnds(o.verdict)) in es && Event(id, Receive) in es)
            && (o.ProbedUnbounded? ==> id !in t.probes && Event(id, OwnProbeEnds(o.verdict)) in es)
            && (o.Probed? || o.ProbedUnbounded? ==> Answer(o) == o.verdict.corrupted)
  {
    RunGood(START, es, t);
    RunFromEvents(es, t, id);
    assert CallGood(t, id);
  }

  /**
   * A caller never waits without a way out: for the slot or for the result it can always stop waiting, it can take the
   * slot whenever no probe is unfinished, and its result as soon as its probe has delivered it.
   */
  lemma CallerNeverBlocks(es: seq<Event>, t: State, id: nat)
    requires Run(START, es, t) && id in t.callers
    ensures t.callers[id].WantsSlot? ==> Can(t, id, NoSlot) && (Can(t, id, TakeSlot) <==> Unfinished(t) == {})
    ensures t.callers[id].WantsResult? ==>
              && Can(t, id, TimeOut) && id in t.probes
              && (Can(t, id, Receive) <==> t.probes[id].Freeing? || t.probes[id].Ended?)
  {
    RunGood(START, es, t);
    assert CallGood(t, id);
  }

  /** While one probe hangs nobody else gets a slot: every later timed call ends unavailable or goes on waiting. */
  lemma HungProbeBlocksOthers(es: seq<Event>, s: State, more: seq<Event>, t: State, hung: nat, id: nat)
    requires Run(START, es, s) && hung in s.probes && s.probes[hung].Running? && Run(s, more, t)
    requires forall k | 0 <= k < |more| :: !(more[k].id == hung && more[k].step.ProbeEnds?)
    requires id !in s.callers && id in t.callers
    ensures !GotSlot(t.callers[id])
  {
    RunGood(START, es, s);
    assert CallGood(s, id);
    StillHung(s, more, t, hung, id);
  }

  lemma {:induction false} StillHung(s: State, more: seq<Event>, t: State, hung: nat, id: nat)
    requires Good(s) && hung in s.probes && s.probes[hung].Running? && Run(s, more, t)
    requires forall k | 0 <= k < |more| :: !(more[k].id == hung && more[k].step.ProbeEnds?)
    requires id !in s.probes
    ensures id in t.callers ==> !GotSlot(t.callers[id])
    decreases |more|
  {
    if more != [] {
      var e, next := more[0], Do(s, more[0].id, more[0].step);
      GoodKept(s, e.id, e.step);
      assert hung in Unfinished(s);
      SubsetSmaller({hung}, Unfinished(s));
      assert CallGood(s, id) && CallGood(s, hung);
      StillHung(next, more[1..], t, hung, id);
    } else {
      assert CallGood(s, id);
    }
  }
}
