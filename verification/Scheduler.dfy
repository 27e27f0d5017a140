/** The single-flight scheduler of indexer/coalescingScheduler.ts. */
module Scheduler {
  import opened Basics

  /** `since` is how many passes had begun when the request was made. */
  datatype Request = Request(trigger: string, since: nat)

  datatype Settlement = Settlement(pass: nat, ok: bool)

  /**
   * The scheduler's own fields, and the history around them: requests made, the triggers each
   * pass began with, how many passes have ended, and how each request's promise settled.
   */
  datatype State = State(running: bool, currentWaiters: seq<nat>, nextWaiters: seq<nat>, nextTriggers: set<string>,
                         requests: seq<Request>, passes: seq<set<string>>, ended: nat, settled: map<nat, Settlement>)

  const IDLE := State(false, [], [], {}, [], [], 0, map[])

  datatype Event = Ask(trigger: string) | TaskEnds(ok: bool)

  /** `request`: start a pass when idle, otherwise wait for the next one. */
  function Requested(s: State, trigger: string): State {
    var id := |s.requests|;
    var t := s.(requests := s.requests + [Request(trigger, |s.passes|)]);
    if s.running then t.(nextWaiters := s.nextWaiters + [id], nextTriggers := s.nextTriggers + {trigger})
    else t.(running := true, currentWaiters := s.currentWaiters + [id], passes := s.passes + [{trigger}])
  }

  function SettleAll(settled: map<nat, Settlement>, waiters: seq<nat>, outcome: Settlement): map<nat, Settlement> {
    settled + map id | id in waiters :: outcome
  }

  lemma SettleNext(settled: map<nat, Settlement>, waiters: seq<nat>, i: nat, outcome: Settlement)
    requires i < |waiters|
    ensures SettleAll(settled, waiters[..i + 1], outcome) == SettleAll(settled, waiters[..i], outcome)[waiters[i] := outcome]
  {
    assert waiters[..i + 1] == waiters[..i] + [waiters[i]];
  }

  /** One turn of `pump`: settle this pass's waiters, then begin the follow-up pass if anyone waits for it. */
  function Ended(s: State, ok: bool): State {
    var t := s.(settled := SettleAll(s.settled, s.currentWaiters, Settlement(s.ended, ok)), ended := s.ended + 1);
    if s.nextWaiters == [] then t.(currentWaiters := [], running := false)
    else t.(currentWaiters := s.nextWaiters, nextWaiters := [], nextTriggers := {}, passes := s.passes + [s.nextTriggers])
  }

  function Step(s: State, e: Event): State {
    match e
    case Ask(trigger) => Requested(s, trigger)
    case TaskEnds(ok) => if s.running then Ended(s, ok) else s
  }

  function Run(events: seq<Event>): State {
    if events == [] then IDLE else Step(Run(events[..|events| - 1]), events[|events| - 1])
  }

  class CoalescingScheduler {
    var state: State

    constructor ()
      ensures state == IDLE
    {
      state := IDLE;
    }

    method Ask(trigger: string) returns (id: nat)
      modifies this
      ensures state == Requested(old(state), trigger) && id == |old(state).requests|
    {
      id := |state.requests|;
      var requests := state.requests + [Request(trigger, |state.passes|)];
      if state.running {
        state := state.(requests := requests, nextWaiters := state.nextWaiters + [id], nextTriggers := state.nextTriggers + {trigger});
        return;
      }
      state := state.(requests := requests, running := true, currentWaiters := state.currentWaiters + [id], passes := state.passes + [{trigger}]);
    }

    /** The part of `pump` that runs when its task has resolved or rejected. */
    method PassEnds(ok: bool)
      requires state.running
      modifies this
      ensures state == Ended(old(state), ok)
    {
      ghost var start := state;
      var settled := state.settled;
      for i := 0 to |state.currentWaiters|
        invariant state == start
        invariant settled == SettleAll(start.settled, start.currentWaiters[..i], Settlement(start.ended, ok))
      {
        SettleNext(start.settled, start.currentWaiters, i, Settlement(start.ended, ok));
        settled := settled[state.currentWaiters[i] := Settlement(state.ended, ok)];
      }
      assert start.currentWaiters[..|start.currentWaiters|] == start.currentWaiters;
      state := state.(settled := settled, ended := state.ended + 1);
      if state.nextWaiters == [] {
        state := state.(currentWaiters := [], running := false);
        return;
      }
      state := state.(currentWaiters := state.nextWaiters, nextWaiters := [], nextTriggers := {}, passes := state.passes + [state.nextTriggers]);
    }
  }

  // ---- Invariants ----

  /** The triggers of the requests made while exactly `p` passes had begun. */
  function TriggersOf(requests: seq<Request>, p: nat): set<string> {
    set i | 0 <= i < |requests| && requests[i].since == p :: requests[i].trigger
  }

  predicate Waits(s: State, id: nat) {
    id in s.currentWaiters || id in s.nextWaiters
  }

  /** At most one pass is in flight: every begun pass but possibly the last has ended. */
  predicate SingleFlight(s: State) {
    |s.passes| == s.ended + if s.running then 1 else 0
  }

  /** Every request waits or is settled, never both, and a settled one was served by the pass it was made for. */
  predicate Served(s: State) {
    && (forall id :: id in s.settled ==> id < |s.requests| && s.settled[id].pass == s.requests[id].since < s.ended)
    && (forall id :: 0 <= id < |s.requests| ==> (id in s.settled <==> !Waits(s, id)))
  }

  /** The waiters of the running pass were made for it, the others for the pass after it. */
  predicate Queued(s: State) {
    && (forall id :: id in s.currentWaiters ==> id < |s.requests| && s.requests[id].since == s.ended)
    && (forall id :: id in s.nextWaiters ==> id < |s.requests| && s.requests[id].since == s.ended + 1)
    && (!s.running ==> s.currentWaiters == [] && s.nextWaiters == [] && s.nextTriggers == {})
    && (s.nextWaiters == [] ==> s.nextTriggers == {})
  }

  predicate Triggered(s: State) {
    && (forall p :: 0 <= p < |s.passes| ==> s.passes[p] == TriggersOf(s.requests, p) != {})
    && s.nextTriggers == TriggersOf(s.requests, |s.passes|)
    && (forall id :: 0 <= id < |s.requests| ==> s.requests[id].since <= |s.passes|)
  }

  predicate Inv(s: State) {
    SingleFlight(s) && Served(s) && Queued(s) && Triggered(s)
  }

  lemma TriggersGrow(requests: seq<Request>, r: Request, p: nat)
    ensures TriggersOf(requests + [r], p) == TriggersOf(requests, p) + if r.since == p then {r.trigger} else {}
  {
    var all := requests + [r];
    forall t | t in TriggersOf(requests, p) ensures t in TriggersOf(all, p) {
      var i :| 0 <= i < |requests| && requests[i].since == p && requests[i].trigger == t;
      assert all[i] == requests[i];
    }
    if r.since == p { assert all[|requests|].trigger in TriggersOf(all, p); }
  }

  lemma RequestKeepsInv(s: State, trigger: string)
    requires Inv(s)
    ensures Inv(Requested(s, trigger))
  {
    var t := Requested(s, trigger);
    RequestKeepsTriggers(s, trigger);
    assert forall id :: 0 <= id < |s.requests| ==> t.requests[id] == s.requests[id];
    assert |s.requests| !in s.settled;
    assert Served(t) by {
      assert forall id :: 0 <= id < |s.requests| ==> (Waits(t, id) <==> Waits(s, id));
      assert Waits(t, |s.requests|);
    }
  }

  lemma RequestKeepsTriggers(s: State, trigger: string)
    requires Inv(s)
    ensures Triggered(Requested(s, trigger))
  {
    var t := Requested(s, trigger);
    var r := Request(trigger, |s.passes|);
    forall p: nat ensures TriggersOf(t.requests, p) == TriggersOf(s.requests, p) + if r.since == p then {trigger} else {} {
      TriggersGrow(s.requests, r, p);
    }
    assert forall id :: 0 <= id < |s.requests| ==> t.requests[id] == s.requests[id];
    NothingAsked(s.requests, |s.passes| + 1);
  }

  lemma NothingAsked(requests: seq<Request>, p: nat)
    requires forall i :: 0 <= i < |requests| ==> requests[i].since < p
    ensures TriggersOf(requests, p) == {}
  {
  }

  lemma EndKeepsInv(s: State, ok: bool)
    requires Inv(s) && s.running
    ensures Inv(Ended(s, ok))
  {
    var t := Ended(s, ok);
    if s.nextWaiters != [] {
      var id := s.nextWaiters[0];
      assert id in s.nextWaiters;
      assert s.requests[id].trigger in TriggersOf(s.requests, |s.passes|);
      NothingAsked(s.requests, |t.passes|);
    }
    forall id | 0 <= id < |s.requests| ensures id in t.settled <==> !Waits(t, id) {
      assert id in s.settled <==> !Waits(s, id);
      if id in s.currentWaiters { assert id !in s.nextWaiters; }
    }
    assert Triggered(t);
  }

  lemma {:induction false} RunKeepsInv(events: seq<Event>)
    ensures Inv(Run(events))
  {
    if events == [] {
      NothingAsked([], 0);
    } else {
      var s := Run(events[..|events| - 1]);
      RunKeepsInv(events[..|events| - 1]);
      match events[|events| - 1]
      case Ask(trigger) => RequestKeepsInv(s, trigger);
      case TaskEnds(ok) => if s.running { EndKeepsInv(s, ok); }
    }
  }

  /** A settled promise never settles again, and never differently. */
  lemma {:induction false} SettledForGood(events: seq<Event>, e: Event, id: nat)
    requires id in Run(events).settled
    ensures id in Step(Run(events), e).settled && Step(Run(events), e).settled[id] == Run(events).settled[id]
  {
    RunKeepsInv(events);
    assert !Waits(Run(events), id);
  }

  /**
   * Over every interleaving passes never overlap; a request is served by the first pass to begin
   * at or after it, so all requests made during one pass share exactly one follow-up; and that
   * pass carries exactly the union of their triggers.
   */
  lemma CoalescedService(events: seq<Event>)
    ensures var s := Run(events);
      && s.ended <= |s.passes| <= s.ended + 1
      && (forall id :: id in s.settled ==> id < |s.requests| && s.settled[id].pass == s.requests[id].since)
      && (forall p :: 0 <= p < |s.passes| ==> s.passes[p] == TriggersOf(s.requests, p))
      && (!s.running ==> forall id :: 0 <= id < |s.requests| ==> id in s.settled)
  {
    RunKeepsInv(events);
    var s := Run(events);
    if !s.running {
      forall id | 0 <= id < |s.requests| ensures id in s.settled { assert !Waits(s, id); }
    }
  }

  /** Every request is settled after the current pass and at most one more. */
  lemma TwoPassesServeEveryone(events: seq<Event>, first: bool, second: bool, id: nat)
    requires id < |Run(events).requests|
    ensures id in Step(Step(Run(events), TaskEnds(first)), TaskEnds(second)).settled
  {
    var s := Run(events);
    RunKeepsInv(events);
    if s.running {
      EndKeepsInv(s, first);
    }
    assert id in s.settled <==> !Waits(s, id);
  }
}
