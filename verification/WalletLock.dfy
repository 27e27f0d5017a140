/** The in-process wallet lock of executor/wallet-lock.ts: one promise tail per wallet. */
module WalletLock {
  import opened Basics

  type Wallet = nat

  datatype Phase = Waiting | Inside | Released(ok: bool)

  /** A call to `withWalletLock`, numbered by the order of the calls; `previous` is the tail it chained to. */
  datatype Call = Call(wallet: Wallet, previous: Option<nat>, phase: Phase)

  datatype State = State(calls: seq<Call>, tails: map<Wallet, nat>)

  const EMPTY := State([], map[])

  /** A tail resolves when its own call has released and the tail before it has resolved. */
  predicate Resolved(calls: seq<Call>, tail: Option<nat>)
    decreases if tail.Some? then tail.value + 1 else 0
  {
    if tail.None? then true
    else
      && tail.value < |calls| && calls[tail.value].phase.Released?
      && match calls[tail.value].previous
         case None => true
         case Some(p) => p < tail.value && Resolved(calls, Some(p))
  }

  datatype Event = Enter(wallet: Wallet) | Begin(call: nat) | Finish(call: nat, ok: bool)

  predicate Busy(s: State, w: Wallet) {
    w in s.tails
  }

  /** The synchronous prefix of `withWalletLock`, the moment its await returns, and its finally block. */
  function Step(s: State, e: Event): State {
    match e
    case Enter(w) =>
      var previous := if w in s.tails then Some(s.tails[w]) else None;
      State(s.calls + [Call(w, previous, Waiting)], s.tails[w := |s.calls|])
    case Begin(i) =>
      if i < |s.calls| && s.calls[i].phase.Waiting? && Resolved(s.calls, s.calls[i].previous)
      then s.(calls := s.calls[i := s.calls[i].(phase := Inside)]) else s
    case Finish(i, ok) =>
      if i < |s.calls| && s.calls[i].phase.Inside? then
        var w := s.calls[i].wallet;
        State(s.calls[i := s.calls[i].(phase := Released(ok))], if w in s.tails && s.tails[w] == i then s.tails - {w} else s.tails)
      else s
  }

  function Run(events: seq<Event>): State {
    if events == [] then EMPTY else Step(Run(events[..|events| - 1]), events[|events| - 1])
  }

  class WalletLocks {
    var calls: seq<Call>
    var tails: map<Wallet, nat>

    function Now(): State
      reads this
    {
      State(calls, tails)
    }

    constructor ()
      ensures Now() == EMPTY
    {
      calls, tails := [], map[];
    }

    method Enter(w: Wallet) returns (id: nat)
      modifies this
      ensures Now() == Step(old(Now()), Event.Enter(w)) && id == |old(calls)|
    {
      id := |calls|;
      var previous := if w in tails then Some(tails[w]) else None;
      calls := calls + [Call(w, previous, Waiting)];
      tails := tails[w := id];
    }

    /** The finally block: release, and forget the wallet when no later call has chained itself. */
    method Release(id: nat, ok: bool)
      requires id < |calls| && calls[id].phase.Inside?
      modifies this
      ensures Now() == Step(old(Now()), Finish(id, ok))
    {
      var w := calls[id].wallet;
      calls := calls[id := calls[id].(phase := Released(ok))];
      if w in tails && tails[w] == id { tails := tails - {w}; }
    }
  }

  // ---- Invariants ----

  /** All calls on the wallet below this number have released. */
  predicate AllReleased(calls: seq<Call>, w: Wallet, below: nat) {
    forall j :: 0 <= j < |calls| && j < below && calls[j].wallet == w ==> calls[j].phase.Released?
  }

  predicate NoneBetween(calls: seq<Call>, w: Wallet, lo: nat, hi: nat) {
    forall j :: lo < j < hi && j < |calls| ==> calls[j].wallet != w
  }

  /** A call chains to the latest earlier call on its wallet, or to nothing when all of those had released. */
  predicate Chained(calls: seq<Call>, i: nat)
    requires i < |calls|
  {
    match calls[i].previous
    case Some(p) => p < i && calls[p].wallet == calls[i].wallet && NoneBetween(calls, calls[i].wallet, p, i)
    case None => AllReleased(calls, calls[i].wallet, i)
  }

  /** The tail of a wallet is its latest call, still unreleased. */
  predicate TailIsLatest(s: State, w: Wallet)
    requires w in s.tails
  {
    var k := s.tails[w];
    k < |s.calls| && s.calls[k].wallet == w && !s.calls[k].phase.Released? && NoneBetween(s.calls, w, k, |s.calls|)
  }

  ghost predicate Inv(s: State) {
    && (forall i :: 0 <= i < |s.calls| ==> Chained(s.calls, i))
    && (forall i :: 0 <= i < |s.calls| && !s.calls[i].phase.Waiting? ==> AllReleased(s.calls, s.calls[i].wallet, i))
    && (forall w :: w in s.tails ==> TailIsLatest(s, w))
    && (forall w :: w !in s.tails ==> AllReleased(s.calls, w, |s.calls|))
  }

  /** A resolved tail means that every call up to it on that wallet has released. */
  lemma {:induction false} ResolvedMeansReleased(s: State, p: nat)
    requires Inv(s) && Resolved(s.calls, Some(p))
    ensures AllReleased(s.calls, s.calls[p].wallet, p + 1)
    decreases p
  {
    assert Chained(s.calls, p);
    if s.calls[p].previous.Some? { ResolvedMeansReleased(s, s.calls[p].previous.value); }
  }

  lemma EnterKeepsInv(s: State, w: Wallet)
    requires Inv(s)
    ensures Inv(Step(s, Enter(w)))
  {
    var t := Step(s, Enter(w));
    var n := |s.calls|;
    if w in s.tails { assert TailIsLatest(s, w); }
    assert forall j :: 0 <= j < n ==> t.calls[j] == s.calls[j];
    forall i | 0 <= i < |t.calls| ensures Chained(t.calls, i) { if i < n { assert Chained(s.calls, i); } }
    forall x | x in t.tails ensures TailIsLatest(t, x) { if x != w { assert TailIsLatest(s, x); } }
    forall x | x !in t.tails ensures AllReleased(t.calls, x, |t.calls|) { assert AllReleased(s.calls, x, n); }
    forall i | 0 <= i < |t.calls| && !t.calls[i].phase.Waiting? ensures AllReleased(t.calls, t.calls[i].wallet, i) {
      assert AllReleased(s.calls, s.calls[i].wallet, i);
    }
  }

  /** Moving one call on to its next phase keeps the chain and everything already released. */
  lemma PhaseKeepsChain(s: State, i: nat, phase: Phase, calls: seq<Call>)
    requires Inv(s) && i < |s.calls| && !s.calls[i].phase.Released? && calls == s.calls[i := s.calls[i].(phase := phase)]
    ensures forall k :: 0 <= k < |calls| ==> Chained(calls, k)
    ensures forall w, below :: AllReleased(s.calls, w, below) ==> AllReleased(calls, w, below)
  {
    forall k | 0 <= k < |calls| ensures Chained(calls, k) { assert Chained(s.calls, k); }
  }

  lemma BeginKeepsInv(s: State, i: nat)
    requires Inv(s)
    ensures Inv(Step(s, Begin(i)))
  {
    var t := Step(s, Begin(i));
    if t != s {
      PhaseKeepsChain(s, i, Inside, t.calls);
      assert Chained(s.calls, i);
      if s.calls[i].previous.Some? { ResolvedMeansReleased(s, s.calls[i].previous.value); }
      assert AllReleased(s.calls, s.calls[i].wallet, i);
      forall w | w in t.tails ensures TailIsLatest(t, w) { assert TailIsLatest(s, w); }
    }
  }

  lemma FinishKeepsInv(s: State, i: nat, ok: bool)
    requires Inv(s)
    ensures Inv(Step(s, Finish(i, ok)))
  {
    var t := Step(s, Finish(i, ok));
    if t != s {
      PhaseKeepsChain(s, i, Released(ok), t.calls);
      var w := s.calls[i].wallet;
      assert AllReleased(s.calls, w, i);
      forall x | x in t.tails ensures TailIsLatest(t, x) { assert TailIsLatest(s, x); }
      forall x | x !in t.tails ensures AllReleased(t.calls, x, |t.calls|) {
        if x in s.tails { assert TailIsLatest(s, x) && x == w && s.tails[x] == i; } else { assert AllReleased(s.calls, x, |s.calls|); }
      }
    }
  }

  lemma {:induction false} RunKeepsInv(events: seq<Event>)
    ensures Inv(Run(events))
  {
    if events != [] {
      var s := Run(events[..|events| - 1]);
      RunKeepsInv(events[..|events| - 1]);
      match events[|events| - 1]
      case Enter(w) => EnterKeepsInv(s, w);
      case Begin(i) => BeginKeepsInv(s, i);
      case Finish(i, ok) => FinishKeepsInv(s, i, ok);
    }
  }

  /**
   * Over every interleaving of calls, failures and releases: at most one task per wallet is
   * inside, and a task gets in only after every earlier call on its wallet has released.
   */
  lemma MutualExclusionInCallOrder(events: seq<Event>, i: nat, j: nat)
    requires i < j < |Run(events).calls| && Run(events).calls[i].wallet == Run(events).calls[j].wallet
    ensures !Run(events).calls[j].phase.Waiting? ==> Run(events).calls[i].phase.Released?
    ensures !(Run(events).calls[i].phase.Inside? && Run(events).calls[j].phase.Inside?)
  {
    RunKeepsInv(events);
    if !Run(events).calls[j].phase.Waiting? { assert AllReleased(Run(events).calls, Run(events).calls[j].wallet, j); }
  }

  /** The map has an entry for a wallet exactly when some call on it has not released. */
  lemma BusyIffUnreleased(events: seq<Event>, w: Wallet)
    ensures var s := Run(events);
      Busy(s, w) <==> exists i :: 0 <= i < |s.calls| && s.calls[i].wallet == w && !s.calls[i].phase.Released?
  {
    RunKeepsInv(events);
    var s := Run(events);
    if Busy(s, w) { assert TailIsLatest(s, w); } else { assert AllReleased(s.calls, w, |s.calls|); }
  }

  /** A wallet never gets stuck: its earliest waiting call may begin once all earlier ones have released, failed or not. */
  lemma NextMayBegin(s: State, i: nat)
    requires Inv(s) && i < |s.calls| && s.calls[i].phase.Waiting? && AllReleased(s.calls, s.calls[i].wallet, i)
    ensures Step(s, Begin(i)).calls[i].phase.Inside?
  {
    assert Chained(s.calls, i);
    if s.calls[i].previous.Some? { ReleasedMeansResolved(s, s.calls[i].previous.value); }
  }

  lemma {:induction false} ReleasedMeansResolved(s: State, p: nat)
    requires Inv(s) && p < |s.calls| && AllReleased(s.calls, s.calls[p].wallet, p + 1)
    ensures Resolved(s.calls, Some(p))
    decreases p
  {
    assert Chained(s.calls, p);
    if s.calls[p].previous.Some? { ReleasedMeansResolved(s, s.calls[p].previous.value); }
  }
}
