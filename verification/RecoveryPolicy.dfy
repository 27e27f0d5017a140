/** Reading a crashed job's journal: executor/recovery.ts, executor/recovery-nonce.ts, executor/store.ts. */
module RecoveryPolicy {
  import opened Basics

  datatype FactState = Confirmed | Reverted | Pending | Absent | Ambiguous

  datatype Fact = Fact(step: nat, state: FactState)

  datatype Disposition = RestartSafe | ResumeCollect | ResumeFromWallet | ResumeStakingExit
                       | ResumeRevoke | CommitReady | WaitPending | ManualReview

  predicate Has(facts: seq<Fact>, state: FactState, lo: nat, hi: nat) {
    exists i :: 0 <= i < |facts| && facts[i].state == state && lo <= facts[i].step <= hi
  }

  predicate HasState(facts: seq<Fact>, state: FactState) {
    exists i :: 0 <= i < |facts| && facts[i].state == state
  }

  function Classify(facts: seq<Fact>, confirmedSteps: set<nat>): Disposition {
    if HasState(facts, Ambiguous) then ManualReview
    else if HasState(facts, Pending) then WaitPending
    else if Has(facts, Confirmed, 8, 8) then if 9 in confirmedSteps && 10 in confirmedSteps then CommitReady else ResumeRevoke
    else if Has(facts, Confirmed, 2, 7) then ResumeFromWallet
    else if Has(facts, Confirmed, 1, 1) then ResumeCollect
    else if Has(facts, Confirmed, 12, 14) then ResumeStakingExit
    else RestartSafe
  }

  // ---- Facts that only the account nonce can settle ----

  function ClassifyMissing(nonce: int, latest: int, pending: int, localReplacement: bool): FactState {
    if latest > nonce then Absent
    else if pending <= nonce then Absent
    else if localReplacement then Absent
    else Ambiguous
  }

  /**
   * An account's confirmed transactions, oldest first: transaction k carries nonce k, so `latest`
   * is their number and each nonce is consumed once (Ethereum Yellow Paper, section 6).
   */
  type Chain = seq<nat>

  predicate Includes(chain: Chain, hash: nat, nonce: nat) {
    nonce < |chain| && chain[nonce] == hash
  }

  predicate Extends(later: Chain, earlier: Chain) {
    earlier <= later
  }

  /**
   * A tracked transaction that is missing while `latest` has passed its nonce can never confirm
   * in any continuation of the chain, and a consumed nonce is always judged absent.
   */
  lemma ConsumedNonceIsFinal(chain: Chain, later: Chain, hash: nat, nonce: nat, pending: nat, replacement: bool)
    requires |chain| > nonce && !Includes(chain, hash, nonce) && Extends(later, chain)
    ensures ClassifyMissing(nonce, |chain|, pending, replacement) == Absent
    ensures !Includes(later, hash, nonce)
  {
    assert later[nonce] == chain[nonce];
  }

  /** A missing transaction can still confirm exactly while its nonce has not been consumed. */
  lemma CanConfirmIffUnconsumed(chain: Chain, hash: nat, nonce: nat)
    requires !Includes(chain, hash, nonce)
    ensures (exists later: Chain :: Extends(later, chain) && Includes(later, hash, nonce)) <==> |chain| <= nonce
  {
    if |chain| <= nonce {
      ExtendWith(chain, hash, nonce);
    } else {
      forall later: Chain | Extends(later, chain) ensures !Includes(later, hash, nonce) {
        ConsumedNonceIsFinal(chain, later, hash, nonce, 0, false);
      }
    }
  }

  lemma ExtendWith(chain: Chain, hash: nat, nonce: nat)
    requires |chain| <= nonce
    ensures exists later: Chain :: Extends(later, chain) && Includes(later, hash, nonce)
  {
    var filler := seq(nonce - |chain|, _ => 0);
    var later := chain + filler + [hash];
    assert later[nonce] == hash;
    assert Extends(later, chain) && Includes(later, hash, nonce);
  }

  /**
   * `ambiguous` is said only while the chain has not decided: the tracked transaction may still
   * confirm, and so may another one on its nonce, after which it never can. Conversely an
   * undecided nonce that some pending transaction has taken is called absent only when a
   * confirmed local replacement is known.
   */
  lemma AmbiguousIsUndecided(chain: Chain, hash: nat, other: nat, nonce: nat, pending: nat, replacement: bool)
    requires !Includes(chain, hash, nonce) && other != hash
    ensures ClassifyMissing(nonce, |chain|, pending, replacement) == Ambiguous ==>
      && (exists later: Chain :: Extends(later, chain) && Includes(later, hash, nonce))
      && (exists later: Chain :: Extends(later, chain) && Includes(later, other, nonce)
           && forall after: Chain :: Extends(after, later) ==> !Includes(after, hash, nonce))
    ensures (exists later: Chain :: Extends(later, chain) && Includes(later, hash, nonce)) && pending > nonce ==>
      (ClassifyMissing(nonce, |chain|, pending, replacement) == Ambiguous <==> !replacement)
  {
    CanConfirmIffUnconsumed(chain, hash, nonce);
    if ClassifyMissing(nonce, |chain|, pending, replacement) == Ambiguous {
      ExtendWith(chain, other, nonce);
      var later: Chain :| Extends(later, chain) && Includes(later, other, nonce);
      forall after: Chain | Extends(after, later) ensures !Includes(after, hash, nonce) {
        ConsumedNonceIsFinal(later, after, hash, nonce, pending, replacement);
      }
    }
  }

  // ---- Slot numbers ----

  datatype SlotState = Sending | Sent | SlotConfirmed | SlotFailed

  datatype Slot = Slot(index: nat, state: SlotState)

  /** One row per index. */
  predicate UniqueSlots(rows: seq<Slot>) {
    forall i, j :: 0 <= i < j < |rows| ==> rows[i].index != rows[j].index
  }

  predicate Unfinished(s: Slot) {
    s.state.Sending? || s.state.SlotFailed?
  }

  /**
   * `nextTransactionIndex` for one step: the lowest unfinished slot is reused; otherwise the
   * next index lies beyond every row. A confirmed or merely sent slot is never handed out.
   */
  method NextTransactionIndex(rows: seq<Slot>) returns (n: nat)
    requires UniqueSlots(rows)
    ensures forall i :: 0 <= i < |rows| && rows[i].index == n ==> Unfinished(rows[i])
    ensures forall i :: 0 <= i < |rows| && Unfinished(rows[i]) ==> n <= rows[i].index
    ensures (forall i :: 0 <= i < |rows| ==> !Unfinished(rows[i])) ==> forall i :: 0 <= i < |rows| ==> rows[i].index < n
  {
    var unfinished: Option<nat> := None;
    var next: nat := 0;
    for i := 0 to |rows|
      invariant unfinished.None? ==> forall k :: 0 <= k < i ==> !Unfinished(rows[k])
      invariant unfinished.Some? ==> exists k :: 0 <= k < i && Unfinished(rows[k]) && rows[k].index == unfinished.value
      invariant unfinished.Some? ==> forall k :: 0 <= k < i && Unfinished(rows[k]) ==> unfinished.value <= rows[k].index
      invariant forall k :: 0 <= k < i ==> rows[k].index < next
    {
      if Unfinished(rows[i]) && (unfinished.None? || rows[i].index < unfinished.value) { unfinished := Some(rows[i].index); }
      if rows[i].index >= next { next := rows[i].index + 1; }
    }
    n := if unfinished.Some? then unfinished.value else next;
  }
}
