/**
 * One Fables job: its stages, its transaction journal and the guards that protect it
 * (executor/fablesJobs.ts, executor/fablesRunner.ts, executor/fablesSigner.ts, executor/fablesRecovery.ts).
 */
module FablesJob {
  import opened Basics

  datatype Stage = Precheck | Exit | Claim | Balance | FeeApproval | FeeConversion
                 | SwapApproval | Swap | DepositApproval | Deposit | Verify

  datatype JobState = Planned | Running | Recovery | Completed | Failed | Cancelled

  datatype TxState = Sending | Sent | Confirmed | Reverted | Reviewed

  /** `gas` holds gasUsed and gasPrice once a receipt is final. */
  datatype Tx = Tx(ordinal: nat, stage: Stage, state: TxState, hash: nat, gas: Option<(nat, nat)>)

  /** The runner's position inside one locked pass over the job; lost by a crash. */
  datatype Proc = Out | Busy | Waiting(at: nat)

  datatype Job = Job(state: JobState, stage: Stage, txs: seq<Tx>, proc: Proc)

  const CREATED := Job(Planned, Precheck, [], Out)

  predicate Open(j: Job) {
    j.state.Planned? || j.state.Running? || j.state.Recovery?
  }

  predicate Unresolved(t: Tx) {
    t.state.Sending? || t.state.Sent?
  }

  predicate NoneUnresolved(txs: seq<Tx>) {
    forall i :: 0 <= i < |txs| ==> !Unresolved(txs[i])
  }

  predicate Approval(s: Stage) {
    s.FeeApproval? || s.SwapApproval? || s.DepositApproval?
  }

  const APPROVAL_LIMIT := 8

  /** How many transactions of a stage may ever take effect. */
  function Limit(s: Stage): nat {
    if s.Exit? || s.Claim? || s.FeeConversion? || s.Swap? || s.Deposit? then 1
    else if Approval(s) then APPROVAL_LIMIT
    else 0
  }

  function Count(txs: seq<Tx>, s: Stage, keep: Tx -> bool): nat {
    if txs == [] then 0
    else Count(txs[..|txs| - 1], s, keep) + if txs[|txs| - 1].stage == s && keep(txs[|txs| - 1]) then 1 else 0
  }

  function IsConfirmed(): Tx -> bool { (t: Tx) => t.state.Confirmed? }

  /** Confirmed, or signed and still able to confirm. */
  function IsEffective(): Tx -> bool { (t: Tx) => t.state.Confirmed? || Unresolved(t) }

  function ConfirmedAt(j: Job, s: Stage): nat { Count(j.txs, s, IsConfirmed()) }
  function EffectiveAt(j: Job, s: Stage): nat { Count(j.txs, s, IsEffective()) }

  /** Stage changes the runner may write, with what the journal must show first. */
  predicate MayAdvance(j: Job, to: Stage) {
    match j.stage
    case Precheck => to.Exit?
    case Exit => to.Claim? && ConfirmedAt(j, Exit) > 0
    case Claim => to.Balance?
    case Balance => to.FeeApproval? || to.SwapApproval? || to.DepositApproval?
    case FeeApproval => to.FeeConversion?
    case FeeConversion => if ConfirmedAt(j, FeeConversion) > 0 then to.Balance? else to.FeeApproval?
    case SwapApproval => to.Swap?
    case Swap => if ConfirmedAt(j, Swap) > 0 then to.DepositApproval? else to.Balance? || to.SwapApproval?
    case DepositApproval => to.Deposit?
    case Deposit => if ConfirmedAt(j, Deposit) > 0 then to.Verify? else to.DepositApproval?
    case Verify => false
  }

  /** A stage only sends while its budget lasts: once for a mutation, eight confirmed times for an approval. */
  predicate MaySend(j: Job, ordinal: nat, hash: nat) {
    && (forall i :: 0 <= i < |j.txs| ==> j.txs[i].ordinal != ordinal && j.txs[i].hash != hash)
    && (forall i :: 0 <= i < |j.txs| && Unresolved(j.txs[i]) ==> j.txs[i].stage != j.stage)
    && ConfirmedAt(j, j.stage) < Limit(j.stage)
  }

  datatype Event =
    | Enter(review: bool)                                // reconciled; review: the error needs a human first
    | Advance(to: Stage)
    | Intent(ordinal: nat, hash: nat)                    // durable before the first broadcast
    | BroadcastOk
    | Settle(at: nat, success: bool, gas: (nat, nat))    // a final receipt, live or while reconciling
    | Raise                                              // any error of the running pass
    | Crash
    | Quarantine                                         // restart after a crash
    | Rebroadcast(at: nat)
    | Resume                                             // operator
    | FailBeforeMutation
    | CancelBackInRange
    | Complete

  function SetTx(j: Job, i: nat, t: Tx): Job
    requires i < |j.txs|
  {
    j.(txs := j.txs[i := t])
  }

  function ReviewAll(txs: seq<Tx>): (r: seq<Tx>)
    ensures |r| == |txs|
  {
    seq(|txs|, i requires 0 <= i < |txs| => if txs[i].state.Reverted? then txs[i].(state := Reviewed) else txs[i])
  }

  /** A receipt's verdict with its gas facts; a live reverted receipt also ends the pass. */
  function SettleTx(j: Job, i: nat, success: bool, gas: (nat, nat)): Job
    requires i < |j.txs|
  {
    var k := SetTx(j, i, j.txs[i].(state := if success then Confirmed else Reverted, gas := Some(gas)));
    if j.proc != Waiting(i) then k
    else if success then k.(proc := Busy)
    else k.(proc := Out, state := Recovery)
  }

  /** An event whose guard fails changes nothing. */
  function Step(j: Job, e: Event): Job {
    match e
    case Enter(review) =>
      if Open(j) && j.proc.Out? then
        if !NoneUnresolved(j.txs) then j.(state := Recovery)
        else if exists i :: 0 <= i < |j.txs| && j.txs[i].state.Reverted? then j.(state := Recovery)
        else if j.state.Recovery? && review then j
        else j.(state := Running, proc := Busy)
      else j
    case Advance(to) => if j.state.Running? && j.proc.Busy? && MayAdvance(j, to) then j.(stage := to) else j
    case Intent(ordinal, hash) =>
      if j.state.Running? && j.proc.Busy? && MaySend(j, ordinal, hash)
      then j.(txs := j.txs + [Tx(ordinal, j.stage, Sending, hash, None)], proc := Waiting(|j.txs|)) else j
    case BroadcastOk =>
      if j.proc.Waiting? && j.proc.at < |j.txs| && j.txs[j.proc.at].state.Sending?
      then SetTx(j, j.proc.at, j.txs[j.proc.at].(state := Sent)) else j
    case Settle(i, success, gas) => if i < |j.txs| && Unresolved(j.txs[i]) && (j.proc.Out? || j.proc == Waiting(i)) then SettleTx(j, i, success, gas) else j
    case Raise => if Open(j) && !j.proc.Out? then j.(state := Recovery, proc := Out) else j
    case Crash => j.(proc := Out)
    case Quarantine => if j.state.Running? && j.proc.Out? then j.(state := Recovery) else j
    case Rebroadcast(i) =>
      if j.state.Recovery? && i < |j.txs| && Unresolved(j.txs[i]) then SetTx(j, i, j.txs[i].(state := Sent)) else j
    case Resume =>
      if j.state.Recovery? && j.proc.Out? && NoneUnresolved(j.txs) then j.(state := Running, txs := ReviewAll(j.txs)) else j
    case FailBeforeMutation =>
      if Open(j) && NoneUnresolved(j.txs) && forall i :: 0 <= i < |j.txs| && j.txs[i].state.Confirmed? ==> Approval(j.txs[i].stage)
      then j.(state := Failed, proc := Out) else j
    case CancelBackInRange =>
      if Open(j) && j.stage.Precheck? && j.txs == [] then j.(state := Cancelled, proc := Out) else j
    case Complete =>
      if (j.state.Running? || j.state.Recovery?) && j.stage.Verify? && NoneUnresolved(j.txs) then j.(state := Completed, proc := Out) else j
  }

  function Run(events: seq<Event>): Job {
    if events == [] then CREATED else Step(Run(events[..|events| - 1]), events[|events| - 1])
  }

  // ---- Counting ----

  lemma {:induction false} CountAfterReplace(txs: seq<Tx>, i: nat, t: Tx, s: Stage, keep: Tx -> bool)
    requires i < |txs|
    ensures Count(txs[i := t], s, keep)
      == Count(txs, s, keep) - (if txs[i].stage == s && keep(txs[i]) then 1 else 0) + if t.stage == s && keep(t) then 1 else 0
  {
    var n := |txs| - 1;
    if i == n {
      assert txs[i := t][..n] == txs[..n];
    } else {
      assert txs[i := t][..n] == txs[..n][i := t];
      CountAfterReplace(txs[..n], i, t, s, keep);
    }
  }

  lemma {:induction false} CountSame(a: seq<Tx>, b: seq<Tx>, s: Stage, keep: Tx -> bool)
    requires |a| == |b| && forall i :: 0 <= i < |a| ==> a[i].stage == b[i].stage && keep(a[i]) == keep(b[i])
    ensures Count(a, s, keep) == Count(b, s, keep)
  {
    if a != [] { CountSame(a[..|a| - 1], b[..|b| - 1], s, keep); }
  }

  /** With nothing unresolved in a stage, what can take effect there is what has confirmed. */
  lemma {:induction false} EffectiveIsConfirmed(txs: seq<Tx>, s: Stage)
    requires forall i :: 0 <= i < |txs| && txs[i].stage == s ==> !Unresolved(txs[i])
    ensures Count(txs, s, IsEffective()) == Count(txs, s, IsConfirmed())
  {
    CountSameAt(txs, s, IsEffective(), IsConfirmed());
  }

  lemma {:induction false} CountSameAt(txs: seq<Tx>, s: Stage, p: Tx -> bool, q: Tx -> bool)
    requires forall i :: 0 <= i < |txs| && txs[i].stage == s ==> p(txs[i]) == q(txs[i])
    ensures Count(txs, s, p) == Count(txs, s, q)
  {
    if txs != [] { CountSameAt(txs[..|txs| - 1], s, p, q); }
  }

  lemma {:induction false} CountWithin(txs: seq<Tx>, s: Stage)
    ensures Count(txs, s, IsConfirmed()) <= Count(txs, s, IsEffective())
  {
    if txs != [] { CountWithin(txs[..|txs| - 1], s); }
  }

  // ---- The invariant ----

  predicate WithinBudget(j: Job, s: Stage) {
    EffectiveAt(j, s) <= Limit(s)
  }

  ghost predicate AllWithinBudget(j: Job) {
    forall s: Stage :: WithinBudget(j, s)
  }

  /** Having left the exit stage takes exactly one confirmed exit, reaching verify one confirmed deposit. */
  predicate StageEarned(j: Job) {
    && (j.stage.Precheck? ==> j.txs == [])
    && (!j.stage.Precheck? && !j.stage.Exit? ==> ConfirmedAt(j, Exit) == 1)
    && (j.stage.Verify? ==> ConfirmedAt(j, Deposit) == 1)
  }

  predicate JournalSound(j: Job) {
    && (forall i, k :: 0 <= i < k < |j.txs| ==> j.txs[i].ordinal != j.txs[k].ordinal && j.txs[i].hash != j.txs[k].hash)
    && (forall i :: 0 <= i < |j.txs| ==> (Unresolved(j.txs[i]) <==> j.txs[i].gas.None?))
  }

  predicate ProcSound(j: Job) {
    && (!j.proc.Out? ==> j.state.Running?)
    && (j.proc.Busy? ==> NoneUnresolved(j.txs))
    && (j.proc.Waiting? ==> j.proc.at < |j.txs| && Unresolved(j.txs[j.proc.at]))
    && (j.proc.Waiting? ==> forall i :: 0 <= i < |j.txs| && i != j.proc.at ==> !Unresolved(j.txs[i]))
  }

  /** What the final state of a job says about its transactions. */
  predicate ClosedTellsTruth(j: Job) {
    && (j.state.Cancelled? ==> j.txs == [])
    && (j.state.Failed? ==> NoneUnresolved(j.txs) && forall i :: 0 <= i < |j.txs| && j.txs[i].state.Confirmed? ==> Approval(j.txs[i].stage))
    && (j.state.Completed? ==> NoneUnresolved(j.txs) && ConfirmedAt(j, Exit) == 1 && ConfirmedAt(j, Deposit) == 1)
  }

  ghost predicate Inv(j: Job) {
    AllWithinBudget(j) && StageEarned(j) && JournalSound(j) && ProcSound(j) && ClosedTellsTruth(j)
  }

  lemma BudgetBoundsConfirmed(j: Job, s: Stage)
    requires AllWithinBudget(j)
    ensures ConfirmedAt(j, s) <= Limit(s)
  {
    assert WithinBudget(j, s);
    CountWithin(j.txs, s);
  }

  lemma AdvanceKeepsInv(j: Job, to: Stage)
    requires Inv(j)
    ensures Inv(Step(j, Advance(to)))
  {
    var k := Step(j, Advance(to));
    forall s: Stage ensures WithinBudget(k, s) { assert WithinBudget(j, s); }
    BudgetBoundsConfirmed(j, Exit);
    BudgetBoundsConfirmed(j, Deposit);
  }

  lemma IntentKeepsInv(j: Job, ordinal: nat, hash: nat)
    requires Inv(j)
    ensures Inv(Step(j, Intent(ordinal, hash)))
  {
    var k := Step(j, Intent(ordinal, hash));
    if k != j {
      assert k.txs[..|j.txs|] == j.txs;
      EffectiveIsConfirmed(j.txs, j.stage);
      forall s: Stage ensures WithinBudget(k, s) { assert WithinBudget(j, s); }
    }
  }

  /** Replacing one transaction by a later state of itself keeps budgets, earned stages and the journal. */
  lemma ReplaceKeeps(j: Job, i: nat, t: Tx)
    requires Inv(j) && i < |j.txs| && Unresolved(j.txs[i])
    requires t.stage == j.txs[i].stage && t.ordinal == j.txs[i].ordinal && t.hash == j.txs[i].hash && (Unresolved(t) <==> t.gas.None?)
    ensures AllWithinBudget(SetTx(j, i, t)) && StageEarned(SetTx(j, i, t)) && JournalSound(SetTx(j, i, t))
  {
    var k := SetTx(j, i, t);
    forall s: Stage ensures WithinBudget(k, s) {
      assert WithinBudget(j, s);
      CountAfterReplace(j.txs, i, t, s, IsEffective());
    }
    CountAfterReplace(j.txs, i, t, Exit, IsConfirmed());
    CountAfterReplace(j.txs, i, t, Deposit, IsConfirmed());
    BudgetBoundsConfirmed(k, Exit);
    BudgetBoundsConfirmed(k, Deposit);
  }

  lemma SettleKeepsInv(j: Job, i: nat, success: bool, gas: (nat, nat))
    requires Inv(j)
    ensures Inv(Step(j, Settle(i, success, gas)))
  {
    var k := Step(j, Settle(i, success, gas));
    if k != j {
      ReplaceKeeps(j, i, k.txs[i]);
      SameJournalSameBudget(SetTx(j, i, k.txs[i]), k);
    }
  }

  lemma SameJournalSameBudget(j: Job, k: Job)
    requires AllWithinBudget(j) && StageEarned(j) && JournalSound(j) && k.txs == j.txs && k.stage == j.stage
    ensures AllWithinBudget(k) && StageEarned(k) && JournalSound(k)
  {
    forall s: Stage ensures WithinBudget(k, s) { assert WithinBudget(j, s); }
  }

  lemma ResendKeepsInv(j: Job, i: nat, t: Tx)
    requires Inv(j) && i < |j.txs| && Unresolved(j.txs[i]) && t == j.txs[i].(state := Sent)
    ensures Inv(SetTx(j, i, t))
  {
    ReplaceKeeps(j, i, t);
  }

  lemma ResumeKeepsInv(j: Job)
    requires Inv(j)
    ensures Inv(Step(j, Resume))
  {
    var k := Step(j, Resume);
    if k != j {
      forall s: Stage ensures WithinBudget(k, s) {
        assert WithinBudget(j, s);
        CountSame(j.txs, k.txs, s, IsEffective());
      }
      CountSame(j.txs, k.txs, Exit, IsConfirmed());
      CountSame(j.txs, k.txs, Deposit, IsConfirmed());
    }
  }

  lemma QuietKeepsInv(j: Job, e: Event)
    requires Inv(j) && (e.Enter? || e.Raise? || e.Crash? || e.Quarantine? || e.FailBeforeMutation? || e.CancelBackInRange? || e.Complete?)
    ensures Inv(Step(j, e))
  {
    SameJournalSameBudget(j, Step(j, e));
    BudgetBoundsConfirmed(j, Exit);
  }

  lemma StepKeepsInv(j: Job, e: Event)
    requires Inv(j)
    ensures Inv(Step(j, e))
  {
    match e
    case Advance(to) => AdvanceKeepsInv(j, to);
    case Intent(ordinal, hash) => IntentKeepsInv(j, ordinal, hash);
    case BroadcastOk => if Step(j, e) != j { ResendKeepsInv(j, j.proc.at, j.txs[j.proc.at].(state := Sent)); }
    case Settle(i, success, gas) => SettleKeepsInv(j, i, success, gas);
    case Rebroadcast(i) => if Step(j, e) != j { ResendKeepsInv(j, i, j.txs[i].(state := Sent)); }
    case Resume => ResumeKeepsInv(j);
    case _ => QuietKeepsInv(j, e);
  }

  lemma {:induction false} RunKeepsInv(events: seq<Event>)
    ensures Inv(Run(events))
  {
    if events == [] {
      forall s: Stage ensures WithinBudget(CREATED, s) { }
    } else {
      RunKeepsInv(events[..|events| - 1]);
      StepKeepsInv(Run(events[..|events| - 1]), events[|events| - 1]);
    }
  }

  // ---- Bounded spending ----

  function TotalConfirmed(txs: seq<Tx>): nat {
    if txs == [] then 0 else TotalConfirmed(txs[..|txs| - 1]) + if txs[|txs| - 1].state.Confirmed? then 1 else 0
  }

  lemma {:induction false} TotalIsSumOfStages(txs: seq<Tx>)
    ensures TotalConfirmed(txs) ==
      Count(txs, Precheck, IsConfirmed()) + Count(txs, Exit, IsConfirmed()) + Count(txs, Claim, IsConfirmed())
      + Count(txs, Balance, IsConfirmed()) + Count(txs, FeeApproval, IsConfirmed()) + Count(txs, FeeConversion, IsConfirmed())
      + Count(txs, SwapApproval, IsConfirmed()) + Count(txs, Swap, IsConfirmed()) + Count(txs, DepositApproval, IsConfirmed())
      + Count(txs, Deposit, IsConfirmed()) + Count(txs, Verify, IsConfirmed())
  {
    if txs != [] { TotalIsSumOfStages(txs[..|txs| - 1]); }
  }

  /**
   * In every run, with any interleaving of market moves, reverts, crashes, rebroadcasts and
   * resumes, no stage has more transactions that confirmed or still can than its limit: one per
   * mutation, eight per approval stage. So a job confirms at most 29 transactions.
   */
  lemma SpendingIsBounded(events: seq<Event>, s: Stage)
    ensures EffectiveAt(Run(events), s) <= Limit(s) && ConfirmedAt(Run(events), s) <= Limit(s)
    ensures TotalConfirmed(Run(events).txs) <= 29
  {
    RunKeepsInv(events);
    assert WithinBudget(Run(events), s);
    BudgetBoundsConfirmed(Run(events), s);
    BudgetsAddUp(Run(events));
  }

  lemma BudgetsAddUp(j: Job)
    requires AllWithinBudget(j)
    ensures TotalConfirmed(j.txs) <= 29
  {
    TotalIsSumOfStages(j.txs);
    BudgetBoundsConfirmed(j, Precheck);
    BudgetBoundsConfirmed(j, Exit);
    BudgetBoundsConfirmed(j, Claim);
    BudgetBoundsConfirmed(j, Balance);
    BudgetBoundsConfirmed(j, FeeApproval);
    BudgetBoundsConfirmed(j, FeeConversion);
    BudgetBoundsConfirmed(j, SwapApproval);
    BudgetBoundsConfirmed(j, Swap);
    BudgetBoundsConfirmed(j, DepositApproval);
    BudgetBoundsConfirmed(j, Deposit);
    BudgetBoundsConfirmed(j, Verify);
  }

  // ---- Closed jobs ----

  /** A closed job is frozen: no event of any kind changes it. */
  lemma ClosedIsFrozen(j: Job, e: Event)
    requires Inv(j) && !Open(j)
    ensures Step(j, e) == j
  {
  }

  /**
   * Closed jobs tell the truth for ever: a cancelled job never had a transaction, a failed one
   * confirmed only approvals, a completed one has exactly one confirmed exit and one confirmed
   * deposit; none has anything unresolved, and whatever happens later changes none of it.
   */
  lemma {:induction false} ClosedTellsTruthForever(a: seq<Event>, b: seq<Event>)
    requires !Open(Run(a))
    ensures Run(a + b) == Run(a)
    ensures ClosedTellsTruth(Run(a)) && NoneUnresolved(Run(a).txs)
  {
    RunKeepsInv(a);
    if b == [] {
      assert a + b == a;
    } else {
      assert (a + b)[..|a + b| - 1] == a + b[..|b| - 1];
      ClosedTellsTruthForever(a, b[..|b| - 1]);
      ClosedIsFrozen(Run(a), b[|b| - 1]);
    }
  }
}
