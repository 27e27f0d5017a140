/**
 * One ordinary rebalance job under crashes: the runner (executor/runner.ts) and recovery
 * (executor/recovery-runner.ts) as a state machine over the durable journal and the chain.
 */
module OrdinaryJob {
  import opened Basics
  import opened RecoveryPolicy

  /** What the chain will finally say of a signed transaction; `Live` means it may still go either way. */
  datatype Truth = Live | Mined | Dead

  /** The journal's opinion: `Open` covers the states sending and sent. */
  datatype RowState = Open | RowConfirmed | RowFailed

  datatype Attempt = Attempt(step: nat, state: RowState, truth: Truth)

  datatype JobState = Planned | Running | Recovery | Completed | Failed

  /** The volatile process: how far it has come, and the attempt whose receipt it awaits. */
  datatype Proc = Idle | Busy(rank: nat, recovering: bool, waiting: Option<nat>)

  datatype State = State(job: JobState, proc: Proc, attempts: seq<Attempt>, marked: set<nat>, cycles: nat)

  const INITIAL := State(Planned, Idle, [], {}, 0)

  /** The protocol's order: unstake 12-14, decrease 1, collect 2, burn 3, swaps 4-5, approvals 6-7, mint 8, revoke 9-10, restake 15-16. */
  predicate MaySend(rank: nat, step: nat) {
    || (12 <= step <= 14 && rank < 6)
    || (step == 1 && rank == 0)
    || (step == 2 && rank == 1)
    || (step == 3 && 1 <= rank < 3)
    || (4 <= step <= 5 && 1 <= rank <= 4)
    || (6 <= step <= 8 && 1 <= rank <= 5)
    || (9 <= step <= 10 && 6 <= rank <= 7)
    || (15 <= step <= 16 && 6 <= rank)
  }

  function RankOf(step: nat): nat {
    if 12 <= step <= 14 then 0
    else if step <= 3 then step
    else if step <= 5 then 4
    else if step <= 7 then 5
    else if step == 8 then 6
    else if step <= 10 then 7
    else 8
  }

  /** How well an inspection could read one transaction: its receipt, only that it is known, or neither. */
  datatype Report = Exact | Known | Unclear

  type Reports = nat -> Report

  datatype Event =
    | Start                           // the runner picks the planned job
    | Skip(step: nat)                 // a step is marked confirmed without a transaction
    | Send(step: nat)                 // the intent is durable and may reach the chain
    | Mine(attempt: nat)              // the chain decides
    | Drop(attempt: nat)
    | Receipt                         // the awaited receipt arrives, success
    | SwallowBurn                     // the optional burn failed; the run goes on
    | Throw(retryable: bool)          // any other error, including a reverted receipt
    | Crash
    | Quarantine                      // restart finds the interrupted job
    | Recover(reports: Reports)       // inspect, reconcile, act on the disposition
    | Commit

  function FactOf(a: Attempt, r: Report): Fact {
    Fact(a.step,
         if r.Unclear? then Ambiguous
         else if r.Known? || a.truth.Live? then Pending
         else if a.truth.Mined? then Confirmed else Absent)
  }

  function Facts(attempts: seq<Attempt>, reports: Reports): seq<Fact> {
    seq(|attempts|, i requires 0 <= i < |attempts| => FactOf(attempts[i], reports(i)))
  }

  /** A row is only brought in line with a verdict. */
  function Reconciled(a: Attempt, r: Report): Attempt {
    if !r.Exact? then a
    else match a.truth case Live => a case Mined => a.(state := RowConfirmed) case Dead => a.(state := RowFailed)
  }

  function ReconcileAll(attempts: seq<Attempt>, reports: Reports): (after: seq<Attempt>)
    ensures |after| == |attempts| && forall i :: 0 <= i < |after| ==> after[i] == Reconciled(attempts[i], reports(i))
  {
    seq(|attempts|, i requires 0 <= i < |attempts| => Reconciled(attempts[i], reports(i)))
  }

  /** `reconcileRecoveryTransactions`: one fact per row, and the row brought in line with it. */
  method Reconcile(attempts: seq<Attempt>, reports: Reports) returns (after: seq<Attempt>, facts: seq<Fact>)
    ensures after == ReconcileAll(attempts, reports) && facts == Facts(attempts, reports)
    ensures forall i :: 0 <= i < |attempts| ==> after[i].step == attempts[i].step && after[i].truth == attempts[i].truth
    ensures forall i :: 0 <= i < |attempts| ==> (facts[i].state.Confirmed? <==> attempts[i].truth.Mined? && reports(i).Exact?)
    ensures forall i :: 0 <= i < |attempts| ==> (facts[i].state.Confirmed? ==> after[i].state.RowConfirmed?)
    ensures forall i :: 0 <= i < |attempts| ==> (facts[i].state.Absent? ==> after[i].state.RowFailed? && attempts[i].truth.Dead?)
    ensures forall i :: 0 <= i < |attempts| ==> (facts[i].state.Pending? || facts[i].state.Ambiguous? ==> after[i] == attempts[i])
  {
    facts := [];
    for i := 0 to |attempts|
      invariant |facts| == i && forall k :: 0 <= k < i ==> facts[k] == FactOf(attempts[k], reports(k))
    {
      facts := facts + [FactOf(attempts[i], reports(i))];
    }
    after := attempts;
    for i := 0 to |facts|
      invariant |after| == |attempts|
      invariant forall k :: 0 <= k < i ==> after[k] == Reconciled(attempts[k], reports(k))
      invariant forall k :: i <= k < |attempts| ==> after[k] == attempts[k]
    {
      if facts[i].state.Confirmed? { after := after[i := after[i].(state := RowConfirmed)]; }
      if facts[i].state.Reverted? || facts[i].state.Absent? { after := after[i := after[i].(state := RowFailed)]; }
    }
  }

  /** The runner's test before it gives a failed job up instead of handing it to recovery. */
  predicate Abandons(attempts: seq<Attempt>, retryable: bool) {
    && (forall i :: 0 <= i < |attempts| ==> !attempts[i].state.RowConfirmed?)
    && ((|attempts| > 0 && forall i :: 0 <= i < |attempts| ==> attempts[i].state.RowFailed?) || (|attempts| == 0 && retryable))
  }

  /** Where recovery re-enters the protocol. */
  function ResumeRank(d: Disposition): nat {
    match d
    case ResumeStakingExit => 0
    case ResumeCollect => 1
    case ResumeFromWallet => 2
    case _ => 6
  }

  function RecoverStep(s: State, reports: Reports): State {
    var attempts := ReconcileAll(s.attempts, reports);
    var d := Classify(Facts(s.attempts, reports), s.marked);
    match d
    case ManualReview => s.(attempts := attempts)
    case WaitPending => s.(attempts := attempts)
    case RestartSafe => s.(attempts := attempts, job := Failed)
    case _ => s.(attempts := attempts, job := Running, proc := Busy(ResumeRank(d), true, None))
  }

  function ThrowStep(s: State, retryable: bool): State
    requires s.proc.Busy? && (s.proc.waiting.Some? ==> s.proc.waiting.value < |s.attempts|)
  {
    var attempts :=
      if s.proc.waiting.Some? && s.attempts[s.proc.waiting.value].truth.Dead?
      then s.attempts[s.proc.waiting.value := s.attempts[s.proc.waiting.value].(state := RowFailed)] else s.attempts;
    if !s.proc.recovering && Abandons(attempts, retryable) then s.(attempts := attempts, job := Failed, proc := Idle)
    else s.(attempts := attempts, job := Recovery, proc := Idle)
  }

  /** An event that is not enabled changes nothing. */
  function Step(s: State, e: Event): State {
    match e
    case Start => if s.job.Planned? && s.proc.Idle? then s.(job := Running, proc := Busy(0, false, None)) else s
    case Skip(step) =>
      if s.proc.Busy? && s.proc.waiting.None? && step in {2, 3, 4, 5, 6, 7, 9, 10} then s.(marked := s.marked + {step}) else s
    case Send(step) =>
      if s.proc.Busy? && s.proc.waiting.None? && MaySend(s.proc.rank, step)
      then s.(attempts := s.attempts + [Attempt(step, Open, Live)], proc := s.proc.(waiting := Some(|s.attempts|))) else s
    case Mine(i) =>
      if i < |s.attempts| && s.attempts[i].truth.Live? then s.(attempts := s.attempts[i := s.attempts[i].(truth := Mined)]) else s
    case Drop(i) =>
      if i < |s.attempts| && s.attempts[i].truth.Live? then s.(attempts := s.attempts[i := s.attempts[i].(truth := Dead)]) else s
    case Receipt =>
      if s.proc.Busy? && s.proc.waiting.Some? && s.proc.waiting.value < |s.attempts| && s.attempts[s.proc.waiting.value].truth.Mined? then
        var i := s.proc.waiting.value;
        var a := s.attempts[i];
        s.(attempts := s.attempts[i := a.(state := RowConfirmed)], marked := s.marked + {a.step},
           proc := s.proc.(rank := Max(s.proc.rank, RankOf(a.step)), waiting := None))
      else s
    case SwallowBurn =>
      if s.proc.Busy? && s.proc.waiting.Some? && s.proc.waiting.value < |s.attempts| && s.attempts[s.proc.waiting.value].step == 3
      then s.(proc := s.proc.(rank := Max(s.proc.rank, 3), waiting := None), marked := s.marked + {3}) else s
    case Throw(retryable) =>
      if s.proc.Busy? && (s.proc.waiting.Some? ==> s.proc.waiting.value < |s.attempts|) then ThrowStep(s, retryable) else s
    case Crash => s.(proc := Idle)
    case Quarantine => if s.job.Running? && s.proc.Idle? then s.(job := Recovery) else s
    case Recover(reports) => if s.job.Recovery? && s.proc.Idle? then RecoverStep(s, reports) else s
    case Commit =>
      if s.proc.Busy? && s.proc.waiting.None? && s.proc.rank >= 6 && s.cycles == 0
      then s.(job := Completed, proc := Idle, cycles := 1) else s
  }

  function Run(s: State, events: seq<Event>): State {
    if events == [] then s else Step(Run(s, events[..|events| - 1]), events[|events| - 1])
  }

  // ---- Invariants ----

  predicate IsWaiting(s: State, i: nat) {
    s.proc.Busy? && s.proc.waiting == Some(i)
  }

  /** A transaction signed for this step that has confirmed or still can. */
  predicate AliveAt(s: State, i: nat, step: nat) {
    i < |s.attempts| && s.attempts[i].step == step && !s.attempts[i].truth.Dead?
  }

  /** Of all transactions ever signed for this step, at most one can have confirmed or still confirm. */
  ghost predicate Once(s: State, step: nat) {
    forall i: nat, j: nat :: i < j && AliveAt(s, i, step) && AliveAt(s, j, step) ==> false
  }

  predicate HasMined(s: State, step: nat) {
    exists i :: 0 <= i < |s.attempts| && s.attempts[i].step == step && s.attempts[i].truth.Mined?
  }

  /** Steps that may only exist once the mint has confirmed. */
  predicate AfterMint(step: nat) {
    9 <= step <= 10 || step >= 15
  }

  predicate AfterDecrease(step: nat) {
    2 <= step <= 10 || step >= 15
  }

  predicate RowsSpeakTruth(s: State) {
    forall i :: 0 <= i < |s.attempts| ==>
      && (s.attempts[i].state.RowConfirmed? ==> s.attempts[i].truth.Mined?)
      && (s.attempts[i].state.RowFailed? ==> s.attempts[i].truth.Dead?)
  }

  predicate Ordered(s: State) {
    && (HasMined(s, 1) || forall i :: 0 <= i < |s.attempts| ==> !AfterDecrease(s.attempts[i].step))
    && (HasMined(s, 8) || forall i :: 0 <= i < |s.attempts| ==> !AfterMint(s.attempts[i].step))
  }

  /** The once-only steps that a process at this rank may still send. */
  predicate StillAhead(rank: nat, step: nat) {
    (step == 1 && rank < 1) || (step == 2 && rank < 2) || (step == 8 && rank < 6)
  }

  /** The running process has not passed a step that is still open, except for the burn it may ignore. */
  predicate ProcSound(s: State) {
    s.proc.Busy? ==>
      && s.job.Running?
      && (s.proc.waiting.Some? ==>
            s.proc.waiting.value < |s.attempts| && MaySend(s.proc.rank, s.attempts[s.proc.waiting.value].step))
      && (forall i :: 0 <= i < |s.attempts| && s.attempts[i].truth.Live? ==> IsWaiting(s, i) || s.attempts[i].step == 3)
      && (forall i :: 0 <= i < |s.attempts| && !IsWaiting(s, i) && !s.attempts[i].truth.Dead? ==> !StillAhead(s.proc.rank, s.attempts[i].step))
      && (s.proc.rank >= 1 ==> HasMined(s, 1))
      && (s.proc.rank >= 6 ==> HasMined(s, 8))
  }

  predicate Outcomes(s: State) {
    && s.cycles <= 1
    && (s.cycles == 1 <==> s.job.Completed?)
    && (s.job.Completed? ==> HasMined(s, 1) && HasMined(s, 8))
    && (s.job.Failed? ==> forall i :: 0 <= i < |s.attempts| ==> s.attempts[i].truth.Dead?)
    && (s.job.Planned? ==> s.attempts == [])
    && (!s.job.Running? ==> s.proc.Idle?)
    && (forall i :: 0 <= i < |s.attempts| ==> 1 <= s.attempts[i].step <= 16 && s.attempts[i].step != 11)
  }

  ghost predicate OnceOnly(s: State) {
    Once(s, 1) && Once(s, 2) && Once(s, 8)
  }

  ghost predicate Inv(s: State) {
    OnceOnly(s) && RowsSpeakTruth(s) && Ordered(s) && ProcSound(s) && Outcomes(s)
  }

  /** Once-only steps stay so when no attempt comes alive. */
  lemma OnceIsKept(s: State, t: State)
    requires OnceOnly(s) && |t.attempts| == |s.attempts|
    requires forall i :: 0 <= i < |s.attempts| ==>
      t.attempts[i].step == s.attempts[i].step && (s.attempts[i].truth.Dead? ==> t.attempts[i].truth.Dead?)
    ensures OnceOnly(t)
  {
    forall i: nat, k: nat | AliveAt(t, i, k) ensures AliveAt(s, i, k) { }
  }

  lemma ReconcileKeepsFacts(s: State, reports: Reports, t: State)
    requires Inv(s) && t.attempts == ReconcileAll(s.attempts, reports)
    ensures OnceOnly(t) && RowsSpeakTruth(t) && Ordered(t)
    ensures forall k :: HasMined(t, k) <==> HasMined(s, k)
  {
    forall i | 0 <= i < |s.attempts| ensures t.attempts[i].step == s.attempts[i].step && t.attempts[i].truth == s.attempts[i].truth {
      assert t.attempts[i] == Reconciled(s.attempts[i], reports(i));
    }
    OnceIsKept(s, t);
    forall k ensures HasMined(t, k) <==> HasMined(s, k) {
      if HasMined(s, k) {
        var i :| 0 <= i < |s.attempts| && s.attempts[i].step == k && s.attempts[i].truth.Mined?;
        assert t.attempts[i].step == k && t.attempts[i].truth.Mined?;
      }
    }
  }

  /** Every transaction could be read, and none is undecided. */
  predicate AllRead(s: State, reports: Reports) {
    forall i :: 0 <= i < |s.attempts| ==> reports(i).Exact? && !s.attempts[i].truth.Live?
  }

  predicate SomeUnclear(s: State, reports: Reports) {
    exists i :: 0 <= i < |s.attempts| && reports(i).Unclear?
  }

  /** The disposition read off the facts, in terms of what the chain has confirmed and what could be read of it. */
  lemma DispositionMeaning(s: State, reports: Reports)
    requires Inv(s)
    ensures var d := Classify(Facts(s.attempts, reports), s.marked);
      && (d.ManualReview? <==> SomeUnclear(s, reports))
      && (d.WaitPending? || d.ManualReview? <==> !AllRead(s, reports))
      && (d.CommitReady? || d.ResumeRevoke? ==> HasMined(s, 8))
      && (!d.WaitPending? && !d.ManualReview? && !d.CommitReady? && !d.ResumeRevoke? ==> !HasMined(s, 8))
      && (d.ResumeFromWallet? ==> HasMined(s, 1))
      && (d.ResumeCollect? ==> HasMined(s, 1) && !HasMined(s, 2))
      && (d.ResumeStakingExit? ==> !HasMined(s, 1) && !HasMined(s, 2))
      && (d.RestartSafe? ==> forall i :: 0 <= i < |s.attempts| ==> s.attempts[i].truth.Dead?)
  {
    var facts := Facts(s.attempts, reports);
    assert |facts| == |s.attempts| && forall i :: 0 <= i < |facts| ==> facts[i] == FactOf(s.attempts[i], reports(i));
    if SomeUnclear(s, reports) {
      var i :| 0 <= i < |s.attempts| && reports(i).Unclear?;
      assert facts[i].state.Ambiguous?;
    } else if !AllRead(s, reports) {
      var i :| 0 <= i < |s.attempts| && !(reports(i).Exact? && !s.attempts[i].truth.Live?);
      assert facts[i].state.Pending?;
    } else {
      MinedIsConfirmed(s, reports, 1, 1, 1);
      MinedIsConfirmed(s, reports, 2, 2, 7);
      MinedIsConfirmed(s, reports, 8, 8, 8);
      if Classify(facts, s.marked).RestartSafe? {
        forall i | 0 <= i < |s.attempts| ensures s.attempts[i].truth.Dead? { assert !facts[i].state.Pending? && !facts[i].state.Confirmed?; }
      }
    }
  }

  lemma MinedIsConfirmed(s: State, reports: Reports, step: nat, lo: nat, hi: nat)
    requires lo <= step <= hi && AllRead(s, reports)
    ensures HasMined(s, step) ==> Has(Facts(s.attempts, reports), Confirmed, lo, hi)
  {
    if i :| 0 <= i < |s.attempts| && s.attempts[i].step == step && s.attempts[i].truth.Mined? {
      assert Facts(s.attempts, reports)[i] == FactOf(s.attempts[i], reports(i));
    }
  }

  // ---- Every event keeps the invariant ----

  /** Nothing confirmed is ever forgotten. */
  predicate Remembers(s: State, t: State) {
    && |s.attempts| <= |t.attempts|
    && forall i :: 0 <= i < |s.attempts| ==>
         t.attempts[i].step == s.attempts[i].step && (s.attempts[i].truth.Mined? ==> t.attempts[i].truth.Mined?)
  }

  lemma MinedIsKept(s: State, t: State, step: nat)
    requires Remembers(s, t)
    ensures HasMined(s, step) ==> HasMined(t, step)
  {
    if i :| 0 <= i < |s.attempts| && s.attempts[i].step == step && s.attempts[i].truth.Mined? {
      assert t.attempts[i].step == step && t.attempts[i].truth.Mined?;
    }
  }

  lemma SendKeepsOnce(s: State, step: nat)
    requires Inv(s) && s.proc.Busy? && s.proc.waiting.None? && MaySend(s.proc.rank, step)
    ensures OnceOnly(Step(s, Send(step)))
  {
    var t := Step(s, Send(step));
    var n := |s.attempts|;
    if step == 1 || step == 2 || step == 8 {
      assert StillAhead(s.proc.rank, step);
      assert forall i: nat :: !AliveAt(s, i, step);
    }
    forall i: nat, k: nat | AliveAt(t, i, k) ensures if i == n then k == step else AliveAt(s, i, k) { }
  }

  lemma SendKeepsInv(s: State, step: nat)
    requires Inv(s)
    ensures Inv(Step(s, Send(step)))
  {
    var t := Step(s, Send(step));
    if t != s {
      SendKeepsOnce(s, step);
      assert forall i :: 0 <= i < |s.attempts| ==> t.attempts[i] == s.attempts[i];
      MinedIsKept(s, t, 1);
      MinedIsKept(s, t, 8);
      SendKeepsProc(s, step);
    }
  }

  lemma SendKeepsProc(s: State, step: nat)
    requires ProcSound(s) && s.proc.Busy? && s.proc.waiting.None? && MaySend(s.proc.rank, step)
    requires Remembers(s, Step(s, Send(step)))
    ensures ProcSound(Step(s, Send(step)))
  {
    var t := Step(s, Send(step));
    MinedIsKept(s, t, 1);
    MinedIsKept(s, t, 8);
    assert forall i :: 0 <= i < |s.attempts| ==> t.attempts[i] == s.attempts[i];
  }

  lemma TruthKeepsInv(s: State, i: nat, truth: Truth, t: State)
    requires Inv(s) && i < |s.attempts| && s.attempts[i].truth.Live? && !truth.Live?
    requires t == s.(attempts := s.attempts[i := s.attempts[i].(truth := truth)])
    ensures Inv(t)
  {
    OnceIsKept(s, t);
    MinedIsKept(s, t, 1);
    MinedIsKept(s, t, 8);
    assert RowsSpeakTruth(t) && Ordered(t);
    assert ProcSound(t);
  }

  lemma ReceiptKeepsInv(s: State)
    requires Inv(s)
    ensures Inv(Step(s, Receipt))
  {
    var t := Step(s, Receipt);
    if t != s {
      var i := s.proc.waiting.value;
      OnceIsKept(s, t);
      MinedIsKept(s, t, 1);
      MinedIsKept(s, t, 8);
      assert t.attempts[i].truth.Mined? && t.attempts[i].step == s.attempts[i].step;
      assert HasMined(t, s.attempts[i].step);
      assert RowsSpeakTruth(t) && Ordered(t);
      ReceiptKeepsProc(s);
    }
  }

  lemma ReceiptKeepsProc(s: State)
    requires Inv(s) && Step(s, Receipt) != s && Remembers(s, Step(s, Receipt))
    ensures ProcSound(Step(s, Receipt))
  {
    var t := Step(s, Receipt);
    var i := s.proc.waiting.value;
    MinedIsKept(s, t, 1);
    MinedIsKept(s, t, 8);
    assert t.attempts[i].truth.Mined? && t.attempts[i].step == s.attempts[i].step;
    forall k | 0 <= k < |t.attempts| && !t.attempts[k].truth.Dead? ensures !StillAhead(t.proc.rank, t.attempts[k].step) {
      if k != i {
        assert !IsWaiting(s, k) && t.attempts[k] == s.attempts[k];
      }
    }
  }

  lemma BurnKeepsInv(s: State)
    requires Inv(s)
    ensures Inv(Step(s, SwallowBurn))
  {
    var t := Step(s, SwallowBurn);
    assert t.attempts == s.attempts;
    OnceIsKept(s, t);
    MinedIsKept(s, t, 1);
    MinedIsKept(s, t, 8);
    assert ProcSound(t);
  }

  lemma ThrowKeepsInv(s: State, retryable: bool)
    requires Inv(s)
    ensures Inv(Step(s, Throw(retryable)))
  {
    var t := Step(s, Throw(retryable));
    if s.proc.Busy? {
      assert forall i :: 0 <= i < |s.attempts| ==> t.attempts[i].truth == s.attempts[i].truth && t.attempts[i].step == s.attempts[i].step;
      OnceIsKept(s, t);
      MinedIsKept(s, t, 1);
      MinedIsKept(s, t, 8);
      assert RowsSpeakTruth(t) && Ordered(t);
      assert Outcomes(t);
    }
  }

  lemma ResumedIsSound(s: State, reports: Reports)
    requires Inv(s) && s.job.Recovery? && RecoverStep(s, reports).proc.Busy?
    ensures ProcSound(RecoverStep(s, reports))
  {
    var t := RecoverStep(s, reports);
    DispositionMeaning(s, reports);
    ReconcileKeepsFacts(s, reports, t);
    forall i | 0 <= i < |t.attempts| ensures t.attempts[i].truth.Dead? || (t.attempts[i].truth.Mined? && HasMined(t, t.attempts[i].step)) {
      assert t.attempts[i] == Reconciled(s.attempts[i], reports(i)) && !s.attempts[i].truth.Live?;
    }
  }

  lemma RecoveredOutcomes(s: State, reports: Reports)
    requires Inv(s) && s.job.Recovery?
    ensures Outcomes(RecoverStep(s, reports))
  {
    var t := RecoverStep(s, reports);
    DispositionMeaning(s, reports);
    forall i | 0 <= i < |t.attempts| ensures t.attempts[i].step == s.attempts[i].step && t.attempts[i].truth == s.attempts[i].truth {
      assert t.attempts[i] == Reconciled(s.attempts[i], reports(i));
    }
  }

  lemma RecoverKeepsInv(s: State, reports: Reports)
    requires Inv(s)
    ensures Inv(Step(s, Recover(reports)))
  {
    if s.job.Recovery? {
      ReconcileKeepsFacts(s, reports, RecoverStep(s, reports));
      RecoveredOutcomes(s, reports);
      if RecoverStep(s, reports).proc.Busy? { ResumedIsSound(s, reports); }
    }
  }

  lemma QuietKeepsInv(s: State, e: Event)
    requires Inv(s) && (e.Start? || e.Skip? || e.Crash? || e.Quarantine? || e.Commit?)
    ensures Inv(Step(s, e))
  {
    var t := Step(s, e);
    assert t.attempts == s.attempts;
    OnceIsKept(s, t);
    MinedIsKept(s, t, 1);
    MinedIsKept(s, t, 8);
  }

  /** No event — send, receipt, error, crash, chain decision, inspection or resume — breaks the invariant. */
  lemma StepKeepsInv(s: State, e: Event)
    requires Inv(s)
    ensures Inv(Step(s, e))
  {
    match e
    case Send(step) => SendKeepsInv(s, step);
    case Mine(i) => if Step(s, e) != s { TruthKeepsInv(s, i, Mined, Step(s, e)); }
    case Drop(i) => if Step(s, e) != s { TruthKeepsInv(s, i, Dead, Step(s, e)); }
    case Receipt => ReceiptKeepsInv(s);
    case SwallowBurn => BurnKeepsInv(s);
    case Throw(retryable) => ThrowKeepsInv(s, retryable);
    case Recover(reports) => RecoverKeepsInv(s, reports);
    case _ => QuietKeepsInv(s, e);
  }

  lemma {:induction false} RunKeepsInv(events: seq<Event>)
    ensures Inv(Run(INITIAL, events))
  {
    if events != [] {
      RunKeepsInv(events[..|events| - 1]);
      StepKeepsInv(Run(INITIAL, events[..|events| - 1]), events[|events| - 1]);
    }
  }

  // ---- Exactly once ----

  function MinedCount(attempts: seq<Attempt>, step: nat): nat {
    if attempts == [] then 0
    else MinedCount(attempts[..|attempts| - 1], step)
         + if attempts[|attempts| - 1].step == step && attempts[|attempts| - 1].truth.Mined? then 1 else 0
  }

  lemma {:induction false} OnceMeansAtMostOne(attempts: seq<Attempt>, step: nat)
    requires Once(INITIAL.(attempts := attempts), step)
    ensures MinedCount(attempts, step) <= 1
    ensures MinedCount(attempts, step) == 1 <==> exists i :: 0 <= i < |attempts| && attempts[i].step == step && attempts[i].truth.Mined?
  {
    if attempts != [] {
      var n := |attempts| - 1;
      var all, init := INITIAL.(attempts := attempts), INITIAL.(attempts := attempts[..n]);
      forall i: nat | AliveAt(init, i, step) ensures AliveAt(all, i, step) { }
      OnceMeansAtMostOne(attempts[..n], step);
      if i :| 0 <= i < n && attempts[i].step == step && attempts[i].truth.Mined? {
        assert AliveAt(all, i, step);
        assert !AliveAt(all, n, step);
        assert attempts[..n][i] == attempts[i];
      }
    }
  }

  /**
   * Over every run of sends, crashes, chain decisions, inspections and resumes, at most one
   * decrease, one collect and one mint ever confirm and at most one cycle commits; a completed
   * job decreased once and minted once, and an abandoned job has confirmed nothing and never will.
   */
  lemma ExactlyOnce(events: seq<Event>)
    ensures var s := Run(INITIAL, events);
      && MinedCount(s.attempts, 1) <= 1 && MinedCount(s.attempts, 2) <= 1 && MinedCount(s.attempts, 8) <= 1 && s.cycles <= 1
      && (s.cycles == 1 ==> s.job.Completed? && MinedCount(s.attempts, 1) == 1 && MinedCount(s.attempts, 8) == 1)
      && (s.job.Failed? ==> forall i :: 0 <= i < |s.attempts| ==> s.attempts[i].truth.Dead?)
  {
    var s := Run(INITIAL, events);
    RunKeepsInv(events);
    forall i: nat, k: nat | AliveAt(INITIAL.(attempts := s.attempts), i, k) ensures AliveAt(s, i, k) { }
    OnceMeansAtMostOne(s.attempts, 1);
    OnceMeansAtMostOne(s.attempts, 2);
    OnceMeansAtMostOne(s.attempts, 8);
  }

  /** For a journal the job can produce, `restart_safe` is returned exactly when everything could be read and nothing confirmed or still can. */
  lemma RestartSafeIffNothingConfirmed(events: seq<Event>, reports: Reports)
    ensures var s := Run(INITIAL, events);
      Classify(Facts(s.attempts, reports), s.marked).RestartSafe?
      <==> forall i :: 0 <= i < |s.attempts| ==> s.attempts[i].truth.Dead? && reports(i).Exact?
  {
    var s := Run(INITIAL, events);
    RunKeepsInv(events);
    DispositionMeaning(s, reports);
    var facts := Facts(s.attempts, reports);
    if forall i :: 0 <= i < |s.attempts| ==> s.attempts[i].truth.Dead? && reports(i).Exact? {
      forall i | 0 <= i < |facts| ensures facts[i].state.Absent? { assert s.attempts[i].truth.Dead?; }
    }
  }

  /** A finished job stays finished: nothing reopens it and nothing is sent for it again. */
  lemma FinishedIsFinal(s: State, e: Event)
    requires Inv(s) && (s.job.Completed? || s.job.Failed?)
    ensures var t := Step(s, e);
      t.job == s.job && t.cycles == s.cycles && |t.attempts| == |s.attempts|
      && (s.job.Failed? ==> t.attempts == s.attempts)
  {
  }
}
