/**
 * What a rebalance cycle commits: by the runner that saw it through (executor/runner.ts) and
 * by the recovery that rebuilt it (`commitFromChainFacts` in executor/recovery-runner.ts).
 */
module CycleCommit {
  import opened Basics
  import opened Swaps
  import opened CyclePlan
  import opened SwapFold
  import opened CycleReplay
  import opened Capital
  import opened SwapJournal
  import Allocations

  type Component = Allocations.Component

  /** Facts both sides read: the exit receipts, the allocation at precheck, the reward and its tax. */
  datatype Facts = Facts(pair: Pair, handling: Handling, collected: Funds, prior0: Component, prior1: Component,
                         reward: int, tax0: int, tax1: int, rewardTax: int)

  /** The tax plan takes at most each income leg. */
  predicate TaxWithinIncome(c: Facts) {
    0 <= c.tax0 <= c.collected.fee0 && 0 <= c.tax1 <= c.collected.fee1 && 0 <= c.rewardTax <= c.reward
  }

  /** The reward that stays with the strategy, on the side of the quote token. */
  function RewardKept(c: Facts, side: Token): int {
    if side == c.pair.quoteToken then c.reward - c.rewardTax else 0
  }

  /** What the planner may deploy: exit proceeds after tax, carried principal, and a reinvested reward. */
  function Deployable(c: Facts): Funds {
    var bonus0 := if c.handling.Reinvest? then RewardKept(c, c.pair.token0) else 0;
    var bonus1 := if c.handling.Reinvest? then RewardKept(c, c.pair.token1) else 0;
    Funds(c.collected.principal0 + c.prior0.principal + bonus0, c.collected.principal1 + c.prior1.principal + bonus1,
          c.collected.fee0 - c.tax0, c.collected.fee1 - c.tax1)
  }

  /** The runner parks a reward it does not reinvest before it swaps anything. */
  function LiveStart(c: Facts): Buckets {
    Plus(OpeningBuckets(c.handling, Deployable(c)), ParkedReward(c))
  }

  function ParkedReward(c: Facts): Buckets {
    if c.handling.Reinvest? then ZERO else Buckets(0, 0, RewardKept(c, c.pair.token0), RewardKept(c, c.pair.token1))
  }

  datatype Mint = Mint(minted0: int, minted1: int)

  /** The harvest oracle: how the capital policy values the pair just before the mint. */
  datatype Valuation = Valuation(active: int, cap: int, excessUsd: int, threshold: int)

  datatype Outcome = Outcome(side0: Component, side1: Component)

  function Settle(c: Facts, h: Harvest, held0: int, held1: int, m: Mint): Outcome {
    Outcome(Allocations.Component(h.deploy0 - m.minted0, c.prior0.heldFee + held0, c.prior0.heldProfit + h.profit0),
            Allocations.Component(h.deploy1 - m.minted1, c.prior1.heldFee + held1, c.prior1.heldProfit + h.profit1))
  }

  /** The harvest the runner stores in `capital_allocation` before it mints. */
  function LiveHarvest(c: Facts, fills: seq<Fill>, v: Valuation): Result<Harvest> {
    var b := After(c.handling.Reinvest?, c.pair.token0, LiveStart(c), fills);
    PlanHarvest(b.lp0, b.lp1, v.active, v.cap, v.excessUsd, v.threshold)
  }

  /** The uninterrupted run, from its swaps to its commit. */
  method RunCycle(c: Facts, fills: seq<Fill>, v: Valuation, m: Mint) returns (r: Result<Outcome>)
    ensures r == LiveOutcome(c, fills, v, m)
  {
    var b := RunSwapLoop(c.handling.Reinvest?, c.pair.token0, LiveStart(c), fills);
    if b.Err? { return Err(b.code); }
    var capital := PlanHarvest(b.value.lp0, b.value.lp1, v.active, v.cap, v.excessUsd, v.threshold);
    if capital.Err? { return Err(capital.code); }
    if m.minted0 < 0 || m.minted1 < 0 || m.minted0 > capital.value.deploy0 || m.minted1 > capital.value.deploy1 {
      return Err("E_UNSUPPORTED_TOKEN");
    }
    var outcome := Settle(c, capital.value, b.value.held0, b.value.held1, m);
    if !Allocations.NonNegative(outcome.side0) || !Allocations.NonNegative(outcome.side1) { return Err("E_ALLOCATION_MISMATCH"); }
    return Ok(outcome);
  }

  function LiveOutcome(c: Facts, fills: seq<Fill>, v: Valuation, m: Mint): Result<Outcome> {
    if !AllAccepted(fills) then Err("E_UNSUPPORTED_TOKEN")
    else
      var b := After(c.handling.Reinvest?, c.pair.token0, LiveStart(c), fills);
      var capital := LiveHarvest(c, fills, v);
      if capital.Err? then Err(capital.code)
      else if m.minted0 < 0 || m.minted1 < 0 || m.minted0 > capital.value.deploy0 || m.minted1 > capital.value.deploy1 then
        Err("E_UNSUPPORTED_TOKEN")
      else
        var outcome := Settle(c, capital.value, b.held0, b.held1, m);
        if Allocations.NonNegative(outcome.side0) && Allocations.NonNegative(outcome.side1) then Ok(outcome)
        else Err("E_ALLOCATION_MISMATCH")
  }

  /** `applyStoredFeeTax` with the reward's share: the stored tax must fit the rebuilt income. */
  function RecoveredFunds(c: Facts): Result<Funds> {
    if !TaxWithinIncome(c) then Err("E_RECOVERY_CONTEXT") else Ok(Deployable(c))
  }

  function RecoveredOutcome(c: Facts, notes: SwapNotes, receipts: seq<Receipt>, stored: Option<Harvest>, m: Mint): Result<Outcome> {
    var funds := RecoveredFunds(c);
    if funds.Err? then Err(funds.code)
    else
      var b := Replay(c.handling.Reinvest?, c.pair.token0, OpeningBuckets(c.handling, funds.value), notes, receipts);
      if b.Err? then Err(b.code)
      else
        var h := if stored.Some? then stored.value else Harvest(false, b.value.lp0, b.value.lp1, 0, 0);
        if h.deploy0 + h.profit0 != b.value.lp0 || h.deploy1 + h.profit1 != b.value.lp1 then Err("E_RECOVERY_CONTEXT")
        else
          var outcome := Settle(c, h, b.value.held0 + ParkedReward(c).held0, b.value.held1 + ParkedReward(c).held1, m);
          if Allocations.Sum(outcome.side0) < 0 || Allocations.Sum(outcome.side1) < 0 then Err("E_ALLOCATION_MISMATCH") else Ok(outcome)
  }

  method CommitFromChainFacts(c: Facts, notes: SwapNotes, receipts: seq<Receipt>, stored: Option<Harvest>, m: Mint)
    returns (r: Result<Outcome>)
    ensures r == RecoveredOutcome(c, notes, receipts, stored, m)
  {
    var funds := RecoveredFunds(c);
    if funds.Err? { return Err(funds.code); }
    var b := ApplyExecutedSwaps(c.handling, c.pair.token0, funds.value, notes, receipts);
    if b.Err? { return Err(b.code); }
    var h := if stored.Some? then stored.value else Harvest(false, b.value.lp0, b.value.lp1, 0, 0);
    if h.deploy0 + h.profit0 != b.value.lp0 || h.deploy1 + h.profit1 != b.value.lp1 { return Err("E_RECOVERY_CONTEXT"); }
    var outcome := Settle(c, h, b.value.held0 + ParkedReward(c).held0, b.value.held1 + ParkedReward(c).held1, m);
    if Allocations.Sum(outcome.side0) < 0 || Allocations.Sum(outcome.side1) < 0 { return Err("E_ALLOCATION_MISMATCH"); }
    return Ok(outcome);
  }

  // ---- Replay equals live ----

  /**
   * Once the harvest is stored and the mint has confirmed, recovery commits what the runner
   * would have committed, or fails: exactly when a re-quoted tax swap no longer clears its
   * minimum or a bucket is overdrawn along the receipts. Its deploy-plus-profit test never
   * fires, whatever swaps were executed and in whatever order the receipts are walked.
   */
  lemma RecoveryCommitsTheSameCycle(c: Facts, history: seq<Fill>, v: Valuation, m: Mint, notes: SwapNotes,
                                    receipts: seq<Receipt>, gs: seq<Fill>, fs: seq<Fill>)
    requires TaxWithinIncome(c) && LiveOutcome(c, history, v, m).Ok?
    requires Resolves(notes, receipts, gs) && AllUpToTaxQuotes(fs, gs) && multiset(fs) == multiset(history)
    ensures var recovered := RecoveredOutcome(c, notes, receipts, Some(LiveHarvest(c, history, v).value), m);
      if Clears(fs, gs) && StaysCovered(c.handling.Reinvest?, c.pair.token0, OpeningBuckets(c.handling, Deployable(c)), fs)
      then recovered == LiveOutcome(c, history, v, m)
      else recovered.Err?
  {
    var reinvest, token0, open := c.handling.Reinvest?, c.pair.token0, OpeningBuckets(c.handling, Deployable(c));
    ReplayUpToTaxQuotes(reinvest, token0, open, notes, receipts, gs, fs, history);
    var b := Replay(reinvest, token0, open, notes, receipts);
    if b.Ok? { CommitFromTheBooks(c, history, v, m, notes, receipts); }
  }

  /** From the books of the executed history recovery settles exactly what the runner settles. */
  lemma CommitFromTheBooks(c: Facts, history: seq<Fill>, v: Valuation, m: Mint, notes: SwapNotes, receipts: seq<Receipt>)
    requires TaxWithinIncome(c) && LiveOutcome(c, history, v, m).Ok?
    requires Replay(c.handling.Reinvest?, c.pair.token0, OpeningBuckets(c.handling, Deployable(c)), notes, receipts)
      == Ok(After(c.handling.Reinvest?, c.pair.token0, OpeningBuckets(c.handling, Deployable(c)), history))
    ensures RecoveredOutcome(c, notes, receipts, Some(LiveHarvest(c, history, v).value), m) == LiveOutcome(c, history, v, m)
  {
  }

  /** The cycle as the swap journal sees it. */
  function JournalOf(c: Facts, slippageBps: int): Cycle {
    Cycle(c.handling, c.pair, Deployable(c), slippageBps)
  }

  /** What recovery commits from the stored journal, reading the receipts in slot order. */
  function CommitFromJournal(c: Facts, slippageBps: int, s: Journal, h: Harvest, m: Mint): Result<Outcome> {
    RecoveredOutcome(c, Notes(JournalOf(c, slippageBps), s), ReceiptsOf(SlotOrder(s.done)), Some(h), m)
  }

  /**
   * Over every run of the journal, with any crashes, failures and re-plans: recovery commits
   * what the runner would have committed from the executed swaps exactly when slot order stays
   * covered and an unaudited, re-quoted tax swap clears the newest quote, and fails otherwise.
   */
  lemma EveryRunCommitsTheSame(c: Facts, slippageBps: int, events: seq<Event>, v: Valuation, m: Mint)
    requires TaxWithinIncome(c) && NonNegativeFunds(Deployable(c))
    requires LiveOutcome(c, FillsOf(Run(JournalOf(c, slippageBps), events).done), v, m).Ok?
    ensures var s := Run(JournalOf(c, slippageBps), events);
      var fills := FillsOf(s.done);
      var recovered := CommitFromJournal(c, slippageBps, s, LiveHarvest(c, fills, v).value, m);
      if TaxClears(JournalOf(c, slippageBps), s) && CoveredInSlotOrder(JournalOf(c, slippageBps), s)
      then recovered == LiveOutcome(c, fills, v, m)
      else recovered.Err?
  {
    var cycle := JournalOf(c, slippageBps);
    var s := Run(cycle, events);
    RunReplays(cycle, events);
    if Replayed(cycle, s).Ok? { CommitFromTheBooks(c, FillsOf(s.done), v, m, Notes(cycle, s), ReceiptsOf(SlotOrder(s.done))); }
  }

  /** A live run cut off anywhere, at a crash or an error, and never re-planned, is always committed as it would have been. */
  lemma {:induction false} InterruptedRunCommitsTheSame(c: Facts, slippageBps: int, events: seq<Event>, v: Valuation, m: Mint)
    requires TaxWithinIncome(c) && NonNegativeFunds(Deployable(c)) && forall e :: e in events ==> !e.PlanRecovery?
    requires LiveOutcome(c, FillsOf(Run(JournalOf(c, slippageBps), events).done), v, m).Ok?
    ensures var s := Run(JournalOf(c, slippageBps), events);
      CommitFromJournal(c, slippageBps, s, LiveHarvest(c, FillsOf(s.done), v).value, m) == LiveOutcome(c, FillsOf(s.done), v, m)
  {
    EveryRunCommitsTheSame(c, slippageBps, events, v, m);
    RunReplays(JournalOf(c, slippageBps), events);
    LiveRunReplays(JournalOf(c, slippageBps), events);
  }

  /** After any recovery passes that each found no gap, only a tax swap the newest quote has outrun can stand in the way. */
  lemma {:induction false} RecoveredRunCommitsTheSame(c: Facts, slippageBps: int, events: seq<Event>, v: Valuation, m: Mint)
    requires TaxWithinIncome(c) && NonNegativeFunds(Deployable(c)) && Orderly(JournalOf(c, slippageBps), events)
    requires LiveOutcome(c, FillsOf(Run(JournalOf(c, slippageBps), events).done), v, m).Ok?
    ensures var s := Run(JournalOf(c, slippageBps), events);
      var recovered := CommitFromJournal(c, slippageBps, s, LiveHarvest(c, FillsOf(s.done), v).value, m);
      if TaxClears(JournalOf(c, slippageBps), s) then recovered == LiveOutcome(c, FillsOf(s.done), v, m) else recovered.Err?
  {
    EveryRunCommitsTheSame(c, slippageBps, events, v, m);
    RunReplays(JournalOf(c, slippageBps), events);
    OrderlyRunReplays(JournalOf(c, slippageBps), events);
  }

  /** Swaps that follow a plan within the opening buckets leave every bucket, the parked reward included, nonnegative. */
  lemma PlannedSwapsStayNonNegative(c: Facts, plan: seq<Intent>, taxes: seq<Fill>, swaps: seq<Fill>)
    requires TaxWithinIncome(c) && NonNegativeFunds(Deployable(c))
    requires PlanShape(c.pair, plan) && Covers(OpeningBuckets(c.handling, Deployable(c)), Claims(c.pair.token0, plan))
    requires FollowsPlan(plan, taxes, swaps) && AllAccepted(taxes + swaps) && GainsNonNegative(taxes + swaps)
    ensures NonNegative(After(c.handling.Reinvest?, c.pair.token0, LiveStart(c), taxes + swaps))
  {
    var fills := taxes + swaps;
    var open := OpeningBuckets(c.handling, Deployable(c));
    ExecutedPlanIsPlannedRound(c.handling, c.pair, Deployable(c), plan, taxes, swaps);
    RoundNeverOverdraws(c.handling.Reinvest?, c.pair.token0, open, fills, |fills|);
    assert fills[..|fills|] == fills;
    assert NonNegative(ParkedReward(c));
  }

  /** None of the runner's own negative checks can fire: a planned cycle that mints within its deploy amounts commits. */
  lemma PlannedCycleCommits(c: Facts, plan: seq<Intent>, taxes: seq<Fill>, swaps: seq<Fill>, v: Valuation, m: Mint)
    requires TaxWithinIncome(c) && NonNegativeFunds(Deployable(c)) && Allocations.NonNegative(c.prior0) && Allocations.NonNegative(c.prior1)
    requires PlanShape(c.pair, plan) && Covers(OpeningBuckets(c.handling, Deployable(c)), Claims(c.pair.token0, plan))
    requires FollowsPlan(plan, taxes, swaps) && AllAccepted(taxes + swaps) && GainsNonNegative(taxes + swaps)
    requires v.active >= 0 && v.cap >= 0 && v.excessUsd >= 0 && v.threshold >= 0
    ensures var h := LiveHarvest(c, taxes + swaps, v);
      && h.Ok?
      && (LiveOutcome(c, taxes + swaps, v, m).Ok? <==> 0 <= m.minted0 <= h.value.deploy0 && 0 <= m.minted1 <= h.value.deploy1)
  {
    PlannedSwapsStayNonNegative(c, plan, taxes, swaps);
  }
}
