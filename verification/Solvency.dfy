/**
 * Whole-cycle solvency: if the wallet covers every strategy at precheck and balances move
 * only by receipt amounts, the final coverage assertion of executor/runner.ts cannot fail.
 */
module Solvency {
  import opened Basics
  import opened Swaps
  import opened CyclePlan
  import opened SwapFold
  import opened CycleCommit
  import CycleReplay
  import FeeTax
  import Allocations

  function SumInt(part: Fill -> int, fills: seq<Fill>): int {
    if fills == [] then 0 else SumInt(part, fills[..|fills| - 1]) + part(fills[|fills| - 1])
  }

  /** What one swap does to the wallet's balance of a token. */
  function WalletFlow(t: Token): Fill -> int {
    (f: Fill) => (if f.intent.tokenIn == t then -f.spent else 0) + (if f.intent.tokenOut == t then f.gained else 0)
  }

  /** Income tax handed to a swap, and settlement income it brought back, counted in one token. */
  function TaxSold(t: Token): Fill -> int {
    (f: Fill) => if f.intent.purpose.FeeTax? && f.intent.tokenIn == t then f.intent.amountIn else 0
  }

  function TaxGain(t: Token): Fill -> int {
    (f: Fill) => if f.intent.purpose.FeeTax? && f.intent.tokenOut == t then f.gained else 0
  }

  /** Strategy swaps trade the pair; tax swaps sell fee income of the pair only. */
  predicate WellTraded(p: Pair, f: Fill) {
    if f.intent.purpose.FeeTax? then f.intent.principalIn == 0 && (f.intent.tokenIn == p.token0 || f.intent.tokenIn == p.token1)
    else TradesPair(p, f.intent)
  }

  /** Everything the cycle owns on one side of the pool. */
  function Side(zero: bool, b: Buckets): int {
    if zero then b.lp0 + b.held0 else b.lp1 + b.held1
  }

  /** One swap moves the books of a side exactly as it moves the wallet, except for retained tax. */
  lemma BooksFollowWallet(reinvest: bool, p: Pair, f: Fill)
    requires ValidPair(p) && Accepted(f) && WellTraded(p, f)
    ensures Side(true, EffectOf(reinvest, p.token0)(f)) == WalletFlow(p.token0)(f) + TaxSold(p.token0)(f) - TaxGain(p.token0)(f)
    ensures Side(false, EffectOf(reinvest, p.token0)(f)) == WalletFlow(p.token1)(f) + TaxSold(p.token1)(f) - TaxGain(p.token1)(f)
  {
    PureIntents(f.intent, f.spent, f.gained, f.minOut);
  }

  lemma {:induction false} SidesAdd(part: Fill -> Buckets, zero: bool, x: Fill -> int, y: Fill -> int, z: Fill -> int, fills: seq<Fill>)
    requires forall f :: f in fills ==> Side(zero, part(f)) == x(f) + y(f) - z(f)
    ensures Side(zero, SumOf(part, fills)) == SumInt(x, fills) + SumInt(y, fills) - SumInt(z, fills)
    decreases |fills|
  {
    if fills != [] {
      var init, last := fills[..|fills| - 1], fills[|fills| - 1];
      SidesAdd(part, zero, x, y, z, init);
      assert Side(zero, part(last)) == x(last) + y(last) - z(last);
      assert SumOf(part, fills) == Plus(SumOf(part, init), part(last));
    }
  }

  /** The books of side `t` moved as the wallet's balance of `t` did, except for the tax in `t`. */
  predicate SideFollows(moved: int, t: Token, fills: seq<Fill>) {
    moved == SumInt(WalletFlow(t), fills) + SumInt(TaxSold(t), fills) - SumInt(TaxGain(t), fills)
  }

  lemma BooksFollowWalletAll(reinvest: bool, p: Pair, fills: seq<Fill>)
    requires ValidPair(p) && AllAccepted(fills) && forall f :: f in fills ==> WellTraded(p, f)
    ensures SideFollows(Side(true, SumOf(EffectOf(reinvest, p.token0), fills)), p.token0, fills)
    ensures SideFollows(Side(false, SumOf(EffectOf(reinvest, p.token0), fills)), p.token1, fills)
  {
    forall f | f in fills
      ensures Side(true, EffectOf(reinvest, p.token0)(f)) == WalletFlow(p.token0)(f) + TaxSold(p.token0)(f) - TaxGain(p.token0)(f)
      ensures Side(false, EffectOf(reinvest, p.token0)(f)) == WalletFlow(p.token1)(f) + TaxSold(p.token1)(f) - TaxGain(p.token1)(f)
    {
      BooksFollowWallet(reinvest, p, f);
    }
    SidesFollow(EffectOf(reinvest, p.token0), p.token0, p.token1, fills);
  }

  lemma SidesFollow(part: Fill -> Buckets, t0: Token, t1: Token, fills: seq<Fill>)
    requires forall f :: f in fills ==> Side(true, part(f)) == WalletFlow(t0)(f) + TaxSold(t0)(f) - TaxGain(t0)(f)
    requires forall f :: f in fills ==> Side(false, part(f)) == WalletFlow(t1)(f) + TaxSold(t1)(f) - TaxGain(t1)(f)
    ensures SideFollows(Side(true, SumOf(part, fills)), t0, fills)
    ensures SideFollows(Side(false, SumOf(part, fills)), t1, fills)
  {
    SidesAdd(part, true, WalletFlow(t0), TaxSold(t0), TaxGain(t0), fills);
    SidesAdd(part, false, WalletFlow(t1), TaxSold(t1), TaxGain(t1), fills);
  }

  // ---- Conservation ----

  function Tax(c: Facts, t: Token): int {
    (if t == c.pair.token0 then c.tax0 else c.tax1) + if t == c.pair.quoteToken then c.rewardTax else 0
  }

  /** Tax that stays in the wallet outside the strategy: kept directly, or bought with a tax swap. */
  function Retained(c: Facts, fills: seq<Fill>, t: Token): int {
    Tax(c, t) - SumInt(TaxSold(t), fills) + SumInt(TaxGain(t), fills)
  }

  /** What the cycle did to the wallet's balance of `t`: exit, reward, swaps, mint. */
  function WalletChange(c: Facts, fills: seq<Fill>, m: Mint, t: Token): int {
    (if t == c.pair.token0 then c.collected.principal0 + c.collected.fee0 - m.minted0
     else c.collected.principal1 + c.collected.fee1 - m.minted1)
    + (if t == c.pair.quoteToken then c.reward else 0)
    + SumInt(WalletFlow(t), fills)
  }

  /** The strategy's new allocation is its old one plus everything the wallet received, less the retained tax. */
  predicate Conserved(c: Facts, fills: seq<Fill>, m: Mint, o: Outcome) {
    && Allocations.NonNegative(o.side0) && Allocations.NonNegative(o.side1)
    && Allocations.Sum(o.side0) == Allocations.Sum(c.prior0) + WalletChange(c, fills, m, c.pair.token0) - Retained(c, fills, c.pair.token0)
    && Allocations.Sum(o.side1) == Allocations.Sum(c.prior1) + WalletChange(c, fills, m, c.pair.token1) - Retained(c, fills, c.pair.token1)
  }

  /** Every bucket of a committed cycle is nonnegative and nothing is created or lost. */
  lemma CycleConserves(c: Facts, fills: seq<Fill>, v: Valuation, m: Mint)
    requires ValidPair(c.pair) && LiveOutcome(c, fills, v, m).Ok? && forall f :: f in fills ==> WellTraded(c.pair, f)
    ensures Conserved(c, fills, m, LiveOutcome(c, fills, v, m).value)
  {
    var moved := SumOf(EffectOf(c.handling.Reinvest?, c.pair.token0), fills);
    BooksFollowWalletAll(c.handling.Reinvest?, c.pair, fills);
    SettledSides(c, fills, v, m);
    Balance(c, fills, m, moved, LiveOutcome(c, fills, v, m).value);
  }

  predicate Settled(c: Facts, m: Mint, moved: Buckets, o: Outcome) {
    && Allocations.NonNegative(o.side0) && Allocations.NonNegative(o.side1)
    && Allocations.Sum(o.side0) == Side(true, LiveStart(c)) + Side(true, moved) - m.minted0 + c.prior0.heldFee + c.prior0.heldProfit
    && Allocations.Sum(o.side1) == Side(false, LiveStart(c)) + Side(false, moved) - m.minted1 + c.prior1.heldFee + c.prior1.heldProfit
  }

  lemma SettledSides(c: Facts, fills: seq<Fill>, v: Valuation, m: Mint)
    requires LiveOutcome(c, fills, v, m).Ok?
    ensures Settled(c, m, SumOf(EffectOf(c.handling.Reinvest?, c.pair.token0), fills), LiveOutcome(c, fills, v, m).value)
  {
  }

  lemma Balance(c: Facts, fills: seq<Fill>, m: Mint, moved: Buckets, o: Outcome)
    requires ValidPair(c.pair) && Settled(c, m, moved, o)
    requires SideFollows(Side(true, moved), c.pair.token0, fills) && SideFollows(Side(false, moved), c.pair.token1, fills)
    ensures Conserved(c, fills, m, o)
  {
    assert Side(true, LiveStart(c)) == c.collected.principal0 + c.collected.fee0 - c.tax0 + c.prior0.principal + RewardKept(c, c.pair.token0);
    assert Side(false, LiveStart(c)) == c.collected.principal1 + c.collected.fee1 - c.tax1 + c.prior1.principal + RewardKept(c, c.pair.token1);
  }

  // ---- The tax plan retains what it takes ----

  /** A tax plan of this cycle's income: not applied, or taken from one leg. */
  predicate TaxPlanned(c: Facts, market: FeeTax.Market, quote: FeeTax.QuoteFn, tax: FeeTax.Tax, i: nat) {
    var inc := FeeTax.Income(c.pair.token0, c.pair.token1, c.pair.quoteToken, c.collected.fee0, c.collected.fee1, c.reward);
    var legs := FeeTax.Legs(market, inc, quote);
    && legs.Ok? && i < 3
    && c.tax0 == tax.tax0 && c.tax1 == tax.tax1 && c.rewardTax == tax.rewardTax
    && (FeeTax.TaxesOneLeg(market, inc, legs.value, tax, i) || (tax.tax0 == 0 && tax.tax1 == 0 && tax.rewardTax == 0 && tax.swaps == []))
  }

  /** The executed tax swaps are those of the plan, re-quoted. */
  predicate FollowsTax(tax: FeeTax.Tax, taxes: seq<Fill>) {
    |taxes| == |tax.swaps| && forall i :: 0 <= i < |taxes| ==> SameButQuote(tax.swaps[i], taxes[i].intent)
  }

  lemma {:induction false} StrategySwapsSellNoTax(t: Token, taxes: seq<Fill>, swaps: seq<Fill>)
    requires forall f :: f in swaps ==> f.intent.purpose.Strategy?
    ensures SumInt(TaxSold(t), taxes + swaps) == SumInt(TaxSold(t), taxes)
    decreases |swaps|
  {
    if swaps == [] {
      assert taxes + swaps == taxes;
    } else {
      var init, last := swaps[..|swaps| - 1], swaps[|swaps| - 1];
      assert last in swaps;
      StrategySwapsSellNoTax(t, taxes, init);
      assert (taxes + swaps)[..|taxes + swaps| - 1] == taxes + init;
    }
  }

  lemma {:induction false} GainsAdd(t: Token, fills: seq<Fill>)
    requires CycleReplay.GainsNonNegative(fills)
    ensures SumInt(TaxGain(t), fills) >= 0
    decreases |fills|
  {
    if fills != [] { GainsAdd(t, fills[..|fills| - 1]); }
  }

  /** A tax planned by `PlanFeeTax` and executed leaves no token short: nothing is sold beyond the tax taken. */
  lemma PlannedTaxIsRetained(c: Facts, market: FeeTax.Market, quote: FeeTax.QuoteFn, tax: FeeTax.Tax, i: nat,
                             taxes: seq<Fill>, swaps: seq<Fill>, t: Token)
    requires ValidPair(c.pair) && (t == c.pair.token0 || t == c.pair.token1)
    requires TaxPlanned(c, market, quote, tax, i)
    requires FollowsTax(tax, taxes) && CycleReplay.GainsNonNegative(taxes + swaps)
    requires forall f :: f in swaps ==> f.intent.purpose.Strategy?
    ensures Retained(c, taxes + swaps, t) >= 0
  {
    StrategySwapsSellNoTax(t, taxes, swaps);
    GainsAdd(t, taxes + swaps);
    var taken := [tax.tax0, tax.tax1, tax.rewardTax];
    assert taken[0] == tax.tax0 && taken[1] == tax.tax1 && taken[2] == tax.rewardTax;
    if |taxes| == 1 {
      assert taxes == [taxes[0]] && taxes[..0] == [];
      assert SameButQuote(tax.swaps[0], taxes[0].intent);
      assert SumInt(TaxSold(t), taxes) == SumInt(TaxSold(t), taxes[..0]) + TaxSold(t)(taxes[0]);
    }
  }

  // ---- Coverage at the end of the cycle ----

  lemma {:induction false} OwnShareWithinTotal(wallets: map<Allocations.Sid, Allocations.Wallet>, wallet: Allocations.Wallet,
                                               rows: seq<Allocations.Row>, sid: Allocations.Sid, t: Token)
    requires Allocations.Live(wallets, wallet, sid) && forall i :: 0 <= i < |rows| ==> rows[i].amount >= 0
    ensures 0 <= Allocations.LiveTotal(map[sid := wallet], wallet, rows, t) <= Allocations.LiveTotal(wallets, wallet, rows, t)
    ensures (forall i :: 0 <= i < |rows| && rows[i].token == t ==> !Allocations.Live(wallets, wallet, rows[i].sid)) ==>
      Allocations.LiveTotal(wallets, wallet, rows, t) == 0
  {
    if rows != [] { OwnShareWithinTotal(wallets, wallet, rows[..|rows| - 1], sid, t); }
  }

  /** The wallet after the cycle: only the receipts of this cycle moved the pair's balances. */
  predicate MovedByReceipts(c: Facts, fills: seq<Fill>, m: Mint, before: map<Token, int>, after: map<Token, int>) {
    && Allocations.Get(after, c.pair.token0) == Allocations.Get(before, c.pair.token0) + WalletChange(c, fills, m, c.pair.token0)
    && Allocations.Get(after, c.pair.token1) == Allocations.Get(before, c.pair.token1) + WalletChange(c, fills, m, c.pair.token1)
  }

  /** The final assertion holds, and the slack in each token has grown by exactly the tax retained in it. */
  predicate FinallyCovered(tables: Allocations.Tables, wallet: Allocations.Wallet, sid: Allocations.Sid, c: Facts, fills: seq<Fill>,
                           o: Outcome, before: map<Token, int>, after: map<Token, int>) {
    && Allocations.UpdateCovered(tables, wallet, sid, after,
         [(c.pair.token0, Allocations.Sum(o.side0)), (c.pair.token1, Allocations.Sum(o.side1))])
    && SlackGrew(tables, wallet, sid, c, fills, c.pair.token0, Allocations.Sum(o.side0), before, after)
    && SlackGrew(tables, wallet, sid, c, fills, c.pair.token1, Allocations.Sum(o.side1), before, after)
  }

  predicate SlackGrew(tables: Allocations.Tables, wallet: Allocations.Wallet, sid: Allocations.Sid, c: Facts, fills: seq<Fill>,
                      t: Token, amount: int, before: map<Token, int>, after: map<Token, int>) {
    Allocations.Get(after, t) - Allocations.UpdatedTotal(tables, wallet, sid, t, amount)
      == Allocations.Get(before, t) - Allocations.LiveTotal(tables.wallets, wallet, tables.rows, t) + Retained(c, fills, t)
  }

  /** The wallet at precheck: every live strategy is covered, and the cycle's prior split is the stored one. */
  predicate Prechecked(tables: Allocations.Tables, wallet: Allocations.Wallet, sid: Allocations.Sid, c: Facts, before: map<Token, int>) {
    && Allocations.Valid(tables) && Allocations.Live(tables.wallets, wallet, sid)
    && Allocations.WalletCovered(tables, wallet, before)
    && Allocations.Get(before, c.pair.token0) >= 0 && Allocations.Get(before, c.pair.token1) >= 0
    && c.prior0 == Allocations.View(tables, sid, c.pair.token0) && c.prior1 == Allocations.View(tables, sid, c.pair.token1)
  }

  /**
   * A cycle that passed the precheck, whatever it swapped, filled, harvested or minted, passes
   * the final wallet assertion as well.
   */
  lemma FinalCoverageCannotFail(tables: Allocations.Tables, wallet: Allocations.Wallet, sid: Allocations.Sid,
                                c: Facts, fills: seq<Fill>, v: Valuation, m: Mint,
                                before: map<Token, int>, after: map<Token, int>)
    requires Prechecked(tables, wallet, sid, c, before) && MovedByReceipts(c, fills, m, before, after)
    requires ValidPair(c.pair) && LiveOutcome(c, fills, v, m).Ok? && forall f :: f in fills ==> WellTraded(c.pair, f)
    requires Retained(c, fills, c.pair.token0) >= 0 && Retained(c, fills, c.pair.token1) >= 0
    ensures FinallyCovered(tables, wallet, sid, c, fills, LiveOutcome(c, fills, v, m).value, before, after)
  {
    CycleConserves(c, fills, v, m);
    ConservedIsCovered(tables, wallet, sid, c, fills, m, LiveOutcome(c, fills, v, m).value, before, after);
  }

  lemma ConservedIsCovered(tables: Allocations.Tables, wallet: Allocations.Wallet, sid: Allocations.Sid, c: Facts, fills: seq<Fill>,
                           m: Mint, o: Outcome, before: map<Token, int>, after: map<Token, int>)
    requires Prechecked(tables, wallet, sid, c, before) && MovedByReceipts(c, fills, m, before, after) && Conserved(c, fills, m, o)
    requires Retained(c, fills, c.pair.token0) >= 0 && Retained(c, fills, c.pair.token1) >= 0
    ensures FinallyCovered(tables, wallet, sid, c, fills, o, before, after)
  {
    var t0, t1 := c.pair.token0, c.pair.token1;
    var a0, a1 := Allocations.Sum(o.side0), Allocations.Sum(o.side1);
    TokenCovered(tables, wallet, sid, t0, a0, WalletChange(c, fills, m, t0), Retained(c, fills, t0), before, after);
    TokenCovered(tables, wallet, sid, t1, a1, WalletChange(c, fills, m, t1), Retained(c, fills, t1), before, after);
    BothCovered(tables, wallet, sid, after, t0, a0, t1, a1);
  }

  lemma BothCovered(tables: Allocations.Tables, wallet: Allocations.Wallet, sid: Allocations.Sid, after: map<Token, int>,
                    t0: Token, a0: int, t1: Token, a1: int)
    requires 0 <= Allocations.UpdatedTotal(tables, wallet, sid, t0, a0) <= Allocations.Get(after, t0)
    requires 0 <= Allocations.UpdatedTotal(tables, wallet, sid, t1, a1) <= Allocations.Get(after, t1)
    ensures Allocations.UpdateCovered(tables, wallet, sid, after, [(t0, a0), (t1, a1)])
  {
  }

  lemma TokenCovered(tables: Allocations.Tables, wallet: Allocations.Wallet, sid: Allocations.Sid, t: Token, amount: int,
                     change: int, retained: int, before: map<Token, int>, after: map<Token, int>)
    requires Allocations.Valid(tables) && Allocations.Live(tables.wallets, wallet, sid)
    requires Allocations.WalletCovered(tables, wallet, before) && Allocations.Get(before, t) >= 0
    requires amount == Allocations.Sum(Allocations.View(tables, sid, t)) + change - retained && amount >= 0 && retained >= 0
    requires Allocations.Get(after, t) == Allocations.Get(before, t) + change
    ensures 0 <= Allocations.UpdatedTotal(tables, wallet, sid, t, amount) <= Allocations.Get(after, t)
    ensures Allocations.Get(after, t) - Allocations.UpdatedTotal(tables, wallet, sid, t, amount)
      == Allocations.Get(before, t) - Allocations.LiveTotal(tables.wallets, wallet, tables.rows, t) + retained
  {
    SlackBefore(tables, wallet, sid, before, t);
  }

  /** A covered wallet has nonnegative slack in every token, and owes at least the strategy's own share of it. */
  lemma SlackBefore(tables: Allocations.Tables, wallet: Allocations.Wallet, sid: Allocations.Sid, before: map<Token, int>, t: Token)
    requires Allocations.Valid(tables) && Allocations.Live(tables.wallets, wallet, sid)
    requires Allocations.WalletCovered(tables, wallet, before) && Allocations.Get(before, t) >= 0
    ensures Allocations.Stored(tables.rows, sid, t) == Allocations.Sum(Allocations.View(tables, sid, t))
    ensures 0 <= Allocations.Stored(tables.rows, sid, t) <= Allocations.LiveTotal(tables.wallets, wallet, tables.rows, t) <= Allocations.Get(before, t)
  {
    Allocations.ViewsAgree(tables, sid, t);
    Allocations.SoloTotal(wallet, tables.rows, sid, t);
    OwnShareWithinTotal(tables.wallets, wallet, tables.rows, sid, t);
    if i :| 0 <= i < |tables.rows| && tables.rows[i].token == t && Allocations.Live(tables.wallets, wallet, tables.rows[i].sid) {
    }
  }

  // ---- End to end ----

  lemma TaxFillsAreWellTraded(c: Facts, market: FeeTax.Market, quote: FeeTax.QuoteFn, tax: FeeTax.Tax, i: nat, taxes: seq<Fill>)
    requires ValidPair(c.pair) && TaxPlanned(c, market, quote, tax, i) && FollowsTax(tax, taxes)
    ensures forall f :: f in taxes ==> f.intent.purpose.FeeTax? && WellTraded(c.pair, f)
  {
    if |taxes| == 1 {
      assert SameButQuote(tax.swaps[0], taxes[0].intent);
      assert forall f :: f in taxes ==> f == taxes[0];
    }
  }

  lemma SwapFillsAreWellTraded(c: Facts, plan: seq<Intent>, swaps: seq<Fill>)
    requires PlanShape(c.pair, plan) && CycleReplay.FollowsPlan(plan, [], swaps)
    ensures forall f :: f in swaps ==> f.intent.purpose.Strategy? && WellTraded(c.pair, f)
  {
    forall f | f in swaps ensures f.intent.purpose.Strategy? && WellTraded(c.pair, f) {
      var k :| 0 <= k < |swaps| && swaps[k] == f;
      assert SameButQuote(plan[k], swaps[k].intent);
    }
  }

  /**
   * From the precheck to the commit: a cycle whose tax and swaps were planned as `PlanFeeTax` and
   * `PlanCycleSwaps` plan them, whatever the fills, commits nonnegative components and passes the
   * final wallet assertion.
   */
  lemma PlannedCycleIsSolvent(tables: Allocations.Tables, wallet: Allocations.Wallet, sid: Allocations.Sid,
                              c: Facts, market: FeeTax.Market, quote: FeeTax.QuoteFn, tax: FeeTax.Tax, i: nat,
                              plan: seq<Intent>, taxes: seq<Fill>, swaps: seq<Fill>, v: Valuation, m: Mint,
                              before: map<Token, int>, after: map<Token, int>)
    requires ValidPair(c.pair) && TaxPlanned(c, market, quote, tax, i) && FollowsTax(tax, taxes)
    requires PlanShape(c.pair, plan) && CycleReplay.FollowsPlan(plan, [], swaps)
    requires CycleReplay.GainsNonNegative(taxes + swaps) && LiveOutcome(c, taxes + swaps, v, m).Ok?
    requires Prechecked(tables, wallet, sid, c, before) && MovedByReceipts(c, taxes + swaps, m, before, after)
    ensures Conserved(c, taxes + swaps, m, LiveOutcome(c, taxes + swaps, v, m).value)
    ensures FinallyCovered(tables, wallet, sid, c, taxes + swaps, LiveOutcome(c, taxes + swaps, v, m).value, before, after)
  {
    TaxFillsAreWellTraded(c, market, quote, tax, i, taxes);
    SwapFillsAreWellTraded(c, plan, swaps);
    PlannedTaxIsRetained(c, market, quote, tax, i, taxes, swaps, c.pair.token0);
    PlannedTaxIsRetained(c, market, quote, tax, i, taxes, swaps, c.pair.token1);
    CycleConserves(c, taxes + swaps, v, m);
    FinalCoverageCannotFail(tables, wallet, sid, c, taxes + swaps, v, m, before, after);
  }
}
