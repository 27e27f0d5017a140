/**
 * How far a failing recovery may go: executor/swap-escalation.ts, executor/final-swap.ts and
 * the retry policy of executor/store.ts.
 */
module RetryLadder {
  import opened Basics

  const MAX_SLIPPAGE_BPS := 1000

  /** Each consecutive revert doubles the tolerated slippage, up to the cap; the exponent stops at 8. */
  function Escalated(base: nat, reverts: int): nat {
    Min(Max(base, MAX_SLIPPAGE_BPS), base * Pow2(Min(Max(reverts, 0), 8)))
  }

  predicate AtCap(base: nat, reverts: int) {
    Escalated(base, reverts) >= MAX_SLIPPAGE_BPS
  }

  lemma {:induction false} Pow2Grows(a: nat, b: nat)
    requires a <= b
    ensures 1 <= Pow2(a) <= Pow2(b)
  {
    if a < b {
      Pow2Grows(a, b - 1);
    } else if a > 0 {
      Pow2Grows(a - 1, a - 1);
    }
  }

  lemma SmallPowers()
    ensures Pow2(1) == 2 && Pow2(2) == 4 && Pow2(3) == 8 && Pow2(4) == 16
    ensures Pow2(5) == 32 && Pow2(6) == 64 && Pow2(7) == 128 && Pow2(8) == 256
  {
    assert Pow2(4) == 16;
    assert Pow2(6) == 64;
  }

  /** Escalation only widens, and for a legal base it stays legal: no send is refused for its slippage alone. */
  lemma EscalationIsBounded(base: nat, a: int, b: int)
    requires a <= b && base <= MAX_SLIPPAGE_BPS
    ensures base <= Escalated(base, a) <= Escalated(base, b) <= MAX_SLIPPAGE_BPS
  {
    var ea, eb := Min(Max(a, 0), 8), Min(Max(b, 0), 8);
    Pow2Grows(0, ea);
    Pow2Grows(ea, eb);
    MulMonotone(base, 1, Pow2(ea));
    MulMonotone(base, Pow2(ea), Pow2(eb));
  }

  // ---- The retry policy ----

  datatype Retry = Retry(attempts: nat, errorStreak: nat, failStreak: nat, lastError: Option<string>)

  datatype Verdict = Verdict(next: Retry, delaySeconds: int, quarantined: bool)

  /** The stored text is redacted, the comparison is with the raw one. */
  function NextRetry(prev: Retry, code: string, eligible: bool, defer: bool, redact: string -> string): (v: Verdict)
    ensures 5 <= v.delaySeconds <= 300 && (defer ==> 30 <= v.delaySeconds && !v.quarantined)
  {
    var attempts := prev.attempts + 1;
    var streak := if prev.lastError == Some(code) then prev.errorStreak + 1 else 1;
    var failStreak := if eligible then prev.failStreak + 1 else prev.failStreak;
    Pow2Grows(0, Min(attempts - 1, 6));
    Pow2Grows(0, Min(attempts - 1, 4));
    var baseDelay := Min(300, 5 * Pow2(Min(attempts - 1, 6)));
    var delay := if defer then Max(baseDelay, Min(300, 30 * Pow2(Min(attempts - 1, 4)))) else baseDelay;
    Verdict(Retry(attempts, streak, failStreak, Some(redact(code))), delay,
            if defer then false else (eligible && streak >= 3) || failStreak >= 3)
  }

  const FRESH := Retry(0, 0, 0, None)

  // ---- One swap that reverts every time ----

  /** The base the quarantine test uses: an absent or zero setting counts as 100. */
  function QuarantineBase(configured: nat): nat {
    if configured > 0 then configured else 100
  }

  /** The verdict of the k-th failure in a row of the same recovery swap. */
  function RevertVerdict(configured: nat, k: nat, redact: string -> string): Verdict
    requires k >= 1
  {
    var prev := if k == 1 then FRESH else RevertVerdict(configured, k - 1, redact).next;
    NextRetry(prev, "E_TX_REVERTED", true, !AtCap(QuarantineBase(configured), k), redact)
  }

  lemma {:induction false} RevertCounters(configured: nat, k: nat, redact: string -> string)
    requires k >= 1 && redact("E_TX_REVERTED") == "E_TX_REVERTED"
    ensures RevertVerdict(configured, k, redact).next == Retry(k, k, k, Some("E_TX_REVERTED"))
  {
    if k > 1 { RevertCounters(configured, k - 1, redact); }
  }

  /** The revert that first reaches the cap, when one does. */
  function FirstAtCap(base: nat): nat {
    if base * 2 >= 1000 then 1
    else if base * 4 >= 1000 then 2
    else if base * 8 >= 1000 then 3
    else if base * 16 >= 1000 then 4
    else if base * 32 >= 1000 then 5
    else if base * 64 >= 1000 then 6
    else if base * 128 >= 1000 then 7
    else 8
  }

  lemma CapIsReachedOnce(base: nat, k: nat)
    requires k >= 1
    ensures AtCap(base, k) <==> base >= 4 && k >= FirstAtCap(base)
  {
    SmallPowers();
    var e := Min(k, 8);
    Pow2Grows(0, e);
    assert AtCap(base, k) <==> base * Pow2(e) >= 1000;
    var n := FirstAtCap(base);
    if e >= n {
      Pow2Grows(n, e);
      MulMonotone(base, Pow2(n), Pow2(e));
    } else {
      Pow2Grows(e, n - 1);
      MulMonotone(base, Pow2(e), Pow2(n - 1));
    }
    if base < 4 {
      Pow2Grows(e, 8);
      MulMonotone(base, Pow2(e), 256);
    }
  }

  /**
   * `FirstAtCap(b)` is the least n >= 1 with b * 2^n >= 1000. A swap that reverts every time is
   * quarantined exactly from failure max(3, n) on; with 1 to 3 bps configured it never is.
   */
  lemma QuarantineExactly(configured: nat, k: nat, redact: string -> string)
    requires k >= 1 && redact("E_TX_REVERTED") == "E_TX_REVERTED"
    ensures var b := QuarantineBase(configured);
      RevertVerdict(configured, k, redact).quarantined <==> b >= 4 && k >= Max(3, FirstAtCap(b))
  {
    RevertCounters(configured, k, redact);
    if k > 1 { RevertCounters(configured, k - 1, redact); }
    CapIsReachedOnce(QuarantineBase(configured), k);
  }

  lemma FirstAtCapIsLeast(base: nat, n: nat)
    requires base >= 4 && n >= 1
    ensures base * Pow2(FirstAtCap(base)) >= 1000
    ensures base * Pow2(n) >= 1000 ==> FirstAtCap(base) <= n
  {
    SmallPowers();
    var first := FirstAtCap(base);
    if n < first {
      Pow2Grows(n, first - 1);
      MulMonotone(base, Pow2(n), Pow2(first - 1));
    }
  }

  // ---- Mixed failures without deferral ----

  function AfterFailures(codes: seq<string>, eligible: string -> bool, redact: string -> string): Verdict {
    if codes == [] then Verdict(FRESH, 5, false)
    else
      var n := |codes| - 1;
      NextRetry(AfterFailures(codes[..n], eligible, redact).next, codes[n], eligible(codes[n]), false, redact)
  }

  function ExecutionFailures(codes: seq<string>, eligible: string -> bool): nat {
    if codes == [] then 0
    else ExecutionFailures(codes[..|codes| - 1], eligible) + if eligible(codes[|codes| - 1]) then 1 else 0
  }

  /** However provider noise interleaves, quarantine comes exactly at the third execution-grade failure. */
  lemma {:induction false} ThirdStrikeQuarantines(codes: seq<string>, eligible: string -> bool, redact: string -> string)
    requires forall c :: eligible(redact(c)) == eligible(c)
    ensures var v := AfterFailures(codes, eligible, redact);
      && v.next.failStreak == ExecutionFailures(codes, eligible)
      && (v.quarantined <==> ExecutionFailures(codes, eligible) >= 3)
      && (v.next.lastError.Some? && eligible(v.next.lastError.value) ==> v.next.errorStreak <= v.next.failStreak)
  {
    if codes != [] {
      ThirdStrikeQuarantines(codes[..|codes| - 1], eligible, redact);
      var last := codes[|codes| - 1];
      assert eligible(redact(last)) == eligible(last);
    }
  }

  // ---- Bounds of an accepted send ----

  datatype Bounds = Bounds(amountOut: int, minOut: int, slippageBps: int, baseBps: int, maxImpactBps: Option<int>, referenceOut: Option<int>)

  function AssertFinalSwapBounds(b: Bounds): Result<()> {
    if b.slippageBps < 0 || b.slippageBps > 1000 || b.baseBps < 0 || b.baseBps > 1000 then Err("E_SWAP_SLIPPAGE")
    else if b.amountOut <= 0 || b.minOut <= 0 || b.minOut > b.amountOut || b.minOut < ApplySlippage(b.amountOut, b.slippageBps) then
      Err("E_SWAP_MIN_OUT")
    else if b.maxImpactBps.None? || b.referenceOut.None? then Ok(())
    else if b.referenceOut.value <= 0 || b.maxImpactBps.value < 0 || b.maxImpactBps.value > 10_000 then Err("E_SWAP_IMPACT")
    else
      var room := b.referenceOut.value * (10_000 - b.maxImpactBps.value);
      var quoteFloor := Trunc(room + 9_999, 10_000);
      var executionFloor := Trunc(room * (10_000 - b.slippageBps) + 99_999_999, 100_000_000);
      if b.amountOut < quoteFloor || b.minOut < executionFloor then Err("E_SWAP_IMPACT") else Ok(())
  }

  /** Rounding up makes the comparison with the exact fraction exact. */
  lemma CeilingTest(x: int, a: int, d: int)
    requires a >= 0 && d > 0
    ensures x >= Trunc(a + d - 1, d) <==> x * d >= a
  {
    var q := Trunc(a + d - 1, d);
    FloorBounds(a + d - 1, d);
    assert (q + 1) * d == q * d + d;
    assert (q - 1) * d == q * d - d;
    if x >= q { MulMonotone(d, q, x); } else { MulMonotone(d, x, q - 1); }
  }

  /**
   * With a pool reference a send is accepted exactly when its quote is within the impact limit of
   * the reference and its minimum within impact and slippage together; so however far the
   * slippage escalated, minOut * 10^5 >= reference * (10000 - impact) * 9.
   */
  lemma AcceptedSendIsBounded(b: Bounds)
    requires b.maxImpactBps.Some? && b.referenceOut.Some? && b.referenceOut.value > 0 && 0 <= b.maxImpactBps.value <= 10_000
    requires 0 <= b.slippageBps <= 1000 && 0 <= b.baseBps <= 1000
    requires 0 < b.minOut <= b.amountOut && ApplySlippage(b.amountOut, b.slippageBps) <= b.minOut
    ensures var room := b.referenceOut.value * (10_000 - b.maxImpactBps.value);
      && (AssertFinalSwapBounds(b).Ok? <==>
            b.amountOut * 10_000 >= room && b.minOut * 100_000_000 >= room * (10_000 - b.slippageBps))
      && (AssertFinalSwapBounds(b).Ok? ==> b.minOut * 100_000 >= room * 9)
  {
    var room := b.referenceOut.value * (10_000 - b.maxImpactBps.value);
    MulMonotone(b.referenceOut.value, 0, 10_000 - b.maxImpactBps.value);
    MulMonotone(room, 0, 10_000 - b.slippageBps);
    MulMonotone(room, 9_000, 10_000 - b.slippageBps);
    CeilingTest(b.amountOut, room, 10_000);
    CeilingTest(b.minOut, room * (10_000 - b.slippageBps), 100_000_000);
  }

  /** Every acceptance, with or without a reference, promises a positive minimum no further below the quote than the slippage. */
  lemma AcceptedSendHasMinimum(b: Bounds)
    requires AssertFinalSwapBounds(b).Ok?
    ensures 0 < b.minOut <= b.amountOut && (b.minOut + 1) * 10_000 > b.amountOut * 9_000
  {
    var kept := b.amountOut * (10_000 - b.slippageBps);
    MulMonotone(b.amountOut, 9_000, 10_000 - b.slippageBps);
    FloorBounds(kept, 10_000);
    MulMonotone(10_000, ApplySlippage(b.amountOut, b.slippageBps) + 1, b.minOut + 1);
  }
}
