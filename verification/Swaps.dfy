/** Swap planning and per-swap accounting: executor/rebalance.ts and shared/strategy/rebalance.ts. */
module Swaps {
  import opened Basics

  datatype Purpose = Strategy | FeeTax

  datatype Intent = Intent(purpose: Purpose, tokenIn: Token, tokenOut: Token, amountIn: int,
                           quotedOut: int, principalIn: int, feeIn: int)

  datatype Execution = Execution(spent: int, gained: int, principalSpent: int, feeSpent: int,
                                 principalOut: int, feeOut: int, unspentPrincipal: int, unspentFee: int)

  // ---- Splitting one executed swap between principal and fee ----

  /** The intent's two buckets add up to its exact input. */
  predicate WellFormed(i: Intent) {
    0 < i.amountIn && 0 <= i.principalIn && 0 <= i.feeIn && i.principalIn + i.feeIn == i.amountIn
  }

  /** `part` is the floor of the share of `x` that belongs to `portion` out of `whole`. */
  predicate FloorShare(part: int, x: int, portion: int, whole: int) {
    part * whole <= x * portion < (part + 1) * whole
  }

  lemma OutputShare(gained: int, part: int, spent: int)
    requires 0 <= part <= spent && 0 < spent
    ensures gained >= 0 ==> 0 <= Trunc(gained * part, spent) <= gained
    ensures gained >= 0 ==> FloorShare(Trunc(gained * part, spent), gained, part, spent)
  {
    if gained >= 0 {
      MulMonotone(gained, 0, part);
      ShareBounds(gained, part, spent);
    }
  }

  /** The receipt is consistent with the intent: some input, not more than intended, and at least the minimum output. */
  predicate Acceptable(i: Intent, spent: int, gained: int, minOut: int) {
    WellFormed(i) && 0 < spent <= i.amountIn && minOut <= gained
  }

  function AllocateExecution(i: Intent, spent: int, gained: int, minOut: int): (r: Result<Execution>)
    ensures r.Ok? <==> Acceptable(i, spent, gained, minOut)
    ensures r.Ok? ==>
      var e := r.value;
      && e.spent == spent && e.gained == gained
      && e.principalSpent + e.feeSpent == spent && e.principalOut + e.feeOut == gained
      && e.principalSpent + e.unspentPrincipal == i.principalIn && e.feeSpent + e.unspentFee == i.feeIn
      && 0 <= e.principalSpent <= i.principalIn && 0 <= e.feeSpent <= i.feeIn
      && (gained >= 0 ==> 0 <= e.principalOut && 0 <= e.feeOut)
  {
    if !Acceptable(i, spent, gained, minOut) then Err("E_UNSUPPORTED_TOKEN")
    else
      ShareBounds(spent, i.principalIn, i.amountIn);
      ComplementBounds(spent, i.principalIn, i.amountIn);
      var principalSpent := spent * i.principalIn / i.amountIn;
      var feeSpent := spent - principalSpent;
      OutputShare(gained, principalSpent, spent);
      var principalOut := Trunc(gained * principalSpent, spent);
      Ok(Execution(spent, gained, principalSpent, feeSpent, principalOut, gained - principalOut,
                   i.principalIn - principalSpent, i.feeIn - feeSpent))
  }

  /** Input is split in proportion to the planned buckets, output in proportion to the input, both rounded down. */
  lemma SplitIsProportional(i: Intent, spent: int, gained: int, minOut: int)
    requires Acceptable(i, spent, gained, minOut)
    ensures var e := AllocateExecution(i, spent, gained, minOut).value;
      && FloorShare(e.principalSpent, spent, i.principalIn, i.amountIn)
      && (gained >= 0 ==> FloorShare(e.principalOut, gained, e.principalSpent, spent))
  {
    FloorBounds(spent * i.principalIn, i.amountIn);
    OutputShare(gained, AllocateExecution(i, spent, gained, minOut).value.principalSpent, spent);
  }

  /** `allocateSwapOutput`: the projection the safeguards use before anything is sent. */
  function AllocateOutput(i: Intent, actualOut: int): (r: Result<(int, int)>)
    ensures r.Ok? <==> 0 < i.amountIn && 0 <= actualOut
    ensures r.Ok? ==> r.value.0 + r.value.1 == actualOut
  {
    if i.amountIn <= 0 || actualOut < 0 then Err("E_SWAP_ACCOUNTING")
    else
      var principalOut := Trunc(actualOut * i.principalIn, i.amountIn);
      Ok((principalOut, actualOut - principalOut))
  }

  /** A pure-principal swap moves no fee, a pure-fee swap (a tax swap is one) no principal. */
  lemma PureIntents(i: Intent, spent: int, gained: int, minOut: int)
    requires Acceptable(i, spent, gained, minOut)
    ensures var e := AllocateExecution(i, spent, gained, minOut).value;
      && (i.feeIn == 0 ==> e.feeSpent == 0 && e.feeOut == 0 && e.principalSpent == spent && e.principalOut == gained)
      && (i.principalIn == 0 ==> e.principalSpent == 0 && e.principalOut == 0 && e.feeSpent == spent && e.feeOut == gained)
  {
    var e := AllocateExecution(i, spent, gained, minOut).value;
    if i.feeIn == 0 {
      FloorIs(spent * i.principalIn, i.amountIn, spent);
      TruncMultiple(gained, spent);
    }
  }

  lemma TruncMultiple(g: int, b: int)
    requires b > 0
    ensures Trunc(g * b, b) == g
  {
    if g >= 0 {
      MulMonotone(b, 0, g);
      FloorIs(g * b, b, g);
    } else {
      MulMonotone(b, g, 0);
      assert -(g * b) == (-g) * b;
      FloorIs((-g) * b, b, -g);
    }
  }

  /** Projection and settlement agree on a complete fill. */
  lemma FullFillMatchesProjection(i: Intent, gained: int, minOut: int)
    requires Acceptable(i, i.amountIn, gained, minOut) && 0 <= gained
    ensures var e := AllocateExecution(i, i.amountIn, gained, minOut).value;
      && e.unspentPrincipal == 0 && e.unspentFee == 0
      && AllocateOutput(i, gained) == Ok((e.principalOut, e.feeOut))
  {
    FloorIs(i.amountIn * i.principalIn, i.amountIn, i.principalIn);
  }
}
