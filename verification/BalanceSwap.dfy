/** Sizing the principal swap of a cycle: shared/strategy/rebalance.ts. */
module BalanceSwap {
  import opened Basics

  datatype Direction = ZeroToOne | OneToZero

  datatype BalanceSwap = BalanceSwap(tokenIn: Token, tokenOut: Token, amountIn: int, amountOut: int)

  /** The n-th answer of the quote service for selling an exact amount; it may fail. */
  type QuoteFn = (nat, Token, Token, int) -> Result<int>

  /**
   * Selling `x` of the heavy side at the effective rate quoteOut/quoteIn leaves the
   * portfolio no lighter in that side than the target ratio unitIn : unitOut.
   */
  predicate NoOvershoot(balIn: int, balOut: int, unitIn: int, unitOut: int, quoteIn: int, quoteOut: int, x: int) {
    (balOut * quoteIn + x * quoteOut) * unitIn <= (balIn - x) * unitOut * quoteIn
  }

  /** `x` is the largest sale that does not overshoot. */
  predicate ExactSale(balIn: int, balOut: int, unitIn: int, unitOut: int, quoteIn: int, quoteOut: int, x: int) {
    && 0 <= x <= balIn
    && NoOvershoot(balIn, balOut, unitIn, unitOut, quoteIn, quoteOut, x)
    && !NoOvershoot(balIn, balOut, unitIn, unitOut, quoteIn, quoteOut, x + 1)
  }

  function SolveSwapInput(balance0: int, balance1: int, unit0: int, unit1: int,
                          quoteIn: int, quoteOut: int, direction: Direction): (r: Result<int>)
    ensures r.Ok? <==> balance0 >= 0 && balance1 >= 0 && unit0 > 0 && unit1 > 0 && quoteIn > 0 && quoteOut > 0
  {
    if balance0 < 0 || balance1 < 0 || unit0 <= 0 || unit1 <= 0 || quoteIn <= 0 || quoteOut <= 0 then
      Err("invalid rebalance solve input")
    else if direction.ZeroToOne? then
      var excess := balance0 * unit1 - balance1 * unit0;
      if excess <= 0 then Ok(0)
      else
        Positive(unit1, quoteIn, quoteOut, unit0);
        Ok(Min(excess * quoteIn / (unit1 * quoteIn + quoteOut * unit0), balance0))
    else
      var excess := balance1 * unit0 - balance0 * unit1;
      if excess <= 0 then Ok(0)
      else
        Positive(unit0, quoteIn, quoteOut, unit1);
        Ok(Min(excess * quoteIn / (unit0 * quoteIn + quoteOut * unit1), balance1))
  }

  lemma Positive(a: int, b: int, c: int, d: int)
    requires a > 0 && b > 0 && c > 0 && d > 0
    ensures a * b + c * d > 0
  {
  }

  /** The closed form is the exact solution, so its clamp to the balance never fires. */
  lemma QuotientIsExactSale(balIn: int, balOut: int, unitIn: int, unitOut: int, quoteIn: int, quoteOut: int)
    requires balIn >= 0 && balOut >= 0 && unitIn > 0 && unitOut > 0 && quoteIn > 0 && quoteOut > 0
    requires balIn * unitOut - balOut * unitIn > 0
    ensures unitOut * quoteIn + quoteOut * unitIn > 0
    ensures ExactSale(balIn, balOut, unitIn, unitOut, quoteIn, quoteOut,
                      (balIn * unitOut - balOut * unitIn) * quoteIn / (unitOut * quoteIn + quoteOut * unitIn))
  {
    Positive(unitOut, quoteIn, quoteOut, unitIn);
    var excess := balIn * unitOut - balOut * unitIn;
    var d := unitOut * quoteIn + quoteOut * unitIn;
    var s := excess * quoteIn / d;
    OvershootIsLinear(balIn, balOut, unitIn, unitOut, quoteIn, quoteOut, s);
    OvershootIsLinear(balIn, balOut, unitIn, unitOut, quoteIn, quoteOut, s + 1);
    OvershootIsLinear(balIn, balOut, unitIn, unitOut, quoteIn, quoteOut, balIn + 1);
    FloorGreatest(excess * quoteIn, d, s);
    FloorGreatest(excess * quoteIn, d, s + 1);
    FloorGreatest(excess * quoteIn, d, 0);
    FloorGreatest(excess * quoteIn, d, balIn + 1);
    MulMonotone(quoteIn, 0, excess);
    assert !NoOvershoot(balIn, balOut, unitIn, unitOut, quoteIn, quoteOut, balIn + 1) by {
      MulMonotone(balOut, 0, quoteIn);
      MulMonotone(quoteOut, 1, balIn + 1);
      MulMonotone(unitIn, 1, balOut * quoteIn + (balIn + 1) * quoteOut);
      MulMonotone(unitOut, 1, quoteIn);
      assert (balIn - (balIn + 1)) * unitOut * quoteIn == -(unitOut * quoteIn);
    }
  }

  lemma OvershootIsLinear(balIn: int, balOut: int, unitIn: int, unitOut: int, quoteIn: int, quoteOut: int, x: int)
    ensures NoOvershoot(balIn, balOut, unitIn, unitOut, quoteIn, quoteOut, x)
      <==> x * (unitOut * quoteIn + quoteOut * unitIn) <= (balIn * unitOut - balOut * unitIn) * quoteIn
  {
    calc {
      (balIn - x) * unitOut * quoteIn - (balOut * quoteIn + x * quoteOut) * unitIn;
      balIn * unitOut * quoteIn - x * unitOut * quoteIn - balOut * quoteIn * unitIn - x * quoteOut * unitIn;
      (balIn * unitOut - balOut * unitIn) * quoteIn - x * (unitOut * quoteIn + quoteOut * unitIn);
    }
  }

  /** `solveSwapInput` sells exactly as much of the heavy side as the target ratio allows, and nothing of a light one. */
  lemma SolveIsExact(balance0: int, balance1: int, unit0: int, unit1: int, quoteIn: int, quoteOut: int, direction: Direction)
    requires SolveSwapInput(balance0, balance1, unit0, unit1, quoteIn, quoteOut, direction).Ok?
    ensures var s := SolveSwapInput(balance0, balance1, unit0, unit1, quoteIn, quoteOut, direction).value;
      if direction.ZeroToOne? then
        if balance0 * unit1 <= balance1 * unit0 then s == 0
        else ExactSale(balance0, balance1, unit0, unit1, quoteIn, quoteOut, s)
      else
        if balance1 * unit0 <= balance0 * unit1 then s == 0
        else ExactSale(balance1, balance0, unit1, unit0, quoteIn, quoteOut, s)
  {
    if direction.ZeroToOne? && balance0 * unit1 > balance1 * unit0 {
      QuotientIsExactSale(balance0, balance1, unit0, unit1, quoteIn, quoteOut);
    }
    if direction.OneToZero? && balance1 * unit0 > balance0 * unit1 {
      QuotientIsExactSale(balance1, balance0, unit1, unit0, quoteIn, quoteOut);
    }
  }

  function ChooseDirection(balance0: int, balance1: int, unit0: int, unit1: int): Option<Direction> {
    var left, right := balance1 * unit0, balance0 * unit1;
    if left == right then None else if left < right then Some(ZeroToOne) else Some(OneToZero)
  }

  /**
   * Up to three quotes refine the amount, then a last quote prices it. A planned swap
   * sells the heavy side only, no more than its balance, and is exact at a quoted rate.
   */
  method PlanBalanceSwap(token0: Token, token1: Token, balance0: int, balance1: int, unit0: int, unit1: int, quote: QuoteFn)
    returns (r: Result<Option<BalanceSwap>>)
    ensures balance1 * unit0 == balance0 * unit1 ==> r == Ok(None)
    ensures r.Ok? && r.value.Some? ==>
      var s := r.value.value;
      (exists n: nat :: quote(n, s.tokenIn, s.tokenOut, s.amountIn) == Ok(s.amountOut))
      && if balance1 * unit0 < balance0 * unit1 then
           && s.tokenIn == token0 && s.tokenOut == token1 && 0 < s.amountIn <= balance0
           && exists qi, qo :: 0 < qi && 0 < qo && ExactSale(balance0, balance1, unit0, unit1, qi, qo, s.amountIn)
         else
           && s.tokenIn == token1 && s.tokenOut == token0 && 0 < s.amountIn <= balance1
           && exists qi, qo :: 0 < qi && 0 < qo && ExactSale(balance1, balance0, unit1, unit0, qi, qo, s.amountIn)
  {
    var direction := ChooseDirection(balance0, balance1, unit0, unit1);
    if direction.None? { return Ok(None); }
    var zeroToOne := direction.value.ZeroToOne?;
    var tokenIn, tokenOut := if zeroToOne then token0 else token1, if zeroToOne then token1 else token0;
    var available := if zeroToOne then balance0 else balance1;
    var amountIn := Trunc(available, 2);
    if amountIn == 0 { return Ok(None); }
    var i: nat := 0;
    ghost var qi, qo := 0, 0;
    while i < 3
      invariant i <= 3
      invariant i > 0 ==> 0 < amountIn <= available && 0 < qi && 0 < qo
      invariant i > 0 && zeroToOne ==> ExactSale(balance0, balance1, unit0, unit1, qi, qo, amountIn)
      invariant i > 0 && !zeroToOne ==> ExactSale(balance1, balance0, unit1, unit0, qi, qo, amountIn)
    {
      var latest := quote(i, tokenIn, tokenOut, amountIn);
      if latest.Err? { return Err(latest.code); }
      if latest.value <= 0 { return Err("zero swap quote"); }
      var solved := SolveSwapInput(balance0, balance1, unit0, unit1, amountIn, latest.value, direction.value);
      if solved.Err? { return Err(solved.code); }
      if solved.value == 0 { return Ok(None); }
      SolveIsExact(balance0, balance1, unit0, unit1, amountIn, latest.value, direction.value);
      qi, qo := amountIn, latest.value;
      var drift := if solved.value > amountIn then solved.value - amountIn else amountIn - solved.value;
      amountIn := solved.value;
      i := i + 1;
      if drift * 500 <= available { break; }
    }
    var last := quote(i, tokenIn, tokenOut, amountIn);
    if last.Err? { return Err(last.code); }
    return Ok(Some(BalanceSwap(tokenIn, tokenOut, amountIn, last.value)));
  }
}
