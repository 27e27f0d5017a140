/** Income retention: executor/fee-tax.ts. */
module FeeTax {
  import opened Basics
  import opened Swaps

  const TAX_BPS := 1000

  /** One source of income with its value in the settlement token. */
  datatype Leg = Leg(token: Token, amount: int, value: int)

  datatype Tax = Tax(applied: bool, totalIncome: int, tax0: int, tax1: int, rewardTax: int,
                     fee0AfterTax: int, fee1AfterTax: int, rewardAfterTax: int,
                     retained: int, swaps: seq<Intent>)

  datatype Income = Income(token0: Token, token1: Token, rewardToken: Token, fee0: int, fee1: int, reward: int)

  datatype Market = Market(settlement: Token, wrappedNative: Token, threshold: int)

  /** Quotes for one planning pass: the settlement amount an exact sale would return. */
  type QuoteFn = (Token, Token, int) -> Result<int>

  function ValueOf(m: Market, quote: QuoteFn, token: Token, amount: int): Result<int> {
    if amount == 0 then Ok(0) else if token == m.settlement then Ok(amount) else quote(token, m.settlement, amount)
  }

  predicate IsBest(legs: seq<Leg>, keep: Leg -> bool, i: nat) {
    && i < |legs| && keep(legs[i])
    && (forall j :: 0 <= j < |legs| && keep(legs[j]) ==> legs[j].value <= legs[i].value)
    && (forall j :: 0 <= j < i && keep(legs[j]) ==> legs[j].value < legs[i].value)
  }

  /** The first leg of greatest value among those kept. */
  function BestWhere(legs: seq<Leg>, keep: Leg -> bool): (r: Option<nat>)
    ensures r.None? <==> forall j :: 0 <= j < |legs| ==> !keep(legs[j])
    ensures r.Some? ==> IsBest(legs, keep, r.value)
  {
    if legs == [] then None
    else
      var last := |legs| - 1;
      var best := BestWhere(legs[..last], keep);
      if !keep(legs[last]) then best
      else if best.None? || legs[last].value > legs[best.value].value then Some(last)
      else best
  }

  function Sufficient(target: int, token: Token): Leg -> bool {
    (leg: Leg) => leg.value >= target && leg.amount > 0 && leg.token == token
  }

  /** Settlement income first, then wrapped-native, when one such leg covers the target; else the largest leg. */
  function ChooseSource(m: Market, legs: seq<Leg>, target: int): (i: nat)
    requires |legs| == 3
    ensures i < 3
    ensures
      if exists j :: 0 <= j < 3 && Sufficient(target, m.settlement)(legs[j]) then IsBest(legs, Sufficient(target, m.settlement), i)
      else if exists j :: 0 <= j < 3 && Sufficient(target, m.wrappedNative)(legs[j]) then IsBest(legs, Sufficient(target, m.wrappedNative), i)
      else IsBest(legs, (leg: Leg) => true, i)
  {
    var stable := BestWhere(legs, Sufficient(target, m.settlement));
    var wrapped := BestWhere(legs, Sufficient(target, m.wrappedNative));
    if stable.Some? then stable.value
    else if wrapped.Some? then wrapped.value
    else
      var largest := BestWhere(legs, (leg: Leg) => true);
      assert (leg => true)(legs[0]);
      largest.value
  }

  function Target(total: int): int {
    Trunc(total * TAX_BPS, 10_000)
  }

  function RawTax(m: Market, leg: Leg, target: int): int
    requires leg.value > 0
  {
    if leg.token == m.settlement then target else Trunc(leg.amount * target + leg.value - 1, leg.value)
  }

  /** Whatever the values, the chosen leg alone can fund the whole tax. */
  lemma SourceCoversTarget(m: Market, legs: seq<Leg>, total: int)
    requires |legs| == 3 && total == legs[0].value + legs[1].value + legs[2].value && total > 0
    ensures legs[ChooseSource(m, legs, Target(total))].value >= Target(total) >= 0
    ensures Target(total) > 0 <==> total >= 10
  {
    var target := Target(total);
    var leg := legs[ChooseSource(m, legs, target)];
    assert 0 <= target && target * 10 <= total;
    if forall j :: 0 <= j < 3 ==> !Sufficient(target, m.settlement)(legs[j]) && !Sufficient(target, m.wrappedNative)(legs[j]) {
      assert forall j :: 0 <= j < 3 ==> ((l: Leg) => true)(legs[j]);
      assert legs[0].value <= leg.value && legs[1].value <= leg.value && legs[2].value <= leg.value;
    }
  }

  /** The tax taken from a leg is its exact share of the target, rounded up, and never more than the leg. */
  lemma RawTaxBounds(m: Market, leg: Leg, target: int)
    requires 0 < target <= leg.value && leg.amount > 0
    requires leg.token == m.settlement ==> leg.value == leg.amount
    ensures var tax := RawTax(m, leg, target);
      && 0 < tax <= leg.amount
      && leg.amount * target <= tax * leg.value < leg.amount * target + leg.value
  {
    if leg.token == m.settlement {
      assert leg.amount * target == target * leg.value;
    } else {
      MulMonotone(leg.amount, 1, target);
      MulMonotone(leg.amount, target, leg.value);
      CeilingBounds(leg.amount * target, leg.value, leg.amount);
    }
  }

  lemma CeilingBounds(a: int, b: int, k: int)
    requires 0 < b && 0 < a <= k * b
    ensures var q := Trunc(a + b - 1, b); 0 < q <= k && a <= q * b < a + b
  {
    var n := a + b - 1;
    FloorBounds(n, b);
    FloorGreatest(n, b, 1);
    FloorGreatest(n, b, k + 1);
    assert (k + 1) * b == k * b + b;
    assert (n / b + 1) * b == n / b * b + b;
  }

  /** The three income legs in the order they are valued; the first failing quote aborts the plan. */
  function Legs(m: Market, inc: Income, quote: QuoteFn): (r: Result<seq<Leg>>)
    ensures r.Ok? ==> |r.value| == 3
    ensures r.Ok? ==> forall j :: 0 <= j < 3 ==>
      (r.value[j].amount == 0 ==> r.value[j].value == 0)
      && (r.value[j].token == m.settlement ==> r.value[j].value == r.value[j].amount)
  {
    var v0 := ValueOf(m, quote, inc.token0, inc.fee0);
    var v1 := ValueOf(m, quote, inc.token1, inc.fee1);
    var v2 := ValueOf(m, quote, inc.rewardToken, inc.reward);
    if v0.Err? then Err(v0.code)
    else if v1.Err? then Err(v1.code)
    else if v2.Err? then Err(v2.code)
    else Ok([Leg(inc.token0, inc.fee0, v0.value), Leg(inc.token1, inc.fee1, v1.value), Leg(inc.rewardToken, inc.reward, v2.value)])
  }

  function Total(legs: seq<Leg>): int
    requires |legs| == 3
  {
    legs[0].value + legs[1].value + legs[2].value
  }

  /** The tax falls on leg `i` only, is taken from it exactly once, and is either kept or sold for settlement. */
  predicate TaxesOneLeg(m: Market, inc: Income, legs: seq<Leg>, t: Tax, i: nat)
    requires |legs| == 3 && i < 3
  {
    var taxes := [t.tax0, t.tax1, t.rewardTax];
    && (forall j :: 0 <= j < 3 && j != i ==> taxes[j] == 0)
    && 0 < taxes[i] <= legs[i].amount
    && legs[i].amount * Target(Total(legs)) <= taxes[i] * legs[i].value < legs[i].amount * Target(Total(legs)) + legs[i].value
    && t.fee0AfterTax + t.tax0 == inc.fee0 && t.fee1AfterTax + t.tax1 == inc.fee1 && t.rewardAfterTax + t.rewardTax == inc.reward
    && if legs[i].token == m.settlement then t.retained == taxes[i] == Target(Total(legs)) && t.swaps == []
       else
         && t.retained == 0 && |t.swaps| == 1 && WellFormed(t.swaps[0]) && t.swaps[0].purpose.FeeTax?
         && t.swaps[0].tokenIn == legs[i].token && t.swaps[0].tokenOut == m.settlement
         && t.swaps[0].principalIn == 0 && t.swaps[0].feeIn == taxes[i]
  }

  method PlanFeeTax(m: Market, inc: Income, quote: QuoteFn) returns (r: Result<Tax>)
    requires m.threshold >= 0
    ensures (inc.fee0 < 0 || inc.fee1 < 0 || inc.reward < 0) ==> r == Err("E_FEE_TAX_AMOUNT")
    ensures inc.fee0 >= 0 && inc.fee1 >= 0 && inc.reward >= 0 ==>
      var legs := Legs(m, inc, quote);
      if legs.Err? then r == Err(legs.code)
      else
        var total := Total(legs.value);
        if total <= m.threshold then
          r == Ok(Tax(false, total, 0, 0, 0, inc.fee0, inc.fee1, inc.reward, 0, []))
        else if total < 10 then r == Err("E_FEE_TAX_AMOUNT")
        else
          var i := ChooseSource(m, legs.value, Target(total));
          if r.Ok? then r.value.applied && r.value.totalIncome == total && TaxesOneLeg(m, inc, legs.value, r.value, i)
          else legs.value[i].token != m.settlement && exists amount :: quote(legs.value[i].token, m.settlement, amount) == Err(r.code)
  {
    if inc.fee0 < 0 || inc.fee1 < 0 || inc.reward < 0 { return Err("E_FEE_TAX_AMOUNT"); }
    var valued := Legs(m, inc, quote);
    if valued.Err? { return Err(valued.code); }
    var legs := valued.value;
    var total := Total(legs);
    if total <= m.threshold {
      return Ok(Tax(false, total, 0, 0, 0, inc.fee0, inc.fee1, inc.reward, 0, []));
    }
    var target := Target(total);
    var i := ChooseSource(m, legs, target);
    var source := legs[i];
    SourceCoversTarget(m, legs, total);
    if source.value <= 0 || source.amount <= 0 || target <= 0 { return Err("E_FEE_TAX_AMOUNT"); }
    RawTaxBounds(m, source, target);
    var rawTax := RawTax(m, source, target);
    var taxes := [if i == 0 then rawTax else 0, if i == 1 then rawTax else 0, if i == 2 then rawTax else 0];
    var retained := 0;
    var swaps: seq<Intent> := [];
    for k := 0 to 3
      invariant k <= i ==> retained == 0 && swaps == []
      invariant k > i && source.token == m.settlement ==> retained == rawTax && swaps == []
      invariant k > i && source.token != m.settlement ==>
        retained == 0 && |swaps| == 1 && swaps[0] == Intent(FeeTax, source.token, m.settlement, rawTax, swaps[0].quotedOut, 0, rawTax)
    {
      if taxes[k] == 0 { continue; }
      if legs[k].token == m.settlement {
        retained := retained + taxes[k];
      } else {
        var quoted := quote(legs[k].token, m.settlement, taxes[k]);
        if quoted.Err? { return Err(quoted.code); }
        swaps := swaps + [Intent(FeeTax, legs[k].token, m.settlement, taxes[k], quoted.value, 0, taxes[k])];
      }
    }
    return Ok(Tax(true, total, taxes[0], taxes[1], taxes[2], inc.fee0 - taxes[0], inc.fee1 - taxes[1],
                  inc.reward - taxes[2], retained, swaps));
  }
}
