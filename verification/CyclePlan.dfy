/** What a cycle sells before it mints: `planCycleSwaps` in executor/rebalance.ts. */
module CyclePlan {
  import opened Basics
  import opened Swaps
  import BalanceSwap

  datatype Handling = Reinvest | HoldTokens | ConvertToQuote

  /** The pool's tokens and the strategy's reading of them. */
  datatype Pair = Pair(token0: Token, token1: Token, riskToken: Token, quoteToken: Token)

  /** The planner refuses a strategy whose risk and quote tokens are not the pool's pair. */
  predicate ValidPair(p: Pair) {
    && p.token0 != p.token1
    && ((p.riskToken == p.token0 && p.quoteToken == p.token1) || (p.riskToken == p.token1 && p.quoteToken == p.token0))
  }

  datatype Funds = Funds(principal0: int, principal1: int, fee0: int, fee1: int)

  predicate NonNegativeFunds(f: Funds) {
    f.principal0 >= 0 && f.principal1 >= 0 && f.fee0 >= 0 && f.fee1 >= 0
  }

  /** Deployable and parked amounts of the cycle in progress, per side of the pool. */
  datatype Buckets = Buckets(lp0: int, lp1: int, held0: int, held1: int)

  predicate NonNegative(b: Buckets) {
    b.lp0 >= 0 && b.lp1 >= 0 && b.held0 >= 0 && b.held1 >= 0
  }

  function Plus(a: Buckets, b: Buckets): Buckets {
    Buckets(a.lp0 + b.lp0, a.lp1 + b.lp1, a.held0 + b.held0, a.held1 + b.held1)
  }

  const ZERO := Buckets(0, 0, 0, 0)

  function OpeningBuckets(h: Handling, f: Funds): Buckets {
    if h.Reinvest? then Buckets(f.principal0 + f.fee0, f.principal1 + f.fee1, 0, 0)
    else Buckets(f.principal0, f.principal1, f.fee0, f.fee1)
  }

  /** What one swap may take out of each bucket at most. */
  function Claim(token0: Token, i: Intent): Buckets {
    if i.tokenIn == token0 then Buckets(i.principalIn, 0, i.feeIn, 0)
    else Buckets(0, i.principalIn, 0, i.feeIn)
  }

  function Claims(token0: Token, plan: seq<Intent>): Buckets {
    if plan == [] then ZERO else Plus(Claims(token0, plan[..|plan| - 1]), Claim(token0, plan[|plan| - 1]))
  }

  predicate Covers(b: Buckets, claim: Buckets) {
    claim.lp0 <= b.lp0 && claim.lp1 <= b.lp1 && claim.held0 <= b.held0 && claim.held1 <= b.held1
  }

  predicate TradesPair(p: Pair, i: Intent) {
    (i.tokenIn == p.token0 && i.tokenOut == p.token1) || (i.tokenIn == p.token1 && i.tokenOut == p.token0)
  }

  lemma ClaimsOfOne(token0: Token, a: Intent)
    ensures Claims(token0, [a]) == Claim(token0, a)
  {
    assert [a][..0] == [];
  }

  lemma ClaimsOfTwo(token0: Token, a: Intent, b: Intent)
    ensures Claims(token0, [a, b]) == Plus(Claim(token0, a), Claim(token0, b))
  {
    assert [a, b][..1] == [a];
    ClaimsOfOne(token0, a);
  }

  function RiskFee(p: Pair, f: Funds): int {
    if p.riskToken == p.token0 then f.fee0 else f.fee1
  }

  /** Fees are sold exactly when the strategy converts them, and then all of the risk side's. */
  predicate FeesSold(p: Pair, h: Handling, f: Funds, claims: Buckets) {
    var sold := if h.ConvertToQuote? && RiskFee(p, f) > 0 then RiskFee(p, f) else 0;
    if p.riskToken == p.token0 then claims.held0 == sold && claims.held1 == 0
    else claims.held0 == 0 && claims.held1 == sold
  }

  predicate PlanShape(p: Pair, plan: seq<Intent>) {
    && |plan| <= 2
    && (forall i :: 0 <= i < |plan| ==> WellFormed(plan[i]) && plan[i].purpose.Strategy? && TradesPair(p, plan[i]))
    && (|plan| == 2 ==> plan[0].tokenIn != plan[1].tokenIn)
  }

  /** The principal swap as it comes from the balance planner: it sells one side's own balance. */
  predicate PrincipalSwap(p: Pair, open: Buckets, s: BalanceSwap.BalanceSwap) {
    && 0 < s.amountIn
    && ((s.tokenIn == p.token0 && s.tokenOut == p.token1 && s.amountIn <= open.lp0)
        || (s.tokenIn == p.token1 && s.tokenOut == p.token0 && s.amountIn <= open.lp1))
  }

  /** What the merged list must satisfy: its shape, the fees it sells, and the buckets it stays within. */
  predicate MeetsBudget(p: Pair, h: Handling, f: Funds, intents: seq<Intent>) {
    var claims := Claims(p.token0, intents);
    PlanShape(p, intents) && FeesSold(p, h, f, claims) && (NonNegativeFunds(f) ==> Covers(OpeningBuckets(h, f), claims))
  }

  function PrincipalIntent(s: BalanceSwap.BalanceSwap): Intent {
    Intent(Strategy, s.tokenIn, s.tokenOut, s.amountIn, 0, s.amountIn, 0)
  }

  function FeeIntent(p: Pair, feeRisk: int): Intent {
    Intent(Strategy, p.riskToken, p.quoteToken, feeRisk, 0, 0, feeRisk)
  }

  predicate SellsFees(p: Pair, h: Handling, f: Funds) {
    h.ConvertToQuote? && RiskFee(p, f) > 0
  }

  lemma NoSwaps(p: Pair, h: Handling, f: Funds)
    requires !SellsFees(p, h, f)
    ensures MeetsBudget(p, h, f, [])
  {
  }

  lemma PrincipalOnly(p: Pair, h: Handling, f: Funds, s: BalanceSwap.BalanceSwap)
    requires ValidPair(p) && PrincipalSwap(p, OpeningBuckets(h, f), s) && !SellsFees(p, h, f)
    ensures MeetsBudget(p, h, f, [PrincipalIntent(s)])
  {
    ClaimsOfOne(p.token0, PrincipalIntent(s));
  }

  lemma FeesOnly(p: Pair, h: Handling, f: Funds)
    requires ValidPair(p) && SellsFees(p, h, f)
    ensures MeetsBudget(p, h, f, [FeeIntent(p, RiskFee(p, f))])
  {
    ClaimsOfOne(p.token0, FeeIntent(p, RiskFee(p, f)));
  }

  lemma Merged(p: Pair, h: Handling, f: Funds, s: BalanceSwap.BalanceSwap, merged: Intent)
    requires ValidPair(p) && PrincipalSwap(p, OpeningBuckets(h, f), s) && SellsFees(p, h, f) && s.tokenIn == p.riskToken
    requires merged == PrincipalIntent(s).(amountIn := s.amountIn + RiskFee(p, f), feeIn := RiskFee(p, f))
    ensures MeetsBudget(p, h, f, [merged])
  {
    ClaimsOfOne(p.token0, merged);
  }

  lemma SideBySide(p: Pair, h: Handling, f: Funds, s: BalanceSwap.BalanceSwap)
    requires ValidPair(p) && PrincipalSwap(p, OpeningBuckets(h, f), s) && SellsFees(p, h, f) && s.tokenIn != p.riskToken
    ensures MeetsBudget(p, h, f, [PrincipalIntent(s), FeeIntent(p, RiskFee(p, f))])
  {
    ClaimsOfTwo(p.token0, PrincipalIntent(s), FeeIntent(p, RiskFee(p, f)));
  }

  /** Adds the fee sale to the principal swap of the same direction, or queues it on its own. */
  method MergeFeeSale(p: Pair, h: Handling, f: Funds, principal: Option<BalanceSwap.BalanceSwap>) returns (intents: seq<Intent>)
    requires ValidPair(p)
    requires principal.Some? ==> PrincipalSwap(p, OpeningBuckets(h, f), principal.value)
    ensures MeetsBudget(p, h, f, intents)
  {
    intents := if principal.Some? then [PrincipalIntent(principal.value)] else [];
    if h.ConvertToQuote? && RiskFee(p, f) > 0 {
      var feeRisk := RiskFee(p, f);
      if |intents| == 1 && intents[0].tokenIn == p.riskToken && intents[0].tokenOut == p.quoteToken {
        var same := intents[0];
        intents := [same.(amountIn := same.amountIn + feeRisk, feeIn := same.feeIn + feeRisk)];
        Merged(p, h, f, principal.value, intents[0]);
      } else {
        intents := intents + [FeeIntent(p, feeRisk)];
        if principal.Some? {
          assert intents == [PrincipalIntent(principal.value), FeeIntent(p, feeRisk)];
          SideBySide(p, h, f, principal.value);
        } else {
          assert intents == [FeeIntent(p, feeRisk)];
          FeesOnly(p, h, f);
        }
      }
    } else if principal.Some? {
      PrincipalOnly(p, h, f, principal.value);
    } else {
      NoSwaps(p, h, f);
    }
  }

  predicate SameButQuote(a: Intent, b: Intent) {
    b == a.(quotedOut := b.quotedOut)
  }

  /**
   * The planned swaps never claim more of a bucket than it holds, at most one of them
   * runs in each direction, and under `convert_to_quote` they sell every risk-side fee.
   */
  method PlanCycleSwaps(p: Pair, h: Handling, f: Funds, unit0: int, unit1: int,
                        principalQuote: BalanceSwap.QuoteFn, finalQuote: BalanceSwap.QuoteFn)
    returns (r: Result<(Buckets, seq<Intent>)>)
    requires ValidPair(p)
    ensures r.Ok? ==> r.value.0 == OpeningBuckets(h, f) && PlanShape(p, r.value.1)
    ensures r.Ok? ==> FeesSold(p, h, f, Claims(p.token0, r.value.1))
    ensures r.Ok? && NonNegativeFunds(f) ==> Covers(r.value.0, Claims(p.token0, r.value.1))
    ensures r.Ok? ==> forall i :: 0 <= i < |r.value.1| ==>
      var s := r.value.1[i]; finalQuote(i, s.tokenIn, s.tokenOut, s.amountIn) == Ok(s.quotedOut)
  {
    var open := OpeningBuckets(h, f);
    var principal := BalanceSwap.PlanBalanceSwap(p.token0, p.token1, open.lp0, open.lp1, unit0, unit1, principalQuote);
    if principal.Err? { return Err(principal.code); }
    var intents := MergeFeeSale(p, h, f, principal.value);
    var swaps: seq<Intent> := [];
    for i := 0 to |intents|
      invariant |swaps| == i
      invariant forall k :: 0 <= k < i ==> SameButQuote(intents[k], swaps[k])
      invariant forall k :: 0 <= k < i ==> finalQuote(k, swaps[k].tokenIn, swaps[k].tokenOut, swaps[k].amountIn) == Ok(swaps[k].quotedOut)
    {
      var q := finalQuote(i, intents[i].tokenIn, intents[i].tokenOut, intents[i].amountIn);
      if q.Err? { return Err(q.code); }
      swaps := swaps + [intents[i].(quotedOut := q.value)];
    }
    ClaimsIgnoreQuotes(p.token0, intents, swaps);
    return Ok((open, swaps));
  }

  lemma {:induction false} ClaimsIgnoreQuotes(token0: Token, a: seq<Intent>, b: seq<Intent>)
    requires |a| == |b| && forall k :: 0 <= k < |a| ==> SameButQuote(a[k], b[k])
    ensures Claims(token0, a) == Claims(token0, b)
  {
    if |a| > 0 {
      ClaimsIgnoreQuotes(token0, a[..|a| - 1], b[..|b| - 1]);
    }
  }
}
