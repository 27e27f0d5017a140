/**
 * Replay equals live: rebuilding a cycle's books from confirmed receipts gives what the
 * runner would have committed (executor/runner.ts against executor/recovery-runner.ts).
 */
module CycleReplay {
  import opened Basics
  import opened Swaps
  import opened CyclePlan
  import opened SwapFold
  import Capital

  // ---- The books do not depend on the order of the swaps ----

  lemma {:induction false} SumConcat(part: Fill -> Buckets, a: seq<Fill>, b: seq<Fill>)
    ensures SumOf(part, a + b) == Plus(SumOf(part, a), SumOf(part, b))
  {
    if b == [] {
      assert a + b == a;
    } else {
      SumConcat(part, a, b[..|b| - 1]);
      assert (a + b)[..|a + b| - 1] == a + b[..|b| - 1];
    }
  }

  lemma SumSnoc(part: Fill -> Buckets, init: seq<Fill>, last: Fill)
    ensures SumOf(part, init + [last]) == Plus(SumOf(part, init), part(last))
  {
    assert (init + [last])[..|init|] == init;
  }

  lemma RemoveFromMiddle(part: Fill -> Buckets, left: seq<Fill>, mid: Fill, right: seq<Fill>)
    ensures SumOf(part, left + [mid] + right) == Plus(SumOf(part, left + right), part(mid))
  {
    SumConcat(part, left + [mid], right);
    SumSnoc(part, left, mid);
    SumConcat(part, left, right);
  }

  lemma {:induction false} SumPermutes(part: Fill -> Buckets, a: seq<Fill>, b: seq<Fill>)
    requires multiset(a) == multiset(b)
    ensures SumOf(part, a) == SumOf(part, b)
    decreases |a|
  {
    if a == [] {
      assert |b| == |multiset(b)| == 0;
    } else {
      var last, init := a[|a| - 1], a[..|a| - 1];
      assert a == init + [last];
      assert last in multiset(b);
      var i :| 0 <= i < |b| && b[i] == last;
      var left, right := b[..i], b[i + 1..];
      assert b == left + [last] + right;
      assert multiset(left + right) == multiset(b) - multiset{last} == multiset(init);
      SumPermutes(part, init, left + right);
      RemoveFromMiddle(part, left, last, right);
      SumSnoc(part, init, last);
    }
  }

  lemma {:induction false} SumNonNegative(part: Fill -> Buckets, fills: seq<Fill>)
    requires forall f :: f in fills ==> NonNegative(part(f))
    ensures NonNegative(SumOf(part, fills))
    decreases |fills|
  {
    if fills != [] { SumNonNegative(part, fills[..|fills| - 1]); }
  }

  lemma {:induction false} SumsAdd(p: Fill -> Buckets, q: Fill -> Buckets, both: Fill -> Buckets, fills: seq<Fill>)
    requires forall f :: f in fills ==> both(f) == Plus(p(f), q(f))
    ensures SumOf(both, fills) == Plus(SumOf(p, fills), SumOf(q, fills))
    decreases |fills|
  {
    if fills != [] {
      var init, last := fills[..|fills| - 1], fills[|fills| - 1];
      SumsAdd(p, q, both, init);
      assert SumOf(both, fills) == Plus(SumOf(both, init), both(last));
      assert SumOf(p, fills) == Plus(SumOf(p, init), p(last));
      assert SumOf(q, fills) == Plus(SumOf(q, init), q(last));
    }
  }

  // ---- Swaps that were planned against the current books never overdraw them ----

  /** What a swap was planned to take out of the books; a tax swap takes nothing more. */
  function ClaimOf(token0: Token): Fill -> Buckets {
    (f: Fill) => if f.intent.purpose.FeeTax? then ZERO else Claim(token0, f.intent)
  }

  predicate GainsNonNegative(fills: seq<Fill>) {
    forall f :: f in fills ==> 0 <= f.gained
  }

  /** One run or recovery pass: its swaps were planned against the books it started from. */
  predicate PlannedRound(token0: Token, b: Buckets, round: seq<Fill>) {
    AllAccepted(round) && GainsNonNegative(round) && Covers(b, SumOf(ClaimOf(token0), round))
  }

  lemma EffectWithinClaim(reinvest: bool, token0: Token, f: Fill)
    requires Accepted(f) && 0 <= f.gained
    ensures NonNegative(ClaimOf(token0)(f))
    ensures NonNegative(Plus(EffectOf(reinvest, token0)(f), ClaimOf(token0)(f)))
  {
  }

  /** If every part is covered by its claim, what a prefix drains is covered by all the claims together. */
  lemma DrainWithinSum(effect: Fill -> Buckets, claim: Fill -> Buckets, done: seq<Fill>, rest: seq<Fill>)
    requires forall f :: f in done + rest ==> NonNegative(claim(f)) && NonNegative(Plus(effect(f), claim(f)))
    ensures NonNegative(Plus(SumOf(effect, done), SumOf(claim, done + rest)))
  {
    var surplus := (f: Fill) => Plus(effect(f), claim(f));
    SumsAdd(effect, claim, surplus, done);
    SumNonNegative(surplus, done);
    SumNonNegative(claim, rest);
    SumConcat(claim, done, rest);
  }

  lemma RoundNeverOverdraws(reinvest: bool, token0: Token, b: Buckets, round: seq<Fill>, k: nat)
    requires NonNegative(b) && PlannedRound(token0, b, round) && k <= |round|
    ensures NonNegative(After(reinvest, token0, b, round[..k]))
  {
    forall f | f in round
      ensures NonNegative(ClaimOf(token0)(f)) && NonNegative(Plus(EffectOf(reinvest, token0)(f), ClaimOf(token0)(f)))
    {
      EffectWithinClaim(reinvest, token0, f);
    }
    assert round == round[..k] + round[k..];
    DrainWithinSum(EffectOf(reinvest, token0), ClaimOf(token0), round[..k], round[k..]);
  }

  /** Everything that was executed, pass by pass. */
  function Flatten<T>(rounds: seq<seq<T>>): seq<T> {
    if rounds == [] then [] else Flatten(rounds[..|rounds| - 1]) + rounds[|rounds| - 1]
  }

  /** A lawful history: any number of passes, each planned against what the earlier ones left. */
  predicate Lawful(reinvest: bool, token0: Token, start: Buckets, rounds: seq<seq<Fill>>) {
    if rounds == [] then NonNegative(start)
    else
      var earlier := rounds[..|rounds| - 1];
      && Lawful(reinvest, token0, start, earlier)
      && PlannedRound(token0, After(reinvest, token0, start, Flatten(earlier)), rounds[|rounds| - 1])
  }

  /** Over any number of crashes and re-plans, no bucket ever goes below zero in execution order. */
  lemma {:induction false} HistoryNeverOverdraws(reinvest: bool, token0: Token, start: Buckets, rounds: seq<seq<Fill>>, k: nat)
    requires Lawful(reinvest, token0, start, rounds) && k <= |Flatten(rounds)|
    ensures NonNegative(After(reinvest, token0, start, Flatten(rounds)[..k]))
    decreases |rounds|
  {
    if rounds != [] {
      var earlier, round := rounds[..|rounds| - 1], rounds[|rounds| - 1];
      var before, all := Flatten(earlier), Flatten(rounds);
      if k <= |before| {
        assert all[..k] == before[..k];
        HistoryNeverOverdraws(reinvest, token0, start, earlier, k);
      } else {
        assert before[..|before|] == before;
        HistoryNeverOverdraws(reinvest, token0, start, earlier, |before|);
        assert all[..k] == before + round[..k - |before|];
        SumConcat(EffectOf(reinvest, token0), before, round[..k - |before|]);
        RoundNeverOverdraws(reinvest, token0, After(reinvest, token0, start, before), round, k - |before|);
      }
    }
  }

  lemma {:induction false} LawfulIsAccepted(reinvest: bool, token0: Token, start: Buckets, rounds: seq<seq<Fill>>)
    requires Lawful(reinvest, token0, start, rounds)
    ensures AllAccepted(Flatten(rounds))
    decreases |rounds|
  {
    if rounds != [] { LawfulIsAccepted(reinvest, token0, start, rounds[..|rounds| - 1]); }
  }

  /** The fills of a pass follow a plan: tax swaps first, then the planned swaps in order, re-quoted. */
  predicate FollowsPlan(plan: seq<Intent>, taxes: seq<Fill>, swaps: seq<Fill>) {
    && (forall f :: f in taxes ==> f.intent.purpose.FeeTax?)
    && |swaps| <= |plan|
    && forall i :: 0 <= i < |swaps| ==> swaps[i].intent.purpose.Strategy? && SameButQuote(plan[i], swaps[i].intent)
  }

  lemma {:induction false} SwapClaims(token0: Token, plan: seq<Intent>, swaps: seq<Fill>)
    requires FollowsPlan(plan, [], swaps)
    ensures SumOf(ClaimOf(token0), swaps) == Claims(token0, plan[..|swaps|])
  {
    if swaps != [] {
      var n := |swaps| - 1;
      assert plan[..n + 1][..n] == plan[..n];
      SwapClaims(token0, plan, swaps[..n]);
    }
  }

  lemma {:induction false} SumZero(part: Fill -> Buckets, fills: seq<Fill>)
    requires forall f :: f in fills ==> part(f) == ZERO
    ensures SumOf(part, fills) == ZERO
    decreases |fills|
  {
    if fills != [] { SumZero(part, fills[..|fills| - 1]); }
  }

  lemma {:induction false} ClaimsOfPrefix(token0: Token, plan: seq<Intent>, k: nat)
    requires k <= |plan| && forall i :: 0 <= i < |plan| ==> WellFormed(plan[i])
    ensures Covers(Claims(token0, plan), Claims(token0, plan[..k]))
  {
    if k == |plan| {
      assert plan[..k] == plan;
    } else {
      assert plan[..|plan| - 1][..k] == plan[..k];
      ClaimsOfPrefix(token0, plan[..|plan| - 1], k);
      assert WellFormed(plan[|plan| - 1]);
    }
  }

  /** Any executed prefix of a cycle plan is a planned round; this is what `PlanCycleSwaps` guarantees. */
  lemma ExecutedPlanIsPlannedRound(h: Handling, p: Pair, f: Funds, plan: seq<Intent>, taxes: seq<Fill>, swaps: seq<Fill>)
    requires PlanShape(p, plan) && Covers(OpeningBuckets(h, f), Claims(p.token0, plan))
    requires FollowsPlan(plan, taxes, swaps) && AllAccepted(taxes + swaps) && GainsNonNegative(taxes + swaps)
    ensures PlannedRound(p.token0, OpeningBuckets(h, f), taxes + swaps)
  {
    forall f | f in taxes ensures ClaimOf(p.token0)(f) == ZERO { assert f.intent.purpose.FeeTax?; }
    SumZero(ClaimOf(p.token0), taxes);
    SwapClaims(p.token0, plan, swaps);
    SumConcat(ClaimOf(p.token0), taxes, swaps);
    ClaimsOfPrefix(p.token0, plan, |swaps|);
  }

  /** What a recovery pass plans from: the books the executed swaps left. */
  function RemainingFunds(b: Buckets): Funds {
    Funds(b.lp0, b.lp1, b.held0, b.held1)
  }

  /** Under `reinvest` no planned swap carries fee input. */
  predicate NoFeeInput(fills: seq<Fill>) {
    forall f :: f in fills && f.intent.purpose.Strategy? ==> f.intent.feeIn == 0
  }

  lemma ReinvestEffect(token0: Token, f: Fill)
    requires Accepted(f) && (f.intent.purpose.Strategy? ==> f.intent.feeIn == 0)
    ensures HoldsNothing(EffectOf(true, token0)(f))
  {
    PureIntents(f.intent, f.spent, f.gained, f.minOut);
  }

  predicate HoldsNothing(b: Buckets) {
    b.held0 == 0 && b.held1 == 0
  }

  lemma {:induction false} SumHoldsNothing(part: Fill -> Buckets, fills: seq<Fill>)
    requires forall f :: f in fills ==> HoldsNothing(part(f))
    ensures HoldsNothing(SumOf(part, fills))
    decreases |fills|
  {
    if fills != [] { SumHoldsNothing(part, fills[..|fills| - 1]); }
  }

  /** Under `reinvest` nothing is ever held, so re-planning from the remaining funds opens with the same books. */
  lemma ReplanOpensWithTheBooks(h: Handling, token0: Token, f: Funds, history: seq<Fill>)
    requires AllAccepted(history) && (h.Reinvest? ==> NoFeeInput(history))
    ensures var b := After(h.Reinvest?, token0, OpeningBuckets(h, f), history);
      OpeningBuckets(h, RemainingFunds(b)) == b
  {
    if h.Reinvest? {
      forall f | f in history ensures HoldsNothing(EffectOf(true, token0)(f)) { ReinvestEffect(token0, f); }
      SumHoldsNothing(EffectOf(true, token0), history);
    }
  }

  /** A recovery pass that executes a prefix of its own plan extends a lawful history to a lawful history. */
  lemma RecoveryPassKeepsHistoryLawful(h: Handling, p: Pair, f: Funds, rounds: seq<seq<Fill>>, plan: seq<Intent>,
                                       taxes: seq<Fill>, swaps: seq<Fill>)
    requires Lawful(h.Reinvest?, p.token0, OpeningBuckets(h, f), rounds) && (h.Reinvest? ==> NoFeeInput(Flatten(rounds)))
    requires var b := After(h.Reinvest?, p.token0, OpeningBuckets(h, f), Flatten(rounds));
      PlanShape(p, plan) && Covers(OpeningBuckets(h, RemainingFunds(b)), Claims(p.token0, plan))
    requires FollowsPlan(plan, taxes, swaps) && AllAccepted(taxes + swaps) && GainsNonNegative(taxes + swaps)
    ensures Lawful(h.Reinvest?, p.token0, OpeningBuckets(h, f), rounds + [taxes + swaps])
  {
    var b := After(h.Reinvest?, p.token0, OpeningBuckets(h, f), Flatten(rounds));
    LawfulIsAccepted(h.Reinvest?, p.token0, OpeningBuckets(h, f), rounds);
    ReplanOpensWithTheBooks(h, p.token0, f, Flatten(rounds));
    ExecutedPlanIsPlannedRound(h, p, RemainingFunds(b), plan, taxes, swaps);
    var all := rounds + [taxes + swaps];
    assert all[..|all| - 1] == rounds;
  }

  // ---- Replay against the history ----

  /**
   * Whatever order recovery walks the receipts in, a successful replay equals the executed
   * history; and it succeeds exactly when that order keeps every bucket covered.
   */
  lemma ReplayEqualsHistory(reinvest: bool, token0: Token, start: Buckets, notes: SwapNotes,
                            receipts: seq<Receipt>, fills: seq<Fill>, history: seq<Fill>)
    requires Resolves(notes, receipts, fills) && multiset(fills) == multiset(history) && AllAccepted(history)
    ensures AllAccepted(fills)
    ensures var r := Replay(reinvest, token0, start, notes, receipts);
      && (r.Ok? <==> StaysCovered(reinvest, token0, start, fills))
      && (r.Ok? ==> r.value == After(reinvest, token0, start, history))
  {
    forall f | f in fills ensures Accepted(f) { assert f in multiset(history); }
    SumPermutes(EffectOf(reinvest, token0), history, fills);
    ReplayMeaning(reinvest, token0, start, notes, receipts, fills);
  }

  /** `g` is the executed `f`, except that a tax swap may carry another quote and another minimum. */
  predicate UpToTaxQuote(f: Fill, g: Fill) {
    && g == f.(intent := f.intent.(quotedOut := g.intent.quotedOut), minOut := g.minOut)
    && (f.intent.purpose.Strategy? ==> g == f)
  }

  predicate AllUpToTaxQuotes(fs: seq<Fill>, gs: seq<Fill>) {
    |fs| == |gs| && forall i :: 0 <= i < |fs| ==> UpToTaxQuote(fs[i], gs[i])
  }

  /** Every executed output also clears the minimum it is now judged by. */
  predicate Clears(fs: seq<Fill>, gs: seq<Fill>)
    requires |fs| == |gs|
  {
    forall i :: 0 <= i < |fs| ==> gs[i].minOut <= fs[i].gained
  }

  lemma RequotedEffect(reinvest: bool, token0: Token, f: Fill, g: Fill)
    requires UpToTaxQuote(f, g) && Accepted(f)
    ensures Accepted(g) <==> g.minOut <= f.gained
    ensures Accepted(g) ==> EffectOf(reinvest, token0)(g) == EffectOf(reinvest, token0)(f)
  {
  }

  lemma {:induction false} RequotedSum(reinvest: bool, token0: Token, fs: seq<Fill>, gs: seq<Fill>)
    requires AllUpToTaxQuotes(fs, gs) && AllAccepted(fs) && Clears(fs, gs)
    ensures SumOf(EffectOf(reinvest, token0), gs) == SumOf(EffectOf(reinvest, token0), fs)
  {
    if fs != [] {
      var n := |fs| - 1;
      RequotedSum(reinvest, token0, fs[..n], gs[..n]);
      RequotedEffect(reinvest, token0, fs[n], gs[n]);
    }
  }

  lemma RequotedCoverage(reinvest: bool, token0: Token, start: Buckets, fs: seq<Fill>, gs: seq<Fill>)
    requires AllUpToTaxQuotes(fs, gs) && AllAccepted(fs) && Clears(fs, gs)
    ensures StaysCovered(reinvest, token0, start, gs) <==> StaysCovered(reinvest, token0, start, fs)
  {
    forall k | 0 < k <= |fs|
      ensures After(reinvest, token0, start, gs[..k]) == After(reinvest, token0, start, fs[..k])
      ensures gs[k - 1].intent.purpose == fs[k - 1].intent.purpose
    {
      RequotedSum(reinvest, token0, fs[..k], gs[..k]);
    }
  }

  /**
   * The whole replay, tax records rewritten or not: it succeeds exactly when every output clears
   * the minimum it is judged by and no bucket is overdrawn along the receipts, and it then gives
   * the books of the executed history, in whatever order that was executed.
   */
  lemma ReplayUpToTaxQuotes(reinvest: bool, token0: Token, start: Buckets, notes: SwapNotes, receipts: seq<Receipt>,
                            gs: seq<Fill>, fs: seq<Fill>, history: seq<Fill>)
    requires Resolves(notes, receipts, gs) && AllUpToTaxQuotes(fs, gs)
    requires multiset(fs) == multiset(history) && AllAccepted(history)
    ensures var r := Replay(reinvest, token0, start, notes, receipts);
      && (r.Ok? <==> Clears(fs, gs) && StaysCovered(reinvest, token0, start, fs))
      && (r.Ok? ==> r.value == After(reinvest, token0, start, history))
  {
    forall f | f in fs ensures Accepted(f) { assert f in multiset(history); }
    forall i | 0 <= i < |fs| ensures Accepted(gs[i]) <==> gs[i].minOut <= fs[i].gained { RequotedEffect(reinvest, token0, fs[i], gs[i]); }
    assert AllAccepted(gs) <==> Clears(fs, gs) by {
      if AllAccepted(gs) { forall i | 0 <= i < |fs| ensures gs[i].minOut <= fs[i].gained { assert gs[i] in gs; } }
    }
    ReplayMeaning(reinvest, token0, start, notes, receipts, gs);
    if Clears(fs, gs) {
      RequotedCoverage(reinvest, token0, start, fs, gs);
      RequotedSum(reinvest, token0, fs, gs);
      SumPermutes(EffectOf(reinvest, token0), history, fs);
    }
  }

  // ---- Passes that use ascending blocks of slots ----

  /** The same swaps pass by pass, each pass in an order of its own. */
  predicate SamePasses(a: seq<seq<Fill>>, b: seq<seq<Fill>>) {
    |a| == |b| && forall i :: 0 <= i < |a| ==> multiset(a[i]) == multiset(b[i])
  }

  lemma {:induction false} SamePassesSameSwaps(a: seq<seq<Fill>>, b: seq<seq<Fill>>)
    requires SamePasses(a, b)
    ensures multiset(Flatten(a)) == multiset(Flatten(b))
  {
    if a != [] { SamePassesSameSwaps(a[..|a| - 1], b[..|b| - 1]); }
  }

  lemma RoundPermutes(token0: Token, b: Buckets, round: seq<Fill>, other: seq<Fill>)
    requires PlannedRound(token0, b, round) && multiset(round) == multiset(other)
    ensures PlannedRound(token0, b, other)
  {
    forall f | f in other ensures f in round { assert f in multiset(round); }
    SumPermutes(ClaimOf(token0), round, other);
  }

  /** A lawful history stays lawful when each pass is reordered within itself. */
  lemma {:induction false} ReorderedIsLawful(reinvest: bool, token0: Token, start: Buckets, rounds: seq<seq<Fill>>, other: seq<seq<Fill>>)
    requires Lawful(reinvest, token0, start, rounds) && SamePasses(rounds, other)
    ensures Lawful(reinvest, token0, start, other)
    decreases |rounds|
  {
    if rounds != [] {
      var n := |rounds| - 1;
      ReorderedIsLawful(reinvest, token0, start, rounds[..n], other[..n]);
      SamePassesSameSwaps(rounds[..n], other[..n]);
      SumPermutes(EffectOf(reinvest, token0), Flatten(rounds[..n]), Flatten(other[..n]));
      RoundPermutes(token0, After(reinvest, token0, start, Flatten(rounds[..n])), rounds[n], other[n]);
    }
  }

  /** When every pass lies wholly behind the earlier ones in slot order, slot order stays covered. */
  lemma InBlocksStaysCovered(reinvest: bool, token0: Token, start: Buckets, rounds: seq<seq<Fill>>, blocks: seq<seq<Fill>>)
    requires Lawful(reinvest, token0, start, rounds) && SamePasses(rounds, blocks)
    ensures StaysCovered(reinvest, token0, start, Flatten(blocks))
  {
    ReorderedIsLawful(reinvest, token0, start, rounds, blocks);
    forall k | 0 < k <= |Flatten(blocks)| ensures NonNegative(After(reinvest, token0, start, Flatten(blocks)[..k])) {
      HistoryNeverOverdraws(reinvest, token0, start, blocks, k);
    }
  }

  /** When the slots were executed in slot order, the replay of a lawful history cannot fail. */
  lemma InOrderReplaySucceeds(reinvest: bool, token0: Token, start: Buckets, notes: SwapNotes,
                              receipts: seq<Receipt>, rounds: seq<seq<Fill>>)
    requires Lawful(reinvest, token0, start, rounds) && Resolves(notes, receipts, Flatten(rounds))
    ensures Replay(reinvest, token0, start, notes, receipts) == Ok(After(reinvest, token0, start, Flatten(rounds)))
  {
    LawfulIsAccepted(reinvest, token0, start, rounds);
    forall k | 0 < k <= |Flatten(rounds)| ensures NonNegative(After(reinvest, token0, start, Flatten(rounds)[..k])) {
      HistoryNeverOverdraws(reinvest, token0, start, rounds, k);
    }
    ReplayMeaning(reinvest, token0, start, notes, receipts, Flatten(rounds));
  }
}
