/**
 * The swap accounting of a cycle, twice: as the runner folds swaps while it sends them
 * (executor/runner.ts) and as recovery rebuilds it from receipts (executor/recovery-runner.ts).
 */
module SwapFold {
  import opened Basics
  import opened Swaps
  import opened CyclePlan

  /** One confirmed swap: what was intended, what the wallet saw, and the minimum it was sent with. */
  datatype Fill = Fill(txIndex: nat, intent: Intent, spent: int, gained: int, minOut: int)

  predicate Accepted(f: Fill) {
    Acceptable(f.intent, f.spent, f.gained, f.minOut)
  }

  predicate AllAccepted(fills: seq<Fill>) {
    forall f :: f in fills ==> Accepted(f)
  }

  /** How one accepted swap moves the buckets; a tax swap only returns its unspent input. */
  function Effect(reinvest: bool, token0: Token, f: Fill): Buckets
    requires Accepted(f)
  {
    var e := AllocateExecution(f.intent, f.spent, f.gained, f.minOut).value;
    var in0 := f.intent.tokenIn == token0;
    if f.intent.purpose.FeeTax? then
      if reinvest then
        if in0 then Buckets(e.unspentFee, 0, 0, 0) else Buckets(0, e.unspentFee, 0, 0)
      else
        if in0 then Buckets(0, 0, e.unspentFee, 0) else Buckets(0, 0, 0, e.unspentFee)
    else
      if in0 then Buckets(-e.principalSpent, e.principalOut, -e.feeSpent, e.feeOut)
      else Buckets(e.principalOut, -e.principalSpent, e.feeOut, -e.feeSpent)
  }

  function EffectOf(reinvest: bool, token0: Token): Fill -> Buckets {
    (f: Fill) => if Accepted(f) then Effect(reinvest, token0, f) else ZERO
  }

  /** Adds up any per-swap quantity. */
  function SumOf(part: Fill -> Buckets, fills: seq<Fill>): Buckets {
    if fills == [] then ZERO else Plus(SumOf(part, fills[..|fills| - 1]), part(fills[|fills| - 1]))
  }

  /** The books after all these swaps, in any order. */
  function After(reinvest: bool, token0: Token, start: Buckets, fills: seq<Fill>): Buckets {
    Plus(start, SumOf(EffectOf(reinvest, token0), fills))
  }

  /** The bookkeeping both loops perform for one accepted swap. */
  function Book(reinvest: bool, token0: Token, b: Buckets, intent: Intent, e: Execution): Buckets {
    if intent.purpose.FeeTax? then
      if intent.tokenIn == token0 then
        if reinvest then b.(lp0 := b.lp0 + e.unspentFee) else b.(held0 := b.held0 + e.unspentFee)
      else
        if reinvest then b.(lp1 := b.lp1 + e.unspentFee) else b.(held1 := b.held1 + e.unspentFee)
    else if intent.tokenIn == token0 then
      Buckets(b.lp0 - e.principalSpent, b.lp1 + e.principalOut, b.held0 - e.feeSpent, b.held1 + e.feeOut)
    else
      Buckets(b.lp0 + e.principalOut, b.lp1 - e.principalSpent, b.held0 + e.feeOut, b.held1 - e.feeSpent)
  }

  // ---- The live loop ----

  /** The runner's loop over its swaps: each fill is checked and booked before the next is sent. */
  method RunSwapLoop(reinvest: bool, token0: Token, start: Buckets, fills: seq<Fill>) returns (r: Result<Buckets>)
    ensures r.Ok? <==> AllAccepted(fills)
    ensures r.Ok? ==> r.value == After(reinvest, token0, start, fills)
    ensures r.Err? ==> r.code == "E_UNSUPPORTED_TOKEN"
  {
    var b := start;
    for i := 0 to |fills|
      invariant AllAccepted(fills[..i])
      invariant b == After(reinvest, token0, start, fills[..i])
    {
      var execution := AllocateExecution(fills[i].intent, fills[i].spent, fills[i].gained, fills[i].minOut);
      if execution.Err? { return Err(execution.code); }
      assert fills[..i + 1][..i] == fills[..i];
      BookIsEffect(reinvest, token0, b, fills[i]);
      b := Book(reinvest, token0, b, fills[i].intent, execution.value);
    }
    assert fills[..|fills|] == fills;
    return Ok(b);
  }

  // ---- The replay ----

  /** A stored swap-plan record; `minOut` is absent until the swap is about to be signed. */
  datatype Record = Record(intent: Intent, minOut: Option<int>)

  /** The runner's own note of a swap it finished, found again by transaction hash. */
  datatype Audit = Audit(intent: Intent, minOut: Option<int>)

  /** A confirmed swap receipt: its slot, hash, and net ERC-20 flow per token for the wallet. */
  datatype Receipt = Receipt(txIndex: nat, hash: nat, flow: map<Token, int>)

  datatype SwapNotes = SwapNotes(records: map<nat, Record>, audits: map<nat, Audit>, slippageBps: int)

  function Flow(r: Receipt, t: Token): int {
    if t in r.flow then r.flow[t] else 0
  }

  /** What a receipt is replayed as: the audited intent if there is one, else the stored record's. */
  function Resolve(notes: SwapNotes, r: Receipt): Result<Fill> {
    if r.txIndex !in notes.records then Err("E_RECOVERY_CONTEXT")
    else
      var record := notes.records[r.txIndex];
      var intent := if r.hash in notes.audits then notes.audits[r.hash].intent else record.intent;
      var minOut :=
        if record.minOut.Some? then record.minOut.value
        else if r.hash in notes.audits && notes.audits[r.hash].minOut.Some? then notes.audits[r.hash].minOut.value
        else ApplySlippage(intent.quotedOut, notes.slippageBps);
      Ok(Fill(r.txIndex, intent, -Flow(r, intent.tokenIn), Flow(r, intent.tokenOut), minOut))
  }

  predicate Resolves(notes: SwapNotes, receipts: seq<Receipt>, fills: seq<Fill>) {
    |receipts| == |fills| && forall i :: 0 <= i < |receipts| ==> Resolve(notes, receipts[i]) == Ok(fills[i])
  }

  /** Recovery's verdict on one swap: acceptable, and a strategy swap may not overdraw a bucket. */
  function ReplayStep(reinvest: bool, token0: Token, b: Buckets, f: Fill): Result<Buckets> {
    var execution := AllocateExecution(f.intent, f.spent, f.gained, f.minOut);
    if execution.Err? then Err(execution.code)
    else
      var next := Book(reinvest, token0, b, f.intent, execution.value);
      if f.intent.purpose.Strategy? && !NonNegative(next) then Err("E_RECOVERY_CONTEXT") else Ok(next)
  }

  function Replay(reinvest: bool, token0: Token, start: Buckets, notes: SwapNotes, receipts: seq<Receipt>): Result<Buckets> {
    if receipts == [] then Ok(start)
    else
      var before := Replay(reinvest, token0, start, notes, receipts[..|receipts| - 1]);
      var row := Resolve(notes, receipts[|receipts| - 1]);
      if before.Err? then before
      else if row.Err? then Err(row.code)
      else ReplayStep(reinvest, token0, before.value, row.value)
  }

  /** `applyExecutedSwaps`: walk the confirmed swap receipts in slot order, stopping at the first error. */
  method ApplyExecutedSwaps(h: Handling, token0: Token, funds: Funds, notes: SwapNotes, receipts: seq<Receipt>)
    returns (r: Result<Buckets>)
    ensures r == Replay(h.Reinvest?, token0, OpeningBuckets(h, funds), notes, receipts)
  {
    ghost var start := OpeningBuckets(h, funds);
    var b := OpeningBuckets(h, funds);
    for i := 0 to |receipts|
      invariant Replay(h.Reinvest?, token0, start, notes, receipts[..i]) == Ok(b)
    {
      var row := Resolve(notes, receipts[i]);
      assert receipts[..i + 1][..i] == receipts[..i];
      if row.Err? {
        FirstErrorWins(h.Reinvest?, token0, start, notes, receipts, i + 1);
        return Err(row.code);
      }
      var next := ReplayStep(h.Reinvest?, token0, b, row.value);
      if next.Err? {
        FirstErrorWins(h.Reinvest?, token0, start, notes, receipts, i + 1);
        return Err(next.code);
      }
      b := next.value;
    }
    assert receipts[..|receipts|] == receipts;
    return Ok(b);
  }

  lemma {:induction false} FirstErrorWins(reinvest: bool, token0: Token, start: Buckets, notes: SwapNotes,
                                          receipts: seq<Receipt>, k: nat)
    requires k <= |receipts| && Replay(reinvest, token0, start, notes, receipts[..k]).Err?
    ensures Replay(reinvest, token0, start, notes, receipts) == Replay(reinvest, token0, start, notes, receipts[..k])
  {
    if k == |receipts| {
      assert receipts[..k] == receipts;
    } else {
      var shorter := receipts[..|receipts| - 1];
      assert shorter[..k] == receipts[..k];
      FirstErrorWins(reinvest, token0, start, notes, shorter, k);
    }
  }

  /** Every prefix that ends in a strategy swap leaves all four buckets nonnegative. */
  predicate StaysCovered(reinvest: bool, token0: Token, start: Buckets, fills: seq<Fill>) {
    forall k :: 0 < k <= |fills| && fills[k - 1].intent.purpose.Strategy? ==>
      NonNegative(After(reinvest, token0, start, fills[..k]))
  }

  /**
   * What the replay decides: it succeeds exactly when every execution is acceptable and no
   * strategy swap overdraws a bucket, and it then agrees with the sum of all the effects.
   */
  lemma {:induction false} ReplayMeaning(reinvest: bool, token0: Token, start: Buckets, notes: SwapNotes,
                                         receipts: seq<Receipt>, fills: seq<Fill>)
    requires Resolves(notes, receipts, fills)
    ensures Replay(reinvest, token0, start, notes, receipts).Ok?
      <==> AllAccepted(fills) && StaysCovered(reinvest, token0, start, fills)
    ensures Replay(reinvest, token0, start, notes, receipts).Ok? ==>
      Replay(reinvest, token0, start, notes, receipts).value == After(reinvest, token0, start, fills)
  {
    if receipts != [] {
      var n := |receipts| - 1;
      ReplayMeaning(reinvest, token0, start, notes, receipts[..n], fills[..n]);
      LastStep(reinvest, token0, start, notes, receipts, fills);
      StepMeaning(reinvest, token0, After(reinvest, token0, start, fills[..n]), fills[n]);
      CoveredPrefix(reinvest, token0, start, fills);
    }
  }

  lemma LastStep(reinvest: bool, token0: Token, start: Buckets, notes: SwapNotes, receipts: seq<Receipt>, fills: seq<Fill>)
    requires Resolves(notes, receipts, fills) && receipts != []
    ensures var n := |receipts| - 1; AllAccepted(fills) <==> AllAccepted(fills[..n]) && Accepted(fills[n])
    ensures var n := |receipts| - 1; Accepted(fills[n]) ==>
      After(reinvest, token0, start, fills) == Plus(After(reinvest, token0, start, fills[..n]), Effect(reinvest, token0, fills[n]))
    ensures var n := |receipts| - 1; var before := Replay(reinvest, token0, start, notes, receipts[..n]);
      Replay(reinvest, token0, start, notes, receipts)
        == if before.Err? then before else ReplayStep(reinvest, token0, before.value, fills[n])
  {
    var n := |receipts| - 1;
    assert fills == fills[..n] + [fills[n]];
  }

  lemma StepMeaning(reinvest: bool, token0: Token, b: Buckets, f: Fill)
    ensures !Accepted(f) ==> ReplayStep(reinvest, token0, b, f).Err?
    ensures Accepted(f) ==>
      var next := Plus(b, Effect(reinvest, token0, f));
      ReplayStep(reinvest, token0, b, f)
        == (if f.intent.purpose.Strategy? && !NonNegative(next) then Err("E_RECOVERY_CONTEXT") else Ok(next))
  {
    if Accepted(f) { BookIsEffect(reinvest, token0, b, f); }
  }

  lemma BookIsEffect(reinvest: bool, token0: Token, b: Buckets, f: Fill)
    requires Accepted(f)
    ensures Book(reinvest, token0, b, f.intent, AllocateExecution(f.intent, f.spent, f.gained, f.minOut).value)
      == Plus(b, Effect(reinvest, token0, f))
  {
  }

  lemma CoveredPrefix(reinvest: bool, token0: Token, start: Buckets, fills: seq<Fill>)
    requires fills != []
    ensures var n := |fills| - 1;
      StaysCovered(reinvest, token0, start, fills) <==>
        StaysCovered(reinvest, token0, start, fills[..n])
        && (fills[n].intent.purpose.Strategy? ==> NonNegative(After(reinvest, token0, start, fills)))
  {
    var n := |fills| - 1;
    assert fills[..n + 1] == fills;
    assert forall k :: 0 < k <= n ==> fills[..n][..k] == fills[..k];
    if StaysCovered(reinvest, token0, start, fills) {
      forall k | 0 < k <= n && fills[..n][k - 1].intent.purpose.Strategy?
        ensures NonNegative(After(reinvest, token0, start, fills[..n][..k]))
      {
        assert fills[k - 1].intent.purpose.Strategy?;
      }
    }
  }
}
