/** Withdrawing retained profit under crashes: executor/profit-withdrawal.ts. */
module ProfitWithdrawal {
  import opened Basics
  import Allocations

  type Component = Allocations.Component
  type Split = map<Token, Component>

  /** What became of a signed transaction; the chain's verdict is final. */
  datatype Fate = Unsent | Live | Mined(spent: int, gained: int) | Dead

  /** A stored swap record: sell all retained profit of one token for the settlement token. */
  datatype Swap = Swap(tokenIn: Token, amountIn: int, minOut: int, fate: Fate)

  /** The two ledger rows of a booked swap, found again by its transaction hash. */
  datatype Row = Row(amountIn: int, amountOut: int)

  datatype JobState = Running | Recovery | Completed | Failed

  /** The plan is fixed when the job starts: the settlement token and the tokens to convert. */
  datatype Plan = Plan(settlement: Token, convert: seq<Token>, initial: Split, eth: bool)

  datatype State = State(job: JobState, split: Split, swaps: seq<Swap>, ledger: map<nat, Row>,
                         release: Option<int>, unwrap: Fate, summary: Option<int>)

  function Of(s: Split, t: Token): Component {
    if t in s then s[t] else Allocations.NOTHING
  }

  predicate Contains(tokens: seq<Token>, t: Token) {
    exists i :: 0 <= i < |tokens| && tokens[i] == t
  }

  /** Every token holding profit is converted, except the settlement token itself. */
  predicate ValidPlan(p: Plan) {
    && (forall i, j :: 0 <= i < j < |p.convert| ==> p.convert[i] != p.convert[j])
    && (forall i :: 0 <= i < |p.convert| ==> p.convert[i] != p.settlement && Of(p.initial, p.convert[i]).heldProfit > 0)
    && (forall t :: t in p.initial && t != p.settlement && p.initial[t].heldProfit > 0 ==> Contains(p.convert, t))
  }

  function Started(p: Plan): State {
    State(Running, p.initial, [], map[], None, Unsent, None)
  }

  /** A confirmed swap that spent exactly its amount and returned at least its minimum. */
  predicate Bookable(w: Swap) {
    w.fate.Mined? && w.fate.spent == w.amountIn && w.fate.gained >= w.minOut
  }

  /** The atomic mutation of one confirmed swap: profit moves from its token to the settlement token, ledger rows included. */
  function Book(p: Plan, s: State, i: nat): State
    requires i < |s.swaps| && s.swaps[i].fate.Mined?
  {
    var w := s.swaps[i];
    var source, target := Of(s.split, w.tokenIn), Of(s.split, p.settlement);
    s.(split := s.split[w.tokenIn := source.(heldProfit := source.heldProfit - w.amountIn)]
                       [p.settlement := target.(heldProfit := target.heldProfit + w.fate.gained)],
       ledger := s.ledger[i := Row(w.amountIn, w.fate.gained)])
  }

  predicate AllBooked(s: State) {
    forall i :: 0 <= i < |s.swaps| ==> i in s.ledger
  }

  predicate NothingLeft(p: Plan, split: Split) {
    forall i :: 0 <= i < |p.convert| ==> Of(split, p.convert[i]).heldProfit <= 0
  }

  predicate NonePending(s: State) {
    !s.unwrap.Live? && forall i :: 0 <= i < |s.swaps| ==> !s.swaps[i].fate.Live?
  }

  predicate MinedAreBooked(s: State) {
    forall i :: 0 <= i < |s.swaps| && s.swaps[i].fate.Mined? ==> i in s.ledger
  }

  predicate Open(s: State) {
    s.job.Running? || s.job.Recovery?
  }

  datatype Event =
    | Record(minOut: nat)                        // the next conversion becomes durable before it is approved
    | Sign(swap: nat)
    | Mine(swap: nat, spent: int, gained: int)   // the chain decides
    | Drop(swap: nat)
    | BookSwap(swap: nat)                        // by the live run after its receipt, or by recovery when the ledger has no row
    | Price                                      // the release amount is fixed and stored
    | SignUnwrap | MineUnwrap | DropUnwrap
    | Finalize                                   // the release mutation with its summary row
    | Complete                                   // the job row, a separate transaction
    | Interrupt                                  // error or crash: the job waits for recovery
    | FailClean                                  // nothing was or can be confirmed
    | Abandon                                    // recovery keeps the rest retained

  function SetFate(s: State, i: nat, f: Fate): State
    requires i < |s.swaps|
  {
    s.(swaps := s.swaps[i := s.swaps[i].(fate := f)])
  }

  /** An event that is not enabled changes nothing. */
  function Step(p: Plan, s: State, e: Event): State {
    match e
    case Record(minOut) =>
      if s.job.Running? && |s.swaps| < |p.convert| then
        var t := p.convert[|s.swaps|];
        s.(swaps := s.swaps + [Swap(t, Of(p.initial, t).heldProfit, minOut, Unsent)])
      else s
    case Sign(i) => if s.job.Running? && i < |s.swaps| && s.swaps[i].fate.Unsent? then SetFate(s, i, Live) else s
    case Mine(i, spent, gained) => if i < |s.swaps| && s.swaps[i].fate.Live? then SetFate(s, i, Mined(spent, gained)) else s
    case Drop(i) => if i < |s.swaps| && s.swaps[i].fate.Live? then SetFate(s, i, Dead) else s
    case BookSwap(i) =>
      if Open(s) && i < |s.swaps| && i !in s.ledger && Bookable(s.swaps[i]) && Of(s.split, s.swaps[i].tokenIn).heldProfit >= s.swaps[i].amountIn
      then Book(p, s, i) else s
    case Price =>
      if Open(s) && s.release.None? && AllBooked(s) && NothingLeft(p, s.split) && Of(s.split, p.settlement).heldProfit > 0
      then s.(release := Some(Of(s.split, p.settlement).heldProfit)) else s
    case SignUnwrap => if s.job.Running? && p.eth && s.release.Some? && s.unwrap.Unsent? then s.(unwrap := Live) else s
    case MineUnwrap => if s.unwrap.Live? && s.release.Some? then s.(unwrap := Mined(s.release.value, s.release.value)) else s
    case DropUnwrap => if s.unwrap.Live? then s.(unwrap := Dead) else s
    case Finalize =>
      if Open(s) && s.release.Some? && s.summary.None? && (p.eth ==> s.unwrap.Mined?) && Of(s.split, p.settlement).heldProfit == s.release.value
      then s.(split := s.split[p.settlement := Of(s.split, p.settlement).(heldProfit := 0)], summary := s.release) else s
    case Complete => if Open(s) && s.summary.Some? then s.(job := Completed) else s
    case Interrupt => if s.job.Running? then s.(job := Recovery) else s
    case FailClean =>
      if s.job.Running? && s.summary.None? && NonePending(s) && !s.unwrap.Mined? && forall i :: 0 <= i < |s.swaps| ==> !s.swaps[i].fate.Mined?
      then s.(job := Failed) else s
    case Abandon =>
      if s.job.Recovery? && s.summary.None? && NonePending(s) && MinedAreBooked(s) && !s.unwrap.Mined? then s.(job := Failed) else s
  }

  function Run(p: Plan, events: seq<Event>): State {
    if events == [] then Started(p) else Step(p, Run(p, events[..|events| - 1]), events[|events| - 1])
  }

  // ---- The fold of the booked swaps ----

  function Sold(swaps: seq<Swap>, booked: set<nat>, t: Token): int {
    if swaps == [] then 0
    else
      var n := |swaps| - 1;
      Sold(swaps[..n], booked, t) + if n in booked && swaps[n].tokenIn == t then swaps[n].amountIn else 0
  }

  function Gained(swaps: seq<Swap>, booked: set<nat>): int {
    if swaps == [] then 0
    else
      var n := |swaps| - 1;
      Gained(swaps[..n], booked) + if n in booked && swaps[n].fate.Mined? then swaps[n].fate.gained else 0
  }

  /** What a token's retained profit must be: the start, less what was sold, plus what the conversions brought, less the release. */
  function Expected(p: Plan, s: State, t: Token): int {
    Of(p.initial, t).heldProfit - Sold(s.swaps, s.ledger.Keys, t)
    + if t == p.settlement then Gained(s.swaps, s.ledger.Keys) - (if s.summary.Some? then s.summary.value else 0) else 0
  }

  ghost predicate Accounted(p: Plan, s: State) {
    forall t ::
      && Of(s.split, t).heldProfit == Expected(p, s, t)
      && Of(s.split, t).principal == Of(p.initial, t).principal && Of(s.split, t).heldFee == Of(p.initial, t).heldFee
  }

  predicate RecordsFollowPlan(p: Plan, s: State) {
    && |s.swaps| <= |p.convert|
    && forall i :: 0 <= i < |s.swaps| ==> s.swaps[i].tokenIn == p.convert[i] && s.swaps[i].amountIn == Of(p.initial, p.convert[i]).heldProfit
  }

  predicate BookedAreConfirmed(s: State) {
    forall i :: i in s.ledger ==> i < |s.swaps| && Bookable(s.swaps[i]) && s.ledger[i] == Row(s.swaps[i].amountIn, s.swaps[i].fate.gained)
  }

  /** Once priced, every conversion is recorded and booked, and the price is the initial settlement profit plus all gains. */
  predicate ReleaseSound(p: Plan, s: State) {
    && (s.release.Some? ==> |s.swaps| == |p.convert| && AllBooked(s))
    && (s.release.Some? ==> s.release.value == Of(p.initial, p.settlement).heldProfit + Gained(s.swaps, s.ledger.Keys))
    && (s.summary.Some? ==> s.release == s.summary)
    && (s.unwrap.Mined? ==> s.release.Some?)
    && (s.job.Completed? ==> s.summary.Some?)
    && (s.job.Failed? ==> s.summary.None? && MinedAreBooked(s) && NonePending(s))
  }

  ghost predicate Inv(p: Plan, s: State) {
    Accounted(p, s) && RecordsFollowPlan(p, s) && BookedAreConfirmed(s) && ReleaseSound(p, s)
  }

  /** The fold depends only on the booked swaps. */
  lemma {:induction false} FoldUnchanged(a: seq<Swap>, b: seq<Swap>, booked: set<nat>, t: Token)
    requires |a| == |b| && forall i :: 0 <= i < |a| && i in booked ==> b[i] == a[i]
    ensures Sold(b, booked, t) == Sold(a, booked, t) && Gained(b, booked) == Gained(a, booked)
  {
    if a != [] { FoldUnchanged(a[..|a| - 1], b[..|b| - 1], booked, t); }
  }

  lemma {:induction false} FoldAfterBooking(swaps: seq<Swap>, booked: set<nat>, i: nat, t: Token)
    requires i < |swaps| && i !in booked && swaps[i].fate.Mined?
    ensures Sold(swaps, booked + {i}, t) == Sold(swaps, booked, t) + if swaps[i].tokenIn == t then swaps[i].amountIn else 0
    ensures Gained(swaps, booked + {i}) == Gained(swaps, booked) + swaps[i].fate.gained
    decreases |swaps|
  {
    var n := |swaps| - 1;
    if i == n {
      FoldBeyond(swaps[..n], booked, n, t);
    } else {
      FoldAfterBooking(swaps[..n], booked, i, t);
    }
  }

  lemma {:induction false} FoldBeyond(swaps: seq<Swap>, booked: set<nat>, i: nat, t: Token)
    requires i >= |swaps|
    ensures Sold(swaps, booked + {i}, t) == Sold(swaps, booked, t) && Gained(swaps, booked + {i}) == Gained(swaps, booked)
  {
    if swaps != [] { FoldBeyond(swaps[..|swaps| - 1], booked, i, t); }
  }

  /** Each token is sold by at most one record, so all of its profit is gone exactly when that record is booked. */
  lemma {:induction false} SoldOnce(p: Plan, swaps: seq<Swap>, booked: set<nat>, k: nat)
    requires ValidPlan(p) && k < |p.convert| && |swaps| <= |p.convert|
    requires forall i :: 0 <= i < |swaps| ==> swaps[i].tokenIn == p.convert[i] && swaps[i].amountIn == Of(p.initial, p.convert[i]).heldProfit
    ensures Sold(swaps, booked, p.convert[k]) == if k < |swaps| && k in booked then Of(p.initial, p.convert[k]).heldProfit else 0
    ensures Sold(swaps, booked, p.settlement) == 0
  {
    if swaps != [] { SoldOnce(p, swaps[..|swaps| - 1], booked, k); }
  }

  lemma BookKeepsAccounts(p: Plan, s: State, i: nat)
    requires ValidPlan(p) && Inv(p, s) && i < |s.swaps| && i !in s.ledger && Bookable(s.swaps[i]) && s.summary.None?
    ensures Accounted(p, Book(p, s, i))
  {
    var k := Book(p, s, i);
    assert k.ledger.Keys == s.ledger.Keys + {i};
    forall t ensures Of(k.split, t).heldProfit == Expected(p, k, t) && Of(k.split, t).principal == Of(p.initial, t).principal
      && Of(k.split, t).heldFee == Of(p.initial, t).heldFee
    {
      FoldAfterBooking(s.swaps, s.ledger.Keys, i, t);
      assert Of(s.split, t).heldProfit == Expected(p, s, t);
      assert Of(s.split, p.settlement).heldProfit == Expected(p, s, p.settlement);
    }
  }

  lemma UnrecordedProfitRemains(p: Plan, s: State)
    requires ValidPlan(p) && Inv(p, s) && |s.swaps| < |p.convert|
    ensures !NothingLeft(p, s.split)
  {
    var k := |s.swaps|;
    SoldOnce(p, s.swaps, s.ledger.Keys, k);
    assert Of(s.split, p.convert[k]).heldProfit == Expected(p, s, p.convert[k]);
  }

  lemma PriceIsSound(p: Plan, s: State)
    requires ValidPlan(p) && Inv(p, s) && s.release.None? && AllBooked(s) && NothingLeft(p, s.split)
    ensures |s.swaps| == |p.convert|
    ensures Of(s.split, p.settlement).heldProfit == Of(p.initial, p.settlement).heldProfit + Gained(s.swaps, s.ledger.Keys)
  {
    if |s.swaps| < |p.convert| { UnrecordedProfitRemains(p, s); }
    NeverSellsSettlement(p, s.swaps, s.ledger.Keys);
    assert Of(s.split, p.settlement).heldProfit == Expected(p, s, p.settlement);
  }

  lemma {:induction false} NeverSellsSettlement(p: Plan, swaps: seq<Swap>, booked: set<nat>)
    requires ValidPlan(p) && |swaps| <= |p.convert| && forall i :: 0 <= i < |swaps| ==> swaps[i].tokenIn == p.convert[i]
    ensures Sold(swaps, booked, p.settlement) == 0
  {
    if swaps != [] { NeverSellsSettlement(p, swaps[..|swaps| - 1], booked); }
  }

  lemma RecordKeepsInv(p: Plan, s: State, minOut: nat)
    requires ValidPlan(p) && Inv(p, s)
    ensures Inv(p, Step(p, s, Record(minOut)))
  {
    var k := Step(p, s, Record(minOut));
    if k != s {
      var n := |s.swaps|;
      assert k.swaps[..n] == s.swaps && n !in s.ledger;
      forall t ensures Of(k.split, t).heldProfit == Expected(p, k, t) && Of(k.split, t).principal == Of(p.initial, t).principal
        && Of(k.split, t).heldFee == Of(p.initial, t).heldFee
      {
        assert Of(s.split, t).heldProfit == Expected(p, s, t);
      }
    }
  }

  lemma FateKeepsInv(p: Plan, s: State, i: nat, f: Fate)
    requires ValidPlan(p) && Inv(p, s) && i < |s.swaps| && !s.swaps[i].fate.Mined? && !s.job.Failed?
    ensures Inv(p, SetFate(s, i, f))
  {
    var k := SetFate(s, i, f);
    assert i !in s.ledger;
    forall t ensures Of(k.split, t).heldProfit == Expected(p, k, t) && Of(k.split, t).principal == Of(p.initial, t).principal
      && Of(k.split, t).heldFee == Of(p.initial, t).heldFee
    {
      FoldUnchanged(s.swaps, k.swaps, s.ledger.Keys, t);
      assert Of(s.split, t).heldProfit == Expected(p, s, t);
    }
    FoldUnchanged(s.swaps, k.swaps, s.ledger.Keys, p.settlement);
  }

  lemma BookKeepsInv(p: Plan, s: State, i: nat)
    requires ValidPlan(p) && Inv(p, s)
    ensures Inv(p, Step(p, s, BookSwap(i)))
  {
    if Step(p, s, BookSwap(i)) != s {
      assert s.release.None?;
      BookKeepsAccounts(p, s, i);
    }
  }

  /** The release mutation's own test, that the profit still equals the priced amount, can never fail. */
  lemma ReleaseMatchesProfit(p: Plan, s: State)
    requires ValidPlan(p) && Inv(p, s) && s.release.Some? && s.summary.None?
    ensures Of(s.split, p.settlement).heldProfit == s.release.value
  {
    NeverSellsSettlement(p, s.swaps, s.ledger.Keys);
    assert Of(s.split, p.settlement).heldProfit == Expected(p, s, p.settlement);
  }

  lemma FinalizeKeepsInv(p: Plan, s: State)
    requires ValidPlan(p) && Inv(p, s)
    ensures Inv(p, Step(p, s, Finalize))
  {
    var k := Step(p, s, Finalize);
    if k != s {
      NeverSellsSettlement(p, s.swaps, s.ledger.Keys);
      forall t ensures Of(k.split, t).heldProfit == Expected(p, k, t) && Of(k.split, t).principal == Of(p.initial, t).principal
        && Of(k.split, t).heldFee == Of(p.initial, t).heldFee
      {
        assert Of(s.split, t).heldProfit == Expected(p, s, t);
      }
    }
  }

  lemma QuietKeepsInv(p: Plan, s: State, e: Event)
    requires ValidPlan(p) && Inv(p, s)
    requires e.Price? || e.SignUnwrap? || e.MineUnwrap? || e.DropUnwrap? || e.Complete? || e.Interrupt? || e.FailClean? || e.Abandon?
    ensures Inv(p, Step(p, s, e))
  {
    var k := Step(p, s, e);
    if k != s && e.Price? { PriceIsSound(p, s); }
    forall t ensures Of(k.split, t).heldProfit == Expected(p, k, t) && Of(k.split, t).principal == Of(p.initial, t).principal
      && Of(k.split, t).heldFee == Of(p.initial, t).heldFee
    {
      assert Of(s.split, t).heldProfit == Expected(p, s, t);
    }
  }

  lemma StepKeepsInv(p: Plan, s: State, e: Event)
    requires ValidPlan(p) && Inv(p, s)
    ensures Inv(p, Step(p, s, e))
  {
    match e
    case Record(minOut) => RecordKeepsInv(p, s, minOut);
    case Sign(i) => if Step(p, s, e) != s { FateKeepsInv(p, s, i, Live); }
    case Mine(i, spent, gained) => if Step(p, s, e) != s { FateKeepsInv(p, s, i, Mined(spent, gained)); }
    case Drop(i) => if Step(p, s, e) != s { FateKeepsInv(p, s, i, Dead); }
    case BookSwap(i) => BookKeepsInv(p, s, i);
    case Finalize => FinalizeKeepsInv(p, s);
    case _ => QuietKeepsInv(p, s, e);
  }

  lemma {:induction false} RunKeepsInv(p: Plan, events: seq<Event>)
    requires ValidPlan(p)
    ensures Inv(p, Run(p, events))
  {
    if events == [] {
    } else {
      RunKeepsInv(p, events[..|events| - 1]);
      StepKeepsInv(p, Run(p, events[..|events| - 1]), events[|events| - 1]);
    }
  }

  /**
   * Each swap counts once: profits are the fold of the booked swaps, all of them confirmed;
   * a completed job booked every conversion and released exactly the initial settlement profit
   * plus all gains; any other closed job released nothing and booked every swap that confirmed.
   */
  ghost predicate CountsOnce(p: Plan, s: State) {
    && Accounted(p, s) && BookedAreConfirmed(s)
    && (s.job.Completed? ==> |s.swaps| == |p.convert| && AllBooked(s))
    && (s.job.Completed? ==> s.summary == Some(Of(p.initial, p.settlement).heldProfit + Gained(s.swaps, s.ledger.Keys)))
    && (s.job.Completed? ==> forall t :: (t == p.settlement || Contains(p.convert, t)) ==> Of(s.split, t).heldProfit == 0)
    && (s.job.Failed? ==> s.summary.None? && MinedAreBooked(s))
  }

  /**
   * After any interleaving of sends, chain verdicts, crashes and recovery passes each token's
   * retained profit is the start, less what was sold, plus what confirmed conversions brought,
   * less the one release; principal and held fees never move.
   */
  lemma WithdrawalCountsEverySwapOnce(p: Plan, events: seq<Event>)
    requires ValidPlan(p)
    ensures CountsOnce(p, Run(p, events))
  {
    RunKeepsInv(p, events);
    InvCountsOnce(p, Run(p, events));
  }

  lemma InvCountsOnce(p: Plan, s: State)
    requires ValidPlan(p) && Inv(p, s)
    ensures CountsOnce(p, s)
  {
    if s.job.Completed? { CompletedIsEmpty(p, s); }
  }

  lemma CompletedIsEmpty(p: Plan, s: State)
    requires ValidPlan(p) && Inv(p, s) && s.job.Completed?
    ensures forall t :: (t == p.settlement || Contains(p.convert, t)) ==> Of(s.split, t).heldProfit == 0
  {
    forall t | t == p.settlement || Contains(p.convert, t) ensures Of(s.split, t).heldProfit == 0 {
      assert Of(s.split, t).heldProfit == Expected(p, s, t);
      NeverSellsSettlement(p, s.swaps, s.ledger.Keys);
      if t != p.settlement {
        var k :| 0 <= k < |p.convert| && p.convert[k] == t;
        SoldOnce(p, s.swaps, s.ledger.Keys, k);
      }
    }
  }

  /** Neither a completed nor an abandoned withdrawal can be touched again. */
  lemma ClosedIsFinal(p: Plan, s: State, e: Event)
    requires ValidPlan(p) && Inv(p, s) && !Open(s) && NonePending(s)
    ensures Step(p, s, e) == s
  {
  }

  // ---- The recovery loop ----

  /**
   * One turn of the loop over the stored swaps: check what is already in the ledger, skip what is
   * not confirmed, else book it, if the wallet covers the allocation it leaves.
   */
  function RecoverOne(p: Plan, s: State, i: nat, covered: bool): Result<State>
    requires i < |s.swaps|
  {
    var w := s.swaps[i];
    if !w.fate.Mined? then Ok(s)
    else if i in s.ledger then
      if s.ledger[i].amountIn != w.amountIn || s.ledger[i].amountOut < w.minOut then Err("E_ALLOCATION_CHANGED") else Ok(s)
    else if w.fate.spent != w.amountIn || w.fate.gained < w.minOut then Err("E_UNSUPPORTED_TOKEN")
    else if Of(s.split, w.tokenIn).heldProfit < w.amountIn then Err("E_ALLOCATION_CHANGED")
    else if !covered then Err("E_ALLOCATION_MISMATCH")
    else Ok(Book(p, s, i))
  }

  predicate Resumable(s: State) {
    Open(s) && s.summary.None?
  }

  /** Neither the ledger check nor the profit check can fire; a swap is refused for its own flow or for coverage only. */
  lemma RecoverOneVerdict(p: Plan, s: State, i: nat, covered: bool)
    requires ValidPlan(p) && Inv(p, s) && i < |s.swaps|
    ensures var r := RecoverOne(p, s, i, covered); var w := s.swaps[i];
      && (r.Ok? <==> (w.fate.Mined? && i !in s.ledger ==> Bookable(w) && covered))
      && (r.Err? ==> r.code == if Bookable(w) then "E_ALLOCATION_MISMATCH" else "E_UNSUPPORTED_TOKEN")
      && (r.Ok? ==> r.value == if w.fate.Mined? && i !in s.ledger then Book(p, s, i) else s)
  {
    ProfitStillThere(p, s, i);
    assert BookedAreConfirmed(s);
  }

  lemma RecoverOneKeepsInv(p: Plan, s: State, i: nat, covered: bool)
    requires ValidPlan(p) && Inv(p, s) && Resumable(s) && i < |s.swaps| && RecoverOne(p, s, i, covered).Ok?
    ensures Inv(p, RecoverOne(p, s, i, covered).value)
  {
    RecoverOneVerdict(p, s, i, covered);
    if s.swaps[i].fate.Mined? && i !in s.ledger { BookKeepsInv(p, s, i); }
  }

  /** How far the recovery loop has come: everything confirmed before `i` is booked, and was covered. */
  predicate RecoveredTo(before: State, s: State, i: nat, covered: nat -> bool) {
    && s == before.(split := s.split, ledger := s.ledger) && before.ledger.Keys <= s.ledger.Keys
    && (forall k :: k in s.ledger && k !in before.ledger ==> k < i)
    && (forall k :: 0 <= k < i && k < |s.swaps| && s.swaps[k].fate.Mined? ==> k in s.ledger && (k in before.ledger || covered(k)))
  }

  lemma RecoverNext(p: Plan, before: State, s: State, i: nat, covered: nat -> bool)
    requires i < |s.swaps| && RecoveredTo(before, s, i, covered)
    ensures !s.swaps[i].fate.Mined? || i in s.ledger ==> RecoveredTo(before, s, i + 1, covered)
    ensures s.swaps[i].fate.Mined? && covered(i) ==> RecoveredTo(before, Book(p, s, i), i + 1, covered)
  {
  }

  class Withdrawal {
    const plan: Plan
    var state: State

    constructor (plan: Plan)
      ensures this.plan == plan && state == Started(plan)
    {
      this.plan, state := plan, Started(plan);
    }

    /**
     * The swap loop of `recoverRetainedProfit`. It stops at the first swap it cannot trust; what
     * it booked before stays booked. `covered` is the verdict of the allocation mutation on the
     * balances read for a swap. When it gets through, every confirmed swap is booked.
     */
    method RecoverSwaps(covered: nat -> bool) returns (r: Result<()>)
      requires ValidPlan(plan) && Inv(plan, state) && Resumable(state)
      modifies `state
      ensures Inv(plan, state) && old(state.ledger.Keys) <= state.ledger.Keys
      ensures state == old(state).(split := state.split, ledger := state.ledger)
      ensures r.Ok? <==> forall i :: 0 <= i < |state.swaps| && state.swaps[i].fate.Mined? && i !in old(state.ledger) ==>
        Bookable(state.swaps[i]) && covered(i)
      ensures r.Err? ==> r.code in {"E_UNSUPPORTED_TOKEN", "E_ALLOCATION_MISMATCH"}
      ensures r.Ok? ==> MinedAreBooked(state)
    {
      ghost var before := state;
      for i := 0 to |state.swaps|
        invariant Inv(plan, state) && RecoveredTo(before, state, i, covered)
      {
        RecoverOneVerdict(plan, state, i, covered(i));
        RecoverNext(plan, before, state, i, covered);
        var next := RecoverOne(plan, state, i, covered(i));
        if next.Err? { return Err(next.code); }
        RecoverOneKeepsInv(plan, state, i, covered(i));
        state := next.value;
      }
      assert BookedAreConfirmed(state);
      return Ok(());
    }
  }

  /** The profit an unbooked swap sold is still attributed, so recovery's own guard against it cannot fire. */
  lemma ProfitStillThere(p: Plan, s: State, i: nat)
    requires ValidPlan(p) && Inv(p, s) && i < |s.swaps|
    ensures i !in s.ledger ==> Of(s.split, s.swaps[i].tokenIn).heldProfit == s.swaps[i].amountIn
  {
    SoldOnce(p, s.swaps, s.ledger.Keys, i);
    assert Of(s.split, p.convert[i]).heldProfit == Expected(p, s, p.convert[i]);
  }

  // ---- Creating the job ----

  /** The step rows of a withdrawal with `n` conversions: three per conversion, the unwrap at 9, the commit at 11. */
  function StepIndexes(n: nat, eth: bool): seq<nat> {
    seq(3 * n, i => i) + (if eth then [9] else []) + [11]
  }

  predicate DistinctIndexes(steps: seq<nat>) {
    forall i, j :: 0 <= i < j < |steps| ==> steps[i] != steps[j]
  }

  /** Step rows have one primary key per job, so the job can be created exactly with at most three conversions. */
  lemma CreatableIffThreeConversions(n: nat, eth: bool)
    ensures DistinctIndexes(StepIndexes(n, eth)) <==> n <= 3
  {
    var steps := StepIndexes(n, eth);
    if n > 3 {
      assert steps[11] == 11 && steps[|steps| - 1] == 11;
    }
  }
}
