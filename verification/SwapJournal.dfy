/**
 * The swap journal of one cycle over a whole run: planning, the record written before signing,
 * confirmation, the live audit entry, crashes and any number of recovery passes
 * (executor/runner.ts, `sendRecoverySwap` and `finishFromWallet` in executor/recovery-runner.ts).
 */
module SwapJournal {
  import opened Basics
  import opened Swaps
  import opened CyclePlan
  import opened SwapFold
  import opened CycleReplay
  import opened SwapSlots

  /** What is fixed for the cycle. */
  datatype Cycle = Cycle(handling: Handling, pair: Pair, funds: Funds, slippageBps: int)

  /** A confirmed swap: the receipt recovery will read, and what was executed. */
  datatype Done = Done(receipt: Receipt, fill: Fill)

  /** A swap whose record has been written for signing and whose fate is still open. */
  datatype Sent = Sent(slot: nat, intent: Intent, minOut: int)

  /**
   * `records` and `audits` are the stored contexts, `done` the confirmed swaps in execution
   * order and `rounds` the same pass by pass. `queue` and the flags belong to the running pass:
   * `due` is a live confirmation whose audit entry is not stored yet.
   */
  datatype Journal = Journal(records: Records, audits: map<nat, Audit>, done: seq<Done>, rounds: seq<seq<Fill>>,
                             taxes: seq<Intent>, queue: seq<Pending>, inflight: Option<Sent>,
                             running: bool, live: bool, due: bool)

  const UNPLANNED := Journal(map[], map[], [], [], [], [], None, false, false, false)

  function FillsOf(done: seq<Done>): (r: seq<Fill>)
    ensures |r| == |done|
  {
    seq(|done|, i requires 0 <= i < |done| => done[i].fill)
  }

  function ReceiptsOf(done: seq<Done>): (r: seq<Receipt>)
    ensures |r| == |done|
  {
    seq(|done|, i requires 0 <= i < |done| => done[i].receipt)
  }

  function Used(done: seq<Done>): set<nat> {
    set d | d in done :: d.fill.txIndex
  }

  predicate Hashed(done: seq<Done>, hash: nat) {
    exists i :: 0 <= i < |done| && done[i].receipt.hash == hash
  }

  // ---- Slot order ----

  function InsertBy<T>(key: T -> nat, sorted: seq<T>, x: T): seq<T> {
    if sorted == [] || key(sorted[|sorted| - 1]) <= key(x) then sorted + [x]
    else InsertBy(key, sorted[..|sorted| - 1], x) + [sorted[|sorted| - 1]]
  }

  function SortBy<T>(key: T -> nat, s: seq<T>): seq<T> {
    if s == [] then [] else InsertBy(key, SortBy(key, s[..|s| - 1]), s[|s| - 1])
  }

  lemma {:induction false} InsertKeeps<T>(key: T -> nat, sorted: seq<T>, x: T)
    ensures multiset(InsertBy(key, sorted, x)) == multiset(sorted) + multiset{x}
  {
    if sorted != [] && key(sorted[|sorted| - 1]) > key(x) {
      assert sorted == sorted[..|sorted| - 1] + [sorted[|sorted| - 1]];
      InsertKeeps(key, sorted[..|sorted| - 1], x);
    }
  }

  lemma {:induction false} SortKeeps<T>(key: T -> nat, s: seq<T>)
    ensures multiset(SortBy(key, s)) == multiset(s)
  {
    if s != [] {
      assert s == s[..|s| - 1] + [s[|s| - 1]];
      SortKeeps(key, s[..|s| - 1]);
      InsertKeeps(key, SortBy(key, s[..|s| - 1]), s[|s| - 1]);
    }
  }

  function SlotOfDone(): Done -> nat {
    (d: Done) => d.fill.txIndex
  }

  function SlotOfFill(): Fill -> nat {
    (f: Fill) => f.txIndex
  }

  /** Receipts are read in slot order. */
  function SlotOrder(done: seq<Done>): (r: seq<Done>)
    ensures multiset(r) == multiset(done)
  {
    SortKeeps(SlotOfDone(), done);
    SortBy(SlotOfDone(), done)
  }

  lemma {:induction false} InsertedFills(sorted: seq<Done>, d: Done)
    ensures FillsOf(InsertBy(SlotOfDone(), sorted, d)) == InsertBy(SlotOfFill(), FillsOf(sorted), d.fill)
  {
    if sorted != [] && SlotOfDone()(sorted[|sorted| - 1]) > SlotOfDone()(d) {
      var n := |sorted| - 1;
      InsertedFills(sorted[..n], d);
      assert FillsOf(sorted)[..n] == FillsOf(sorted[..n]);
    }
  }

  lemma {:induction false} SortedFills(done: seq<Done>)
    ensures FillsOf(SortBy(SlotOfDone(), done)) == SortBy(SlotOfFill(), FillsOf(done))
  {
    if done != [] {
      var n, fills := |done| - 1, FillsOf(done);
      SortedFills(done[..n]);
      assert fills[..n] == FillsOf(done[..n]) && fills[n] == done[n].fill;
      InsertedFills(SortBy(SlotOfDone(), done[..n]), done[n]);
    }
  }

  lemma FillsInSlotOrder(done: seq<Done>)
    ensures FillsOf(SlotOrder(done)) == SortBy(SlotOfFill(), FillsOf(done))
  {
    SortedFills(done);
  }

  lemma FillsPermute(done: seq<Done>)
    ensures multiset(FillsOf(SlotOrder(done))) == multiset(FillsOf(done))
  {
    FillsInSlotOrder(done);
    SortKeeps(SlotOfFill(), FillsOf(done));
  }

  // ---- The machine ----

  function Notes(c: Cycle, s: Journal): SwapNotes {
    SwapNotes(s.records, s.audits, c.slippageBps)
  }

  function Open(c: Cycle): Buckets {
    OpeningBuckets(c.handling, c.funds)
  }

  /** `applyExecutedSwaps` over the confirmed receipts, in slot order. */
  function Replayed(c: Cycle, s: Journal): Result<Buckets> {
    Replay(c.handling.Reinvest?, c.pair.token0, Open(c), Notes(c, s), ReceiptsOf(SlotOrder(s.done)))
  }

  /** What `PlanCycleSwaps` guarantees of a plan made from these funds. */
  predicate Plannable(c: Cycle, funds: Funds, plan: seq<Intent>) {
    && PlanShape(c.pair, plan)
    && FeesSold(c.pair, c.handling, funds, Claims(c.pair.token0, plan))
    && (NonNegativeFunds(funds) ==> Covers(OpeningBuckets(c.handling, funds), Claims(c.pair.token0, plan)))
  }

  /** The fee-tax plan taxes one leg at most, and never changes once a swap has confirmed. */
  predicate TaxPlan(s: Journal, taxes: seq<Intent>) {
    && |taxes| <= 1
    && (forall t :: t in taxes ==> t.purpose.FeeTax?)
    && (s.done != [] ==> |taxes| == |s.taxes| && forall i :: 0 <= i < |taxes| ==> SameButQuote(s.taxes[i], taxes[i]))
  }

  datatype Event =
    | PlanLive(taxes: seq<Intent>, plan: seq<Intent>)
    | PlanRecovery(taxes: seq<Intent>, plan: seq<Intent>, next: nat)
    | Write(quotedOut: int, minOut: int)                 // the exact quote and minimum, durable before signing
    | Confirm(hash: nat, flow: map<Token, int>)          // seen live or while reconciling after a crash
    | Fail                                               // reverted, dropped or never signed
    | Audit                                              // only the live runner stores this
    | Stop                                               // any other error, or a crash

  predicate MayPlanLive(c: Cycle, s: Journal, taxes: seq<Intent>, plan: seq<Intent>) {
    s == UNPLANNED && TaxPlan(s, taxes) && Plannable(c, c.funds, plan)
  }

  /** A recovery pass starts with nothing in flight, and only from books it could replay. */
  predicate MayPlanRecovery(c: Cycle, s: Journal, taxes: seq<Intent>, plan: seq<Intent>, next: nat) {
    && !s.running && s.inflight.None? && TaxPlan(s, taxes) && Allocated(s.records, Used(s.done), next)
    && Replayed(c, s).Ok? && Plannable(c, RemainingFunds(Replayed(c, s).value), plan)
  }

  /** A pass begins: its records are stored and its swaps queued. */
  function Begun(s: Journal, live: bool, taxes: seq<Intent>, p: SlotPlan): Journal {
    Journal(p.records, s.audits, s.done, s.rounds + [[]], taxes, p.pending, None, true, live, false)
  }

  function SlotsFor(s: Journal, taxes: seq<Intent>, plan: seq<Intent>, next: nat): SlotPlan {
    SlotPlanOf(s.records, Used(s.done), taxes, plan, next)
  }

  function Halted(s: Journal): Journal {
    s.(queue := [], running := false, due := false)
  }

  /** The receipt shows the flow the swap was booked with. */
  predicate Consistent(d: Done) {
    && d.receipt.txIndex == d.fill.txIndex
    && d.fill.spent == -Flow(d.receipt, d.fill.intent.tokenIn) && d.fill.gained == Flow(d.receipt, d.fill.intent.tokenOut)
  }

  function Settlement(sent: Sent, hash: nat, flow: map<Token, int>): (d: Done)
    ensures Consistent(d) && d.receipt.hash == hash
    ensures d.fill.txIndex == sent.slot && d.fill.intent == sent.intent && d.fill.minOut == sent.minOut
  {
    var receipt := Receipt(sent.slot, hash, flow);
    Done(receipt, Fill(sent.slot, sent.intent, -Flow(receipt, sent.intent.tokenIn), Flow(receipt, sent.intent.tokenOut), sent.minOut))
  }

  /** The pass goes on only behind an acceptable execution. */
  function Confirmed(s: Journal, d: Done): Journal
    requires s.rounds != []
  {
    var n := |s.rounds| - 1;
    var k := s.(done := s.done + [d], rounds := s.rounds[n := s.rounds[n] + [d.fill]], inflight := None);
    if Accepted(d.fill) then k.(due := s.running && s.live) else Halted(k)
  }

  /** An event whose guard fails changes nothing. */
  function Step(c: Cycle, s: Journal, e: Event): Journal {
    match e
    case PlanLive(taxes, plan) => if MayPlanLive(c, s, taxes, plan) then Begun(s, true, taxes, SlotsFor(s, taxes, plan, 0)) else s
    case PlanRecovery(taxes, plan, next) => if MayPlanRecovery(c, s, taxes, plan, next) then Begun(s, false, taxes, SlotsFor(s, taxes, plan, next)) else s
    case Write(quotedOut, minOut) =>
      if s.running && !s.due && s.inflight.None? && s.queue != [] && 0 <= minOut then
        var p := s.queue[0];
        var intent := p.intent.(quotedOut := quotedOut);
        s.(records := s.records[p.slot := Record(intent, Some(minOut))], inflight := Some(Sent(p.slot, intent, minOut)), queue := s.queue[1..])
      else s
    case Confirm(hash, flow) =>
      if s.inflight.Some? && s.rounds != [] && !Hashed(s.done, hash) then Confirmed(s, Settlement(s.inflight.value, hash, flow)) else s
    case Fail => if s.inflight.Some? then Halted(s).(inflight := None) else s
    case Audit =>
      if s.running && s.due && s.done != [] then
        var d := s.done[|s.done| - 1];
        s.(audits := s.audits[d.receipt.hash := SwapFold.Audit(d.fill.intent, Some(d.fill.minOut))], due := false)
      else s
    case Stop => Halted(s)
  }

  function Run(c: Cycle, events: seq<Event>): Journal {
    if events == [] then UNPLANNED else Step(c, Run(c, events[..|events| - 1]), events[|events| - 1])
  }

  // ---- The itinerary: what has confirmed, what is in flight, what is queued ----

  function PendingOf(done: seq<Done>): (r: seq<Pending>)
    ensures |r| == |done|
  {
    seq(|done|, i requires 0 <= i < |done| => Pending(done[i].fill.txIndex, done[i].fill.intent))
  }

  function Tail(s: Journal): seq<Pending> {
    (if s.inflight.Some? then [Pending(s.inflight.value.slot, s.inflight.value.intent)] else []) + s.queue
  }

  function Itinerary(s: Journal): seq<Pending> {
    PendingOf(s.done) + Tail(s)
  }

  predicate SlotsDiffer(it: seq<Pending>) {
    forall i, j :: 0 <= i < j < |it| ==> it[i].slot != it[j].slot
  }

  predicate Apart(a: seq<Pending>, b: seq<Pending>) {
    forall i, j :: 0 <= i < |a| && 0 <= j < |b| ==> a[i].slot != b[j].slot
  }

  /** One slot per swap, the tax swap first and only there, and no fee input under `reinvest`. */
  predicate Sound(c: Cycle, taxes: seq<Intent>, it: seq<Pending>) {
    && |taxes| <= 1
    && SlotsDiffer(it)
    && (forall i :: 0 <= i < |it| ==> (it[i].intent.purpose.FeeTax? <==> i == 0 && taxes != []))
    && (it != [] && taxes != [] ==> SameButQuote(taxes[0], it[0].intent))
    && (forall i :: 0 <= i < |it| && it[i].intent.purpose.Strategy? ==> PlannedIntent(c, it[i].intent))
  }

  predicate PlannedIntent(c: Cycle, i: Intent) {
    WellFormed(i) && (c.handling.Reinvest? ==> i.feeIn == 0)
  }

  /** The same swaps in the same slots, re-quoted, with the end possibly given up. */
  predicate Shortened(a: seq<Pending>, b: seq<Pending>) {
    |b| <= |a| && forall i :: 0 <= i < |b| ==> b[i].slot == a[i].slot && SameButQuote(a[i].intent, b[i].intent)
  }

  lemma ShortenedIsSound(c: Cycle, taxes: seq<Intent>, a: seq<Pending>, b: seq<Pending>)
    requires Sound(c, taxes, a) && Shortened(a, b)
    ensures Sound(c, taxes, b)
  {
  }

  predicate IsPlan(e: Event) {
    e.PlanLive? || e.PlanRecovery?
  }

  lemma WriteShortens(c: Cycle, s: Journal, quotedOut: int, minOut: int)
    ensures Shortened(Itinerary(s), Itinerary(Step(c, s, Write(quotedOut, minOut))))
  {
    var k := Step(c, s, Write(quotedOut, minOut));
    if k != s {
      assert Tail(s) == [s.queue[0]] + s.queue[1..];
      assert Tail(k) == [Pending(s.queue[0].slot, s.queue[0].intent.(quotedOut := quotedOut))] + s.queue[1..];
    }
  }

  /** A settlement that belongs to the swap in flight. */
  predicate Settles(s: Journal, d: Done) {
    && s.inflight.Some? && s.rounds != [] && Consistent(d)
    && d.fill.txIndex == s.inflight.value.slot && d.fill.intent == s.inflight.value.intent && d.fill.minOut == s.inflight.value.minOut
  }

  lemma ConfirmShortens(s: Journal, d: Done)
    requires Settles(s, d)
    ensures Shortened(Itinerary(s), Itinerary(Confirmed(s, d)))
  {
    var k := Confirmed(s, d);
    var sofar := PendingOf(s.done) + [Pending(d.fill.txIndex, d.fill.intent)];
    assert Itinerary(s) == sofar + s.queue;
    assert PendingOf(k.done) == sofar && Itinerary(k) == sofar + k.queue;
  }

  lemma StepShortens(c: Cycle, s: Journal, e: Event)
    requires !IsPlan(e)
    ensures Shortened(Itinerary(s), Itinerary(Step(c, s, e))) && Step(c, s, e).taxes == s.taxes
  {
    match e
    case Write(quotedOut, minOut) => WriteShortens(c, s, quotedOut, minOut);
    case Confirm(hash, flow) => if Step(c, s, e) != s { ConfirmShortens(s, Settlement(s.inflight.value, hash, flow)); }
    case _ =>
  }

  // ---- The stored records ----

  /** A pass was planned after something had already been executed. */
  predicate Replanned(s: Journal) {
    s.rounds != [] && Flatten(s.rounds[..|s.rounds| - 1]) != []
  }

  /** A confirmed swap's record is the one it was sent with; only an executed tax's is re-quoted, by every later pass. */
  predicate RecordedDone(records: Records, replanned: bool, f: Fill) {
    && f.txIndex in records
    && if replanned && f.intent.purpose.FeeTax? then
         records[f.txIndex].minOut.None? && SameButQuote(f.intent, records[f.txIndex].intent)
       else records[f.txIndex] == Record(f.intent, Some(f.minOut))
  }

  predicate QueueRecorded(records: Records, queue: seq<Pending>) {
    forall i :: 0 <= i < |queue| ==> queue[i].slot in records && records[queue[i].slot] == Record(queue[i].intent, None)
  }

  predicate Recorded(s: Journal) {
    && TaxRecordsDiffer(s.records)
    && (forall i :: 0 <= i < |s.done| ==> RecordedDone(s.records, Replanned(s), s.done[i].fill))
    && (s.inflight.Some? ==> var t := s.inflight.value; t.slot in s.records && s.records[t.slot] == Record(t.intent, Some(t.minOut)))
    && QueueRecorded(s.records, s.queue)
    && (s.done != [] || s.inflight.Some? || s.queue != [] ==> s.rounds != [])
  }

  // ---- A pass begins ----

  /** Under `reinvest` a plan that sells no fees has no fee input anywhere. */
  lemma {:induction false} PlanHasNoStrayFees(c: Cycle, funds: Funds, plan: seq<Intent>)
    requires Plannable(c, funds, plan)
    ensures PlannedSwaps(c, plan)
  {
    if |plan| == 1 {
      ClaimsOfOne(c.pair.token0, plan[0]);
      assert plan == [plan[0]];
    } else if |plan| == 2 {
      ClaimsOfTwo(c.pair.token0, plan[0], plan[1]);
      assert plan == [plan[0], plan[1]];
    }
  }

  predicate PlannedSwaps(c: Cycle, plan: seq<Intent>) {
    |plan| <= 2 && forall i :: 0 <= i < |plan| ==> plan[i].purpose.Strategy? && PlannedIntent(c, plan[i])
  }

  /** The setting of a pass that may begin, and the slots it was given. */
  ghost predicate Begins(c: Cycle, s: Journal, taxes: seq<Intent>, plan: seq<Intent>, own: seq<nat>, slots: seq<nat>, p: SlotPlan) {
    && Sound(c, s.taxes, PendingOf(s.done)) && Recorded(s) && FillsOf(s.done) == Flatten(s.rounds)
    && TaxPlan(s, taxes) && PlannedSwaps(c, plan)
    && PlannedInto(s.records, Used(s.done), taxes, plan, own, slots, p)
  }

  lemma UsedSlot(done: seq<Done>, i: nat)
    requires i < |done|
    ensures done[i].fill.txIndex in Used(done)
  {
    assert done[i] in done;
  }

  /** An executed tax is found again by its record, so no pass queues it a second time. */
  lemma ExecutedTaxKeepsItsSlot(c: Cycle, s: Journal, taxes: seq<Intent>, plan: seq<Intent>, own: seq<nat>, slots: seq<nat>, p: SlotPlan)
    requires Begins(c, s, taxes, plan, own, slots, p) && s.done != []
    ensures s.done[0].fill.intent.purpose.FeeTax? <==> taxes != []
    ensures taxes != [] ==> own[0] == s.done[0].fill.txIndex && SameButQuote(s.done[0].fill.intent, taxes[0])
    ensures TaxPending(Used(s.done), own, taxes) == []
  {
    assert PendingOf(s.done)[0].intent == s.done[0].fill.intent && RecordedDone(s.records, Replanned(s), s.done[0].fill);
    UsedSlot(s.done, 0);
    if taxes != [] {
      assert SameButQuote(s.taxes[0], taxes[0]) && SameButQuote(s.taxes[0], s.done[0].fill.intent);
      assert SameTax(s.records[s.done[0].fill.txIndex], taxes[0]);
    }
  }

  lemma NothingExecutedYet(s: Journal, own: seq<nat>, taxes: seq<Intent>)
    requires s.done == [] && |own| == |taxes| <= 1
    ensures TaxPending(Used(s.done), own, taxes) == Zip(own, taxes)
  {
    if taxes == [] { assert Zip(own, taxes) == []; }
  }

  lemma AppendIsSound(c: Cycle, taxes: seq<Intent>, a: seq<Pending>, b: seq<Pending>)
    requires Sound(c, taxes, a) && (taxes != [] ==> a != [])
    requires forall i :: 0 <= i < |b| ==> b[i].intent.purpose.Strategy? && PlannedIntent(c, b[i].intent)
    requires SlotsDiffer(b) && Apart(a, b)
    ensures Sound(c, taxes, a + b)
  {
  }

  /** What a pass starts from: the swaps already confirmed, or else the tax swap it sends first. */
  function PassStart(s: Journal, own: seq<nat>, taxes: seq<Intent>): seq<Pending>
    requires |own| == |taxes|
  {
    if s.done == [] then Zip(own, taxes) else PendingOf(s.done)
  }

  lemma PassStartIsSound(c: Cycle, s: Journal, own: seq<nat>, taxes: seq<Intent>)
    requires Sound(c, s.taxes, PendingOf(s.done)) && TaxPlan(s, taxes) && |own| == |taxes|
    ensures Sound(c, taxes, PassStart(s, own, taxes)) && (taxes != [] ==> PassStart(s, own, taxes) != [])
  {
    if s.done == [] && taxes != [] { assert taxes[0] in taxes; }
  }

  lemma PassStartApart(s: Journal, taxes: seq<Intent>, plan: seq<Intent>, own: seq<nat>, slots: seq<nat>)
    requires |own| == |taxes| && |slots| == |plan| && forall k :: k in slots ==> k !in Used(s.done) && k !in own
    ensures Apart(PassStart(s, own, taxes), Zip(slots, plan))
  {
    forall i, j | 0 <= i < |PassStart(s, own, taxes)| && 0 <= j < |slots| ensures PassStart(s, own, taxes)[i].slot != slots[j] {
      assert slots[j] in slots;
      if s.done != [] { UsedSlot(s.done, i); } else { assert own[i] in own; }
    }
  }

  /** Whatever a pass queues, its slots are new, and so the whole itinerary stays sound. */
  lemma {:induction false} BegunIsSound(c: Cycle, s: Journal, live: bool, taxes: seq<Intent>, plan: seq<Intent>, own: seq<nat>, slots: seq<nat>, p: SlotPlan)
    requires Begins(c, s, taxes, plan, own, slots, p)
    ensures Sound(c, taxes, Itinerary(Begun(s, live, taxes, p)))
  {
    PassStartIsSound(c, s, own, taxes);
    PassStartApart(s, taxes, plan, own, slots);
    AppendIsSound(c, taxes, PassStart(s, own, taxes), Zip(slots, plan));
    BegunItinerary(c, s, live, taxes, plan, own, slots, p);
  }

  lemma BegunItinerary(c: Cycle, s: Journal, live: bool, taxes: seq<Intent>, plan: seq<Intent>, own: seq<nat>, slots: seq<nat>, p: SlotPlan)
    requires Begins(c, s, taxes, plan, own, slots, p)
    ensures Itinerary(Begun(s, live, taxes, p)) == PassStart(s, own, taxes) + Zip(slots, plan)
  {
    QueueFollowsDone(s, live, taxes, p);
    var z := Zip(slots, plan);
    if s.done == [] {
      NothingExecutedYet(s, own, taxes);
      EmptyFirst(PendingOf(s.done), p.pending);
    } else {
      ExecutedTaxKeepsItsSlot(c, s, taxes, plan, own, slots, p);
      EmptyFirst(TaxPending(Used(s.done), own, taxes), z);
    }
  }

  lemma EmptyFirst(a: seq<Pending>, b: seq<Pending>)
    requires a == []
    ensures a + b == b
  {
  }

  lemma QueueFollowsDone(s: Journal, live: bool, taxes: seq<Intent>, p: SlotPlan)
    ensures Itinerary(Begun(s, live, taxes, p)) == PendingOf(s.done) + p.pending
  {
    EmptyFirst([], p.pending);
  }

  lemma TwoTaxRecordsAfter(records: Records, own: seq<nat>, taxes: seq<Intent>, slots: seq<nat>, plan: seq<Intent>, after: Records, k: nat, l: nat)
    requires TaxRecordsDiffer(records) && OwnSlot(records, own, taxes) && |slots| == |plan|
    requires forall i :: 0 <= i < |plan| ==> plan[i].purpose.Strategy?
    requires RecordAfter(records, own, taxes, slots, plan, after, k) && RecordAfter(records, own, taxes, slots, plan, after, l)
    requires k in after && l in after && after[k].intent.purpose.FeeTax? && SameTax(after[l], after[k].intent)
    ensures k == l
  {
  }

  lemma BegunKeepsTaxRecords(c: Cycle, s: Journal, taxes: seq<Intent>, plan: seq<Intent>, own: seq<nat>, slots: seq<nat>, p: SlotPlan)
    requires Begins(c, s, taxes, plan, own, slots, p)
    ensures TaxRecordsDiffer(p.records)
  {
    forall k, l | k in p.records && l in p.records && p.records[k].intent.purpose.FeeTax? && SameTax(p.records[l], p.records[k].intent)
      ensures k == l
    {
      assert RecordAfter(s.records, own, taxes, slots, plan, p.records, k) && RecordAfter(s.records, own, taxes, slots, plan, p.records, l);
      TwoTaxRecordsAfter(s.records, own, taxes, slots, plan, p.records, k, l);
    }
  }

  lemma DoneRecordAfter(records: Records, own: seq<nat>, taxes: seq<Intent>, slots: seq<nat>, plan: seq<Intent>, after: Records,
                        replanned: bool, f: Fill)
    requires |own| == |taxes| <= 1 && |slots| == |plan| && RecordAfter(records, own, taxes, slots, plan, after, f.txIndex)
    requires RecordedDone(records, replanned, f) && f.txIndex !in slots
    requires f.txIndex in own <==> f.intent.purpose.FeeTax?
    requires f.txIndex in own ==> SameButQuote(f.intent, taxes[0])
    ensures RecordedDone(after, true, f)
    ensures f.txIndex in own ==> after[f.txIndex] == Record(taxes[0], None)
  {
  }

  /** A pass re-quotes the record of an executed tax, and rewrites that of nothing else executed. */
  lemma BegunKeepsDoneRecord(c: Cycle, s: Journal, taxes: seq<Intent>, plan: seq<Intent>, own: seq<nat>, slots: seq<nat>, p: SlotPlan, i: nat)
    requires Begins(c, s, taxes, plan, own, slots, p) && i < |s.done|
    ensures RecordedDone(p.records, true, s.done[i].fill)
    ensures s.done[i].fill.intent.purpose.FeeTax? ==> taxes != [] && p.records[s.done[i].fill.txIndex] == Record(taxes[0], None)
  {
    var f := s.done[i].fill;
    ExecutedTaxKeepsItsSlot(c, s, taxes, plan, own, slots, p);
    UsedSlot(s.done, i);
    assert PendingOf(s.done)[i].slot == f.txIndex && PendingOf(s.done)[0].slot == s.done[0].fill.txIndex;
    assert RecordAfter(s.records, own, taxes, slots, plan, p.records, f.txIndex);
    DoneRecordAfter(s.records, own, taxes, slots, plan, p.records, Replanned(s), f);
  }

  lemma QueuedRecord(records: Records, own: seq<nat>, taxes: seq<Intent>, slots: seq<nat>, plan: seq<Intent>, after: Records, i: nat)
    requires |own| == |taxes| && |slots| == |plan| && AllDiffer(slots) && i < |plan|
    requires RecordAfter(records, own, taxes, slots, plan, after, slots[i])
    ensures slots[i] in after && after[slots[i]] == Record(plan[i], None)
  {
  }

  lemma BegunRecordsQueue(c: Cycle, s: Journal, taxes: seq<Intent>, plan: seq<Intent>, own: seq<nat>, slots: seq<nat>, p: SlotPlan)
    requires Begins(c, s, taxes, plan, own, slots, p)
    ensures QueueRecorded(p.records, p.pending)
  {
    var tax := TaxPending(Used(s.done), own, taxes);
    forall i | 0 <= i < |p.pending| ensures p.pending[i].slot in p.records && p.records[p.pending[i].slot] == Record(p.pending[i].intent, None) {
      assert RecordAfter(s.records, own, taxes, slots, plan, p.records, p.pending[i].slot);
      if i >= |tax| {
        assert p.pending[i] == Zip(slots, plan)[i - |tax|];
        QueuedRecord(s.records, own, taxes, slots, plan, p.records, i - |tax|);
      }
    }
  }

  lemma BegunIsRecorded(c: Cycle, s: Journal, live: bool, taxes: seq<Intent>, plan: seq<Intent>, own: seq<nat>, slots: seq<nat>, p: SlotPlan)
    requires Begins(c, s, taxes, plan, own, slots, p)
    ensures Recorded(Begun(s, live, taxes, p))
  {
    assert (s.rounds + [[]])[..|s.rounds|] == s.rounds;
    BegunKeepsTaxRecords(c, s, taxes, plan, own, slots, p);
    BegunRecordsQueue(c, s, taxes, plan, own, slots, p);
    forall i | 0 <= i < |s.done| ensures RecordedDone(p.records, true, s.done[i].fill) {
      BegunKeepsDoneRecord(c, s, taxes, plan, own, slots, p, i);
    }
  }

  // ---- Writing and confirming ----

  lemma WriteKeepsTaxRecords(records: Records, k: nat, quotedOut: int, minOut: Option<int>)
    requires TaxRecordsDiffer(records) && k in records
    ensures TaxRecordsDiffer(records[k := Record(records[k].intent.(quotedOut := quotedOut), minOut)])
  {
  }

  lemma WriteKeepsRecorded(c: Cycle, s: Journal, quotedOut: int, minOut: int)
    requires Sound(c, s.taxes, Itinerary(s)) && Recorded(s)
    ensures Recorded(Step(c, s, Write(quotedOut, minOut)))
  {
    var k := Step(c, s, Write(quotedOut, minOut));
    if k != s {
      var n, it := |s.done|, Itinerary(s);
      assert it[n] == s.queue[0] && s.records[s.queue[0].slot] == Record(s.queue[0].intent, None);
      WriteKeepsTaxRecords(s.records, s.queue[0].slot, quotedOut, Some(minOut));
      forall i | 0 <= i < |s.done| ensures RecordedDone(k.records, Replanned(k), s.done[i].fill) {
        assert it[i].slot == s.done[i].fill.txIndex;
        assert RecordedDone(s.records, Replanned(s), s.done[i].fill);
      }
      forall i | 0 <= i < |k.queue| ensures k.queue[i].slot in k.records && k.records[k.queue[i].slot] == Record(k.queue[i].intent, None) {
        assert k.queue[i] == s.queue[i + 1] == it[n + 1 + i];
      }
    }
  }

  lemma GrowLastRound(rounds: seq<seq<Fill>>, f: Fill)
    requires rounds != []
    ensures var n := |rounds| - 1;
      var grown := rounds[n := rounds[n] + [f]];
      grown[..n] == rounds[..n] && Flatten(grown) == Flatten(rounds) + [f]
  {
    var n := |rounds| - 1;
    assert rounds[n := rounds[n] + [f]][..n] == rounds[..n];
  }

  lemma ConfirmedIsRecorded(c: Cycle, s: Journal, d: Done)
    requires Sound(c, s.taxes, Itinerary(s)) && Recorded(s) && Settles(s, d) && FillsOf(s.done) == Flatten(s.rounds)
    ensures RecordedDone(s.records, Replanned(s), d.fill) && Replanned(Confirmed(s, d)) == Replanned(s)
  {
    GrowLastRound(s.rounds, d.fill);
    assert Itinerary(s)[|s.done|].intent == d.fill.intent;
    assert Replanned(s) ==> s.done != [];
  }

  lemma ConfirmKeepsRecorded(c: Cycle, s: Journal, d: Done)
    requires Sound(c, s.taxes, Itinerary(s)) && Recorded(s) && Settles(s, d) && FillsOf(s.done) == Flatten(s.rounds)
    ensures Recorded(Confirmed(s, d))
  {
    var k := Confirmed(s, d);
    ConfirmedIsRecorded(c, s, d);
    assert k.records == s.records && k.done == s.done + [d];
    forall i | 0 <= i < |k.done| ensures RecordedDone(s.records, Replanned(s), k.done[i].fill) {
      if i < |s.done| { assert RecordedDone(s.records, Replanned(s), s.done[i].fill); }
    }
  }

  lemma StepKeepsRecorded(c: Cycle, s: Journal, e: Event)
    requires Sound(c, s.taxes, Itinerary(s)) && Recorded(s) && FillsOf(s.done) == Flatten(s.rounds) && !IsPlan(e)
    ensures Recorded(Step(c, s, e))
  {
    match e
    case Write(quotedOut, minOut) => WriteKeepsRecorded(c, s, quotedOut, minOut);
    case Confirm(hash, flow) => if Step(c, s, e) != s { ConfirmKeepsRecorded(c, s, Settlement(s.inflight.value, hash, flow)); }
    case _ =>
  }

  // ---- Receipts resolve to what was executed ----

  predicate AuditedRight(audits: map<nat, Audit>, d: Done) {
    d.receipt.hash in audits ==> audits[d.receipt.hash] == SwapFold.Audit(d.fill.intent, Some(d.fill.minOut))
  }

  predicate HashesDiffer(done: seq<Done>) {
    forall i, j :: 0 <= i < j < |done| ==> done[i].receipt.hash != done[j].receipt.hash
  }

  predicate Audited(s: Journal) {
    && (forall i :: 0 <= i < |s.done| ==> Consistent(s.done[i]) && AuditedRight(s.audits, s.done[i]))
    && HashesDiffer(s.done)
    && (forall h :: h in s.audits ==> Hashed(s.done, h))
  }

  lemma ConfirmKeepsAudited(s: Journal, d: Done)
    requires Audited(s) && Settles(s, d) && !Hashed(s.done, d.receipt.hash)
    ensures Audited(Confirmed(s, d))
  {
    var k, n := Confirmed(s, d), |s.done|;
    assert k.audits == s.audits && k.done == s.done + [d];
    forall h | h in s.audits ensures Hashed(k.done, h) {
      assert Hashed(s.done, h);
      var i :| 0 <= i < n && s.done[i].receipt.hash == h;
      assert k.done[i].receipt.hash == h;
    }
    NewHashDiffers(s.done, d);
  }

  lemma NewHashDiffers(done: seq<Done>, d: Done)
    requires HashesDiffer(done) && !Hashed(done, d.receipt.hash)
    ensures HashesDiffer(done + [d])
  {
  }

  lemma AuditKeepsAudited(c: Cycle, s: Journal)
    requires Audited(s)
    ensures Audited(Step(c, s, Event.Audit))
  {
    if s.running && s.due && s.done != [] { assert Hashed(s.done, s.done[|s.done| - 1].receipt.hash); }
  }

  lemma StepKeepsAudited(c: Cycle, s: Journal, e: Event)
    requires Audited(s)
    ensures Audited(Step(c, s, e))
  {
    match e
    case Confirm(hash, flow) => if Step(c, s, e) != s { ConfirmKeepsAudited(s, Settlement(s.inflight.value, hash, flow)); }
    case Audit => AuditKeepsAudited(c, s);
    case _ =>
  }

  /** Nothing is left of the terms this swap was sent with: a tax re-quoted by a later pass, without an audit entry. */
  predicate Forgotten(s: Journal, d: Done) {
    d.fill.txIndex in s.records && s.records[d.fill.txIndex].minOut.None? && d.receipt.hash !in s.audits
  }

  /** What the replay judges a confirmed swap by: its own terms, or the newest quote of its tax. */
  function Judged(c: Cycle, s: Journal, d: Done): Fill {
    if Forgotten(s, d) then
      var quote := s.records[d.fill.txIndex].intent.quotedOut;
      d.fill.(intent := d.fill.intent.(quotedOut := quote), minOut := ApplySlippage(quote, c.slippageBps))
    else d.fill
  }

  lemma ResolvesToJudged(c: Cycle, s: Journal, d: Done)
    requires RecordedDone(s.records, Replanned(s), d.fill) && Consistent(d) && AuditedRight(s.audits, d)
    ensures Resolve(Notes(c, s), d.receipt) == Ok(Judged(c, s, d))
    ensures UpToTaxQuote(d.fill, Judged(c, s, d))
    ensures Forgotten(s, d) <==> Replanned(s) && d.fill.intent.purpose.FeeTax? && d.receipt.hash !in s.audits
  {
  }

  /** Every minimum is nonnegative, and an unacceptable execution ends all swapping. */
  predicate Judgeable(s: Journal) {
    && (forall i :: 0 <= i < |s.done| ==> 0 <= s.done[i].fill.minOut)
    && (s.inflight.Some? ==> 0 <= s.inflight.value.minOut)
    && (forall i :: 0 <= i < |s.done| - 1 ==> Accepted(s.done[i].fill))
    && (s.done != [] && !Accepted(s.done[|s.done| - 1].fill) ==> !s.running && s.inflight.None? && !Forgotten(s, s.done[|s.done| - 1]))
  }

  /** Every forgotten tax swap also clears the base slippage of the newest quote. */
  predicate TaxClears(c: Cycle, s: Journal) {
    forall i :: 0 <= i < |s.done| && Forgotten(s, s.done[i]) ==>
      ApplySlippage(s.records[s.done[i].fill.txIndex].intent.quotedOut, c.slippageBps) <= s.done[i].fill.gained
  }

  predicate CoveredInSlotOrder(c: Cycle, s: Journal) {
    StaysCovered(c.handling.Reinvest?, c.pair.token0, Open(c), FillsOf(SlotOrder(s.done)))
  }

  function JudgedAll(c: Cycle, s: Journal, done: seq<Done>): (r: seq<Fill>)
    ensures |r| == |done|
  {
    seq(|done|, i requires 0 <= i < |done| => Judged(c, s, done[i]))
  }

  predicate Readable(s: Journal) {
    Recorded(s) && Audited(s)
  }

  lemma ReceiptsResolve(c: Cycle, s: Journal)
    requires Readable(s)
    ensures var order := SlotOrder(s.done);
      && Resolves(Notes(c, s), ReceiptsOf(order), JudgedAll(c, s, order))
      && AllUpToTaxQuotes(FillsOf(order), JudgedAll(c, s, order))
  {
    var order := SlotOrder(s.done);
    forall i | 0 <= i < |order|
      ensures Resolve(Notes(c, s), ReceiptsOf(order)[i]) == Ok(JudgedAll(c, s, order)[i])
      ensures UpToTaxQuote(FillsOf(order)[i], JudgedAll(c, s, order)[i])
    {
      FromSlotOrder(s.done, i);
      var j :| 0 <= j < |s.done| && s.done[j] == order[i];
      assert RecordedDone(s.records, Replanned(s), s.done[j].fill) && Consistent(s.done[j]) && AuditedRight(s.audits, s.done[j]);
      ResolvesToJudged(c, s, s.done[j]);
    }
  }

  lemma FromSlotOrder(done: seq<Done>, i: nat)
    requires i < |SlotOrder(done)|
    ensures exists j :: 0 <= j < |done| && done[j] == SlotOrder(done)[i]
  {
    assert SlotOrder(done)[i] in multiset(SlotOrder(done));
    assert SlotOrder(done)[i] in done;
  }

  lemma IntoSlotOrder(done: seq<Done>, j: nat)
    requires j < |done|
    ensures exists i :: 0 <= i < |SlotOrder(done)| && SlotOrder(done)[i] == done[j]
  {
    assert done[j] in multiset(done);
    assert done[j] in SlotOrder(done);
  }

  /** Along the slots, everything clears its minimum exactly when the forgotten tax does. */
  lemma ClearsIffTaxClears(c: Cycle, s: Journal)
    requires Readable(s) && AllAccepted(FillsOf(s.done))
    ensures var order := SlotOrder(s.done); Clears(FillsOf(order), JudgedAll(c, s, order)) <==> TaxClears(c, s)
  {
    var order := SlotOrder(s.done);
    forall i | 0 <= i < |s.done| ensures Accepted(s.done[i].fill) { assert FillsOf(s.done)[i] in FillsOf(s.done); }
    if TaxClears(c, s) {
      forall i | 0 <= i < |order| ensures JudgedAll(c, s, order)[i].minOut <= FillsOf(order)[i].gained { FromSlotOrder(s.done, i); }
    }
    if Clears(FillsOf(order), JudgedAll(c, s, order)) {
      forall j | 0 <= j < |s.done| && Forgotten(s, s.done[j])
        ensures ApplySlippage(s.records[s.done[j].fill.txIndex].intent.quotedOut, c.slippageBps) <= s.done[j].fill.gained
      {
        IntoSlotOrder(s.done, j);
        var i :| 0 <= i < |order| && order[i] == s.done[j];
        assert JudgedAll(c, s, order)[i].minOut <= FillsOf(order)[i].gained;
      }
    }
  }

  /** An execution the runner refused is refused again, so nothing is ever planned or committed on top of it. */
  lemma RefusedStaysRefused(c: Cycle, s: Journal)
    requires Readable(s) && Judgeable(s) && !AllAccepted(FillsOf(s.done))
    ensures Replayed(c, s).Err?
  {
    var order, n := SlotOrder(s.done), |s.done| - 1;
    ReceiptsResolve(c, s);
    IntoSlotOrder(s.done, n);
    var i :| 0 <= i < |order| && order[i] == s.done[n];
    assert JudgedAll(c, s, order)[i] in JudgedAll(c, s, order) && !Accepted(JudgedAll(c, s, order)[i]);
    ReplayMeaning(c.handling.Reinvest?, c.pair.token0, Open(c), Notes(c, s), ReceiptsOf(order), JudgedAll(c, s, order));
  }

  lemma AcceptedReplay(c: Cycle, s: Journal)
    requires Readable(s) && AllAccepted(FillsOf(s.done))
    ensures Replayed(c, s).Ok? <==> TaxClears(c, s) && CoveredInSlotOrder(c, s)
    ensures Replayed(c, s).Ok? ==> Replayed(c, s).value == After(c.handling.Reinvest?, c.pair.token0, Open(c), FillsOf(s.done))
  {
    var order := SlotOrder(s.done);
    ReceiptsResolve(c, s);
    ClearsIffTaxClears(c, s);
    FillsPermute(s.done);
    ReplayUpToTaxQuotes(c.handling.Reinvest?, c.pair.token0, Open(c), Notes(c, s), ReceiptsOf(order), JudgedAll(c, s, order),
                        FillsOf(order), FillsOf(s.done));
  }

  /**
   * What the stored journal replays to: exactly when every execution was acceptable, a forgotten
   * tax swap clears the newest quote and slot order stays covered, the replay succeeds, and then
   * it gives the books of what was executed.
   */
  lemma JournalReplay(c: Cycle, s: Journal)
    requires Readable(s) && Judgeable(s)
    ensures Replayed(c, s).Ok? <==> AllAccepted(FillsOf(s.done)) && TaxClears(c, s) && CoveredInSlotOrder(c, s)
    ensures Replayed(c, s).Ok? ==> Replayed(c, s).value == After(c.handling.Reinvest?, c.pair.token0, Open(c), FillsOf(s.done))
  {
    if AllAccepted(FillsOf(s.done)) { AcceptedReplay(c, s); } else { RefusedStaysRefused(c, s); }
  }

  lemma ConfirmKeepsJudgeable(s: Journal, d: Done)
    requires Recorded(s) && Judgeable(s) && Settles(s, d)
    ensures Judgeable(Confirmed(s, d))
  {
    var k := Confirmed(s, d);
    assert k.done == s.done + [d] && k.records == s.records && k.audits == s.audits;
    assert forall i :: 0 <= i < |s.done| ==> k.done[i] == s.done[i] && Accepted(s.done[i].fill);
  }

  lemma BegunIsJudgeable(s: Journal, live: bool, taxes: seq<Intent>, p: SlotPlan)
    requires Judgeable(s) && AllAccepted(FillsOf(s.done))
    ensures Judgeable(Begun(s, live, taxes, p))
  {
    if s.done != [] { assert FillsOf(s.done)[|s.done| - 1] in FillsOf(s.done); }
  }

  lemma StepKeepsJudgeable(c: Cycle, s: Journal, e: Event)
    requires Recorded(s) && Judgeable(s) && !IsPlan(e)
    ensures Judgeable(Step(c, s, e))
  {
    if e.Confirm? && Step(c, s, e) != s { ConfirmKeepsJudgeable(s, Settlement(s.inflight.value, e.hash, e.flow)); }
  }

  // ---- The books of a whole run ----

  function ClaimOfPending(token0: Token, p: Pending): Buckets {
    if p.intent.purpose.FeeTax? then ZERO else Claim(token0, p.intent)
  }

  function PendingClaims(token0: Token, pending: seq<Pending>): Buckets {
    if pending == [] then ZERO else Plus(ClaimOfPending(token0, pending[0]), PendingClaims(token0, pending[1..]))
  }

  predicate Affordable(c: Cycle, p: Pending) {
    p.intent.purpose.Strategy? ==> PlannedIntent(c, p.intent)
  }

  lemma {:induction false} PendingClaimsNonNegative(c: Cycle, pending: seq<Pending>)
    requires forall i :: 0 <= i < |pending| ==> Affordable(c, pending[i])
    ensures NonNegative(PendingClaims(c.pair.token0, pending))
    decreases |pending|
  {
    if pending != [] {
      assert Affordable(c, pending[0]);
      PendingClaimsNonNegative(c, pending[1..]);
    }
  }

  /**
   * The fills are the rounds one after another; all rounds but the last are lawful; and what the
   * last one took plus what is still pending fits the books it was planned from.
   */
  predicate Booked(c: Cycle, s: Journal) {
    && FillsOf(s.done) == Flatten(s.rounds)
    && (s.rounds != [] ==>
          var n := |s.rounds| - 1;
          && Lawful(c.handling.Reinvest?, c.pair.token0, Open(c), s.rounds[..n])
          && Budgeted(c, After(c.handling.Reinvest?, c.pair.token0, Open(c), Flatten(s.rounds[..n])), s.rounds[n], Tail(s)))
  }

  predicate Budgeted(c: Cycle, b: Buckets, round: seq<Fill>, tail: seq<Pending>) {
    Covers(b, Plus(SumOf(ClaimOf(c.pair.token0), round), PendingClaims(c.pair.token0, tail)))
  }

  predicate TailAffordable(c: Cycle, tail: seq<Pending>) {
    forall i :: 0 <= i < |tail| ==> Affordable(c, tail[i])
  }

  lemma SoundTail(c: Cycle, s: Journal)
    requires Sound(c, s.taxes, Itinerary(s))
    ensures TailAffordable(c, Tail(s)) && TailAffordable(c, s.queue)
  {
    forall i | 0 <= i < |Tail(s)| ensures Affordable(c, Tail(s)[i]) { assert Itinerary(s)[|s.done| + i] == Tail(s)[i]; }
    forall i | 0 <= i < |s.queue| ensures Affordable(c, s.queue[i]) {
      assert s.queue[i] == Tail(s)[i + |Tail(s)| - |s.queue|];
    }
  }

  lemma HeadFirst(c: Cycle, p: Pending, rest: seq<Pending>)
    ensures PendingClaims(c.pair.token0, [p] + rest) == Plus(ClaimOfPending(c.pair.token0, p), PendingClaims(c.pair.token0, rest))
  {
    assert ([p] + rest)[1..] == rest;
  }

  /** Writing moves a swap from the queue into flight, at another quote. */
  lemma WriteKeepsBudget(c: Cycle, s: Journal, b: Buckets, round: seq<Fill>, quotedOut: int, minOut: int)
    requires Budgeted(c, b, round, Tail(s))
    ensures Budgeted(c, b, round, Tail(Step(c, s, Write(quotedOut, minOut))))
  {
    var k := Step(c, s, Write(quotedOut, minOut));
    if k != s {
      var p := Pending(s.queue[0].slot, s.queue[0].intent.(quotedOut := quotedOut));
      assert Tail(s) == [s.queue[0]] + s.queue[1..] && Tail(k) == [p] + s.queue[1..];
      HeadFirst(c, s.queue[0], s.queue[1..]);
      HeadFirst(c, p, s.queue[1..]);
    }
  }

  /** Confirming moves a swap from flight into the round; a refused one also drops the queue. */
  lemma SettleKeepsBudget(c: Cycle, b: Buckets, round: seq<Fill>, f: Fill, p: Pending, queue: seq<Pending>)
    requires p.intent == f.intent && TailAffordable(c, queue) && Budgeted(c, b, round, [p] + queue)
    ensures Budgeted(c, b, round + [f], queue) && Budgeted(c, b, round + [f], [])
  {
    HeadFirst(c, p, queue);
    SumSnoc(ClaimOf(c.pair.token0), round, f);
    PendingClaimsNonNegative(c, queue);
  }

  lemma DroppedQueueFits(c: Cycle, b: Buckets, round: seq<Fill>, p: Pending, queue: seq<Pending>)
    requires Affordable(c, p) && TailAffordable(c, queue) && Budgeted(c, b, round, [p] + queue)
    ensures Budgeted(c, b, round, [p]) && Budgeted(c, b, round, [])
  {
    var claim := ClaimOfPending(c.pair.token0, p);
    HeadFirst(c, p, queue);
    OnePending(c, p);
    PendingClaimsNonNegative(c, queue);
    CoversLess(b, SumOf(ClaimOf(c.pair.token0), round), claim, PendingClaims(c.pair.token0, queue));
  }

  lemma OnePending(c: Cycle, p: Pending)
    ensures PendingClaims(c.pair.token0, [p]) == Plus(ClaimOfPending(c.pair.token0, p), ZERO)
    ensures PendingClaims(c.pair.token0, []) == ZERO
  {
  }

  lemma CoversLess(b: Buckets, taken: Buckets, one: Buckets, rest: Buckets)
    requires Covers(b, Plus(taken, Plus(one, rest))) && NonNegative(one) && NonNegative(rest)
    ensures Covers(b, Plus(taken, Plus(one, ZERO))) && Covers(b, Plus(taken, ZERO))
  {
  }

  lemma EmptyLast(a: seq<Pending>)
    ensures a + [] == a
  {
  }

  lemma EmptyTailFits(c: Cycle, b: Buckets, round: seq<Fill>, tail: seq<Pending>)
    requires TailAffordable(c, tail) && Budgeted(c, b, round, tail)
    ensures Budgeted(c, b, round, [])
  {
    PendingClaimsNonNegative(c, tail);
  }

  /** Giving the queue up, with the swap in flight or without, frees what it claimed. */
  lemma HaltKeepsBudget(c: Cycle, s: Journal, b: Buckets, round: seq<Fill>)
    requires TailAffordable(c, Tail(s)) && TailAffordable(c, s.queue) && Budgeted(c, b, round, Tail(s))
    ensures Budgeted(c, b, round, Tail(Halted(s))) && Budgeted(c, b, round, [])
  {
    EmptyTailFits(c, b, round, Tail(s));
    if s.inflight.Some? {
      var p := Pending(s.inflight.value.slot, s.inflight.value.intent);
      assert Tail(s)[0] == p;
      DroppedQueueFits(c, b, round, p, s.queue);
      EmptyLast([p]);
    } else {
      EmptyLast([]);
    }
  }

  /** The last round so far, and the books it was planned from. */
  function LastRound(s: Journal): seq<Fill>
    requires s.rounds != []
  {
    s.rounds[|s.rounds| - 1]
  }

  function RoundStart(c: Cycle, s: Journal): Buckets
    requires s.rounds != []
  {
    After(c.handling.Reinvest?, c.pair.token0, Open(c), Flatten(s.rounds[..|s.rounds| - 1]))
  }

  lemma ConfirmGrowsRound(c: Cycle, s: Journal, d: Done)
    requires Settles(s, d) && FillsOf(s.done) == Flatten(s.rounds)
    ensures var k := Confirmed(s, d);
      && k.rounds[..|k.rounds| - 1] == s.rounds[..|s.rounds| - 1] && LastRound(k) == LastRound(s) + [d.fill]
      && FillsOf(k.done) == Flatten(k.rounds)
      && (Tail(k) == s.queue || Tail(k) == [])
  {
    var k := Confirmed(s, d);
    GrowLastRound(s.rounds, d.fill);
    assert FillsOf(k.done) == FillsOf(s.done) + [d.fill];
    assert Tail(k) == k.queue;
  }

  lemma ConfirmKeepsBooked(c: Cycle, s: Journal, d: Done)
    requires Sound(c, s.taxes, Itinerary(s)) && Booked(c, s) && Settles(s, d)
    ensures Booked(c, Confirmed(s, d))
  {
    SoundTail(c, s);
    ConfirmGrowsRound(c, s, d);
    SettleKeepsBudget(c, RoundStart(c, s), LastRound(s), d.fill, Pending(s.inflight.value.slot, s.inflight.value.intent), s.queue);
  }

  /** Once everything executed was acceptable, the whole history is lawful, the last round included. */
  lemma HistoryIsLawful(c: Cycle, s: Journal)
    requires NonNegativeFunds(c.funds) && Booked(c, s) && Judgeable(s) && TailAffordable(c, Tail(s))
    requires AllAccepted(FillsOf(s.done))
    ensures Lawful(c.handling.Reinvest?, c.pair.token0, Open(c), s.rounds)
  {
    if s.rounds != [] {
      var n := |s.rounds| - 1;
      var round, token0 := s.rounds[n], c.pair.token0;
      forall f | f in round ensures Accepted(f) && 0 <= f.gained {
        assert f in Flatten(s.rounds);
        var i :| 0 <= i < |s.done| && FillsOf(s.done)[i] == f;
        assert 0 <= s.done[i].fill.minOut && FillsOf(s.done)[i] in FillsOf(s.done);
      }
      PendingClaimsNonNegative(c, Tail(s));
      assert PlannedRound(token0, After(c.handling.Reinvest?, token0, Open(c), Flatten(s.rounds[..n])), round);
    }
  }

  lemma {:induction false} ZipClaims(c: Cycle, slots: seq<nat>, plan: seq<Intent>)
    requires |slots| == |plan| <= 2
    requires forall i :: 0 <= i < |plan| ==> plan[i].purpose.Strategy?
    ensures PendingClaims(c.pair.token0, Zip(slots, plan)) == Claims(c.pair.token0, plan)
  {
    var swaps := Zip(slots, plan);
    if |plan| == 1 {
      assert swaps == [swaps[0]] + [] && plan == [plan[0]];
      HeadFirst(c, swaps[0], []);
      ClaimsOfOne(c.pair.token0, plan[0]);
    } else if |plan| == 2 {
      assert swaps == [swaps[0]] + ([swaps[1]] + []) && plan == [plan[0], plan[1]];
      HeadFirst(c, swaps[0], [swaps[1]] + []);
      HeadFirst(c, swaps[1], []);
      ClaimsOfTwo(c.pair.token0, plan[0], plan[1]);
    }
  }

  lemma {:induction false} TaxAddsNoClaim(c: Cycle, tax: Pending, swaps: seq<Pending>)
    requires tax.intent.purpose.FeeTax?
    ensures PendingClaims(c.pair.token0, [tax] + swaps) == PendingClaims(c.pair.token0, swaps)
  {
    HeadFirst(c, tax, swaps);
    PlusZero(PendingClaims(c.pair.token0, swaps));
  }

  lemma PlusZero(b: Buckets)
    ensures Plus(ZERO, b) == b
  {
  }

  lemma {:induction false} TaxesAddNoClaim(c: Cycle, tax: seq<Pending>, swaps: seq<Pending>, pending: seq<Pending>)
    requires pending == tax + swaps && |tax| <= 1 && forall i :: 0 <= i < |tax| ==> tax[i].intent.purpose.FeeTax?
    ensures PendingClaims(c.pair.token0, pending) == PendingClaims(c.pair.token0, swaps)
  {
    if |tax| == 0 {
      assert pending == swaps;
    } else {
      assert pending == [tax[0]] + swaps;
      TaxAddsNoClaim(c, tax[0], swaps);
    }
  }

  /** The claims of what a pass queues are those of its plan; an unexecuted tax adds none. */
  lemma {:induction false} QueueClaims(c: Cycle, s: Journal, taxes: seq<Intent>, plan: seq<Intent>, own: seq<nat>, slots: seq<nat>, p: SlotPlan)
    requires Begins(c, s, taxes, plan, own, slots, p)
    ensures PendingClaims(c.pair.token0, p.pending) == Claims(c.pair.token0, plan)
  {
    var tax := TaxPending(Used(s.done), own, taxes);
    if tax != [] { assert taxes[0] in taxes; }
    ZipClaims(c, slots, plan);
    TaxesAddNoClaim(c, tax, Zip(slots, plan), p.pending);
  }

  /** A new round opens with nothing taken and its whole queue affordable. */
  lemma {:induction false} OpenRoundIsBooked(c: Cycle, s: Journal, k: Journal, plan: seq<Intent>)
    requires NonNegativeFunds(c.funds) && TailAffordable(c, Tail(s)) && Judgeable(s) && Booked(c, s) && AllAccepted(FillsOf(s.done))
    requires k.done == s.done && k.rounds == s.rounds + [[]] && k.inflight.None?
    requires PendingClaims(c.pair.token0, k.queue) == Claims(c.pair.token0, plan)
    requires Covers(After(c.handling.Reinvest?, c.pair.token0, Open(c), FillsOf(s.done)), Claims(c.pair.token0, plan))
    ensures Booked(c, k)
  {
    HistoryIsLawful(c, s);
    assert k.rounds[..|s.rounds|] == s.rounds && Flatten(k.rounds) == Flatten(s.rounds);
    assert Tail(k) == k.queue;
  }

  lemma HaltKeepsBooked(c: Cycle, s: Journal, e: Event)
    requires Sound(c, s.taxes, Itinerary(s)) && Booked(c, s) && (e.Fail? || e.Stop?)
    ensures Booked(c, Step(c, s, e))
  {
    SoundTail(c, s);
    if s.rounds != [] { HaltKeepsBudget(c, s, RoundStart(c, s), LastRound(s)); }
  }

  lemma StepKeepsBooked(c: Cycle, s: Journal, e: Event)
    requires Sound(c, s.taxes, Itinerary(s)) && Booked(c, s) && !IsPlan(e)
    ensures Booked(c, Step(c, s, e))
  {
    match e
    case Write(quotedOut, minOut) => if s.rounds != [] { WriteKeepsBudget(c, s, RoundStart(c, s), LastRound(s), quotedOut, minOut); }
    case Confirm(hash, flow) => if Step(c, s, e) != s { ConfirmKeepsBooked(c, s, Settlement(s.inflight.value, hash, flow)); }
    case Fail => HaltKeepsBooked(c, s, e);
    case Stop => HaltKeepsBooked(c, s, e);
    case _ =>
  }

  // ---- Every run ----

  ghost predicate Inv(c: Cycle, s: Journal) {
    && Sound(c, s.taxes, Itinerary(s)) && (s.running || s.queue == [])
    && Readable(s) && Judgeable(s) && Booked(c, s)
  }

  lemma BegunIsAudited(s: Journal, live: bool, taxes: seq<Intent>, p: SlotPlan)
    requires Audited(s)
    ensures Audited(Begun(s, live, taxes, p))
  {
  }

  /** A pass whose plan fits the books of what was executed keeps the whole invariant. */
  lemma {:induction false} BegunKeepsInv(c: Cycle, s: Journal, live: bool, taxes: seq<Intent>, plan: seq<Intent>, own: seq<nat>, slots: seq<nat>, p: SlotPlan)
    requires NonNegativeFunds(c.funds) && Inv(c, s) && AllAccepted(FillsOf(s.done)) && Begins(c, s, taxes, plan, own, slots, p)
    requires Covers(After(c.handling.Reinvest?, c.pair.token0, Open(c), FillsOf(s.done)), Claims(c.pair.token0, plan))
    ensures Inv(c, Begun(s, live, taxes, p))
  {
    BegunIsSound(c, s, live, taxes, plan, own, slots, p);
    BegunIsRecorded(c, s, live, taxes, plan, own, slots, p);
    BegunIsAudited(s, live, taxes, p);
    BegunIsJudgeable(s, live, taxes, p);
    SoundTail(c, s);
    QueueClaims(c, s, taxes, plan, own, slots, p);
    OpenRoundIsBooked(c, s, Begun(s, live, taxes, p), plan);
  }

  lemma {:induction false} PlanKeepsInv(c: Cycle, s: Journal, live: bool, taxes: seq<Intent>, plan: seq<Intent>, next: nat, funds: Funds)
    requires NonNegativeFunds(c.funds) && Inv(c, s) && AllAccepted(FillsOf(s.done)) && Itinerary(s) == PendingOf(s.done)
    requires TaxPlan(s, taxes) && Allocated(s.records, Used(s.done), next) && Plannable(c, funds, plan)
    requires Covers(After(c.handling.Reinvest?, c.pair.token0, Open(c), FillsOf(s.done)), Claims(c.pair.token0, plan))
    ensures Inv(c, Begun(s, live, taxes, SlotsFor(s, taxes, plan, next)))
  {
    PlanHasNoStrayFees(c, funds, plan);
    var own, slots := SlotPlanGuarantees(s.records, Used(s.done), taxes, plan, next);
    BegunKeepsInv(c, s, live, taxes, plan, own, slots, SlotsFor(s, taxes, plan, next));
  }

  /** Every lawful history leaves nonnegative books. */
  lemma {:induction false} BooksAreNonNegative(c: Cycle, s: Journal)
    requires NonNegativeFunds(c.funds) && Inv(c, s) && AllAccepted(FillsOf(s.done))
    ensures NonNegative(After(c.handling.Reinvest?, c.pair.token0, Open(c), FillsOf(s.done)))
  {
    SoundTail(c, s);
    HistoryIsLawful(c, s);
    HistoryNeverOverdraws(c.handling.Reinvest?, c.pair.token0, Open(c), s.rounds, |Flatten(s.rounds)|);
    assert Flatten(s.rounds)[..|Flatten(s.rounds)|] == Flatten(s.rounds);
  }

  lemma ReinvestTakesNoFees(c: Cycle, s: Journal)
    requires Sound(c, s.taxes, Itinerary(s))
    ensures c.handling.Reinvest? ==> NoFeeInput(FillsOf(s.done))
  {
    forall f | c.handling.Reinvest? && f in FillsOf(s.done) && f.intent.purpose.Strategy? ensures f.intent.feeIn == 0 {
      var i :| 0 <= i < |s.done| && FillsOf(s.done)[i] == f;
      assert Itinerary(s)[i].intent == f.intent && PlannedIntent(c, f.intent);
    }
  }

  /** A recovery pass plans from exactly the books the executed swaps left. */
  lemma {:induction false} RecoveryPlansFromTheBooks(c: Cycle, s: Journal, taxes: seq<Intent>, plan: seq<Intent>, next: nat)
    requires NonNegativeFunds(c.funds) && Inv(c, s) && MayPlanRecovery(c, s, taxes, plan, next)
    ensures AllAccepted(FillsOf(s.done))
    ensures var b := After(c.handling.Reinvest?, c.pair.token0, Open(c), FillsOf(s.done));
      Replayed(c, s).value == b && OpeningBuckets(c.handling, RemainingFunds(b)) == b && Covers(b, Claims(c.pair.token0, plan))
  {
    JournalReplay(c, s);
    BooksAreNonNegative(c, s);
    ReinvestTakesNoFees(c, s);
    ReplanOpensWithTheBooks(c.handling, c.pair.token0, c.funds, FillsOf(s.done));
  }

  lemma {:induction false} StepKeepsInv(c: Cycle, s: Journal, e: Event)
    requires NonNegativeFunds(c.funds) && Inv(c, s)
    ensures Inv(c, Step(c, s, e))
  {
    match e
    case PlanLive(taxes, plan) =>
      if MayPlanLive(c, s, taxes, plan) {
        assert FillsOf(s.done) == [] && Itinerary(s) == PendingOf(s.done);
        PlanKeepsInv(c, s, true, taxes, plan, 0, c.funds);
      }
    case PlanRecovery(taxes, plan, next) =>
      if MayPlanRecovery(c, s, taxes, plan, next) {
        RecoveryPlansFromTheBooks(c, s, taxes, plan, next);
        assert Itinerary(s) == PendingOf(s.done);
        PlanKeepsInv(c, s, false, taxes, plan, next, RemainingFunds(Replayed(c, s).value));
      }
    case _ =>
      StepShortens(c, s, e);
      ShortenedIsSound(c, s.taxes, Itinerary(s), Itinerary(Step(c, s, e)));
      StepKeepsRecorded(c, s, e);
      StepKeepsAudited(c, s, e);
      StepKeepsJudgeable(c, s, e);
      StepKeepsBooked(c, s, e);
      StepRuns(c, s, e);
  }

  lemma StepRuns(c: Cycle, s: Journal, e: Event)
    requires !IsPlan(e) && (s.running || s.queue == [])
    ensures Step(c, s, e).running || Step(c, s, e).queue == []
  {
  }

  lemma {:induction false} RunKeepsInv(c: Cycle, events: seq<Event>)
    requires NonNegativeFunds(c.funds)
    ensures Inv(c, Run(c, events))
  {
    if events == [] {
      assert FillsOf(UNPLANNED.done) == [];
    } else {
      RunKeepsInv(c, events[..|events| - 1]);
      StepKeepsInv(c, Run(c, events[..|events| - 1]), events[|events| - 1]);
    }
  }

  /** In every run each slot confirms at most once, and at most one tax swap does, before all others. */
  lemma EachSlotConfirmsOnce(c: Cycle, events: seq<Event>)
    requires NonNegativeFunds(c.funds)
    ensures var done := Run(c, events).done;
      && (forall i, j :: 0 <= i < j < |done| ==> done[i].fill.txIndex != done[j].fill.txIndex)
      && (forall i :: 0 < i < |done| ==> done[i].fill.intent.purpose.Strategy?)
  {
    var s := Run(c, events);
    RunKeepsInv(c, events);
    forall i, j | 0 <= i < j < |s.done| ensures s.done[i].fill.txIndex != s.done[j].fill.txIndex {
      assert Itinerary(s)[i].slot == s.done[i].fill.txIndex && Itinerary(s)[j].slot == s.done[j].fill.txIndex;
    }
    forall i | 0 < i < |s.done| ensures s.done[i].fill.intent.purpose.Strategy? {
      assert Itinerary(s)[i].intent == s.done[i].fill.intent;
    }
  }

  /** In every run the executed swaps form a lawful history, pass by pass, unless one of them was refused. */
  lemma EveryRunIsLawful(c: Cycle, events: seq<Event>)
    requires NonNegativeFunds(c.funds) && AllAccepted(FillsOf(Run(c, events).done))
    ensures var s := Run(c, events);
      Lawful(c.handling.Reinvest?, c.pair.token0, Open(c), s.rounds) && Flatten(s.rounds) == FillsOf(s.done)
  {
    RunKeepsInv(c, events);
    SoundTail(c, Run(c, events));
    HistoryIsLawful(c, Run(c, events));
  }

  /**
   * In every run every confirmed receipt can be resolved, and to exactly what was executed, with
   * one exception: a tax swap without an audit entry, once a later pass has been planned, keeps
   * its amounts but is judged by that pass's quote and the base slippage.
   */
  lemma EveryReceiptResolves(c: Cycle, events: seq<Event>, i: nat)
    requires NonNegativeFunds(c.funds) && i < |Run(c, events).done|
    ensures var s := Run(c, events);
      var d := s.done[i];
      && (if Replanned(s) && d.fill.intent.purpose.FeeTax? && d.receipt.hash !in s.audits then
            exists quote :: Resolve(Notes(c, s), d.receipt)
              == Ok(d.fill.(intent := d.fill.intent.(quotedOut := quote), minOut := ApplySlippage(quote, c.slippageBps)))
          else Resolve(Notes(c, s), d.receipt) == Ok(d.fill))
  {
    RunKeepsInv(c, events);
    var s := Run(c, events);
    var d := s.done[i];
    assert RecordedDone(s.records, Replanned(s), d.fill) && Consistent(d) && AuditedRight(s.audits, d);
    ResolvesToJudged(c, s, d);
    if Forgotten(s, d) {
      var quote := s.records[d.fill.txIndex].intent.quotedOut;
      assert Resolve(Notes(c, s), d.receipt)
        == Ok(d.fill.(intent := d.fill.intent.(quotedOut := quote), minOut := ApplySlippage(quote, c.slippageBps)));
    }
  }

  /** Over every run: when the stored journal replays, and that it then replays to the executed books. */
  lemma RunReplays(c: Cycle, events: seq<Event>)
    requires NonNegativeFunds(c.funds)
    ensures var s := Run(c, events);
      && (Replayed(c, s).Ok? <==> AllAccepted(FillsOf(s.done)) && TaxClears(c, s) && CoveredInSlotOrder(c, s))
      && (Replayed(c, s).Ok? ==> Replayed(c, s).value == After(c.handling.Reinvest?, c.pair.token0, Open(c), FillsOf(s.done)))
  {
    RunKeepsInv(c, events);
    JournalReplay(c, Run(c, events));
  }

  // ---- When slot order is execution order ----

  /** Each pass lies wholly behind the passes before it. */
  predicate InBlocks(rounds: seq<seq<Fill>>) {
    rounds != [] ==>
      var n := |rounds| - 1;
      InBlocks(rounds[..n]) && forall f, g :: f in Flatten(rounds[..n]) && g in rounds[n] ==> f.txIndex < g.txIndex
  }

  function Sorted(rounds: seq<seq<Fill>>): (r: seq<seq<Fill>>)
    ensures |r| == |rounds|
  {
    seq(|rounds|, i requires 0 <= i < |rounds| => SortBy(SlotOfFill(), rounds[i]))
  }

  lemma {:induction false} InsertBehind(a: seq<Fill>, b: seq<Fill>, f: Fill)
    requires forall g :: g in a ==> g.txIndex < f.txIndex
    ensures InsertBy(SlotOfFill(), a + b, f) == a + InsertBy(SlotOfFill(), b, f)
  {
    if b == [] {
      assert a + b == a;
      if a != [] { assert a[|a| - 1] in a; }
    } else {
      var n := |b| - 1;
      assert (a + b)[..|a + b| - 1] == a + b[..n] && (a + b)[|a + b| - 1] == b[n];
      InsertBehind(a, b[..n], f);
    }
  }

  lemma SortedMember(a: seq<Fill>, f: Fill)
    requires f in SortBy(SlotOfFill(), a)
    ensures f in a
  {
    SortKeeps(SlotOfFill(), a);
    assert f in multiset(SortBy(SlotOfFill(), a));
  }

  lemma SortSnoc(a: seq<Fill>, f: Fill)
    ensures SortBy(SlotOfFill(), a + [f]) == InsertBy(SlotOfFill(), SortBy(SlotOfFill(), a), f)
  {
    assert (a + [f])[..|a|] == a;
  }

  lemma {:induction false} SortBehindSnoc(a: seq<Fill>, init: seq<Fill>, last: Fill, sa: seq<Fill>, si: seq<Fill>)
    requires SortBy(SlotOfFill(), a + init) == sa + si && si == SortBy(SlotOfFill(), init)
    requires forall g :: g in sa ==> g.txIndex < last.txIndex
    ensures SortBy(SlotOfFill(), a + (init + [last])) == sa + SortBy(SlotOfFill(), init + [last])
  {
    assert a + (init + [last]) == (a + init) + [last];
    SortSnoc(a + init, last);
    SortSnoc(init, last);
    InsertBehind(sa, si, last);
  }

  lemma {:induction false} SortBehind(a: seq<Fill>, b: seq<Fill>)
    requires forall f, g :: f in a && g in b ==> f.txIndex < g.txIndex
    ensures SortBy(SlotOfFill(), a + b) == SortBy(SlotOfFill(), a) + SortBy(SlotOfFill(), b)
    decreases |b|
  {
    if b == [] {
      assert a + b == a;
    } else {
      var init, last := b[..|b| - 1], b[|b| - 1];
      assert b == init + [last];
      SortBehind(a, init);
      SortedBelow(a, last);
      SortBehindSnoc(a, init, last, SortBy(SlotOfFill(), a), SortBy(SlotOfFill(), init));
    }
  }

  lemma SortedBelow(a: seq<Fill>, last: Fill)
    requires forall f :: f in a ==> f.txIndex < last.txIndex
    ensures forall g :: g in SortBy(SlotOfFill(), a) ==> g.txIndex < last.txIndex
  {
    forall g | g in SortBy(SlotOfFill(), a) ensures g.txIndex < last.txIndex { SortedMember(a, g); }
  }

  lemma {:induction false} BlocksSort(rounds: seq<seq<Fill>>)
    requires InBlocks(rounds)
    ensures SortBy(SlotOfFill(), Flatten(rounds)) == Flatten(Sorted(rounds))
  {
    if rounds != [] {
      var n := |rounds| - 1;
      BlocksSort(rounds[..n]);
      SortBehind(Flatten(rounds[..n]), rounds[n]);
      assert Sorted(rounds)[..n] == Sorted(rounds[..n]);
    }
  }

  /** The passes so far are in blocks, and what is still pending lies behind the earlier ones. */
  predicate Ascending(s: Journal) {
    && InBlocks(s.rounds)
    && (s.rounds != [] ==>
          forall f, p :: f in Flatten(s.rounds[..|s.rounds| - 1]) && p in Tail(s) ==> f.txIndex < p.slot)
  }

  lemma BlocksAreCovered(c: Cycle, done: seq<Done>, rounds: seq<seq<Fill>>)
    requires Lawful(c.handling.Reinvest?, c.pair.token0, Open(c), rounds) && InBlocks(rounds) && FillsOf(done) == Flatten(rounds)
    ensures StaysCovered(c.handling.Reinvest?, c.pair.token0, Open(c), FillsOf(SlotOrder(done)))
  {
    FillsInSlotOrder(done);
    BlocksSort(rounds);
    SortKeepsPasses(rounds);
    InBlocksStaysCovered(c.handling.Reinvest?, c.pair.token0, Open(c), rounds, Sorted(rounds));
  }

  lemma SortKeepsPasses(rounds: seq<seq<Fill>>)
    ensures SamePasses(rounds, Sorted(rounds))
  {
    forall i | 0 <= i < |rounds| ensures multiset(rounds[i]) == multiset(Sorted(rounds)[i]) { SortKeeps(SlotOfFill(), rounds[i]); }
  }

  lemma {:induction false} AscendingIsCovered(c: Cycle, s: Journal)
    requires NonNegativeFunds(c.funds) && Inv(c, s) && Ascending(s) && AllAccepted(FillsOf(s.done))
    ensures CoveredInSlotOrder(c, s)
  {
    SoundTail(c, s);
    HistoryIsLawful(c, s);
    BlocksAreCovered(c, s.done, s.rounds);
  }

  lemma ConfirmKeepsAscending(s: Journal, d: Done)
    requires Ascending(s) && Settles(s, d)
    ensures Ascending(Confirmed(s, d))
  {
    var k, n := Confirmed(s, d), |s.rounds| - 1;
    GrowLastRound(s.rounds, d.fill);
    assert Tail(s)[0] == Pending(d.fill.txIndex, d.fill.intent);
    assert k.rounds[n] == s.rounds[n] + [d.fill];
    forall p | p in Tail(k) ensures p in Tail(s) { }
  }

  lemma WriteKeepsAscending(c: Cycle, s: Journal, quotedOut: int, minOut: int)
    requires Ascending(s)
    ensures Ascending(Step(c, s, Write(quotedOut, minOut)))
  {
    var k := Step(c, s, Write(quotedOut, minOut));
    if k != s {
      forall p | p in Tail(k) ensures exists q :: q in Tail(s) && q.slot == p.slot {
        var i :| 0 <= i < |Tail(k)| && Tail(k)[i] == p;
        assert Tail(s)[i] in Tail(s) && Tail(s)[i].slot == p.slot;
      }
    }
  }

  /** A pass that finds no gap lies behind everything executed before it. */
  lemma BegunIsAscending(c: Cycle, s: Journal, live: bool, taxes: seq<Intent>, plan: seq<Intent>, own: seq<nat>, slots: seq<nat>, p: SlotPlan)
    requires Begins(c, s, taxes, plan, own, slots, p) && InBlocks(s.rounds)
    requires forall k, u :: k in slots && u in Used(s.done) ==> u < k
    ensures Ascending(Begun(s, live, taxes, p))
  {
    var k := Begun(s, live, taxes, p);
    assert k.rounds[..|s.rounds|] == s.rounds && k.rounds[|s.rounds|] == [] && Tail(k) == p.pending;
    if s.done != [] {
      ExecutedTaxKeepsItsSlot(c, s, taxes, plan, own, slots, p);
      EmptyFirst(TaxPending(Used(s.done), own, taxes), Zip(slots, plan));
      forall f, q | f in FillsOf(s.done) && q in Zip(slots, plan) ensures f.txIndex < q.slot { QueuedBehind(s.done, slots, plan, f, q); }
    }
  }

  lemma QueuedBehind(done: seq<Done>, slots: seq<nat>, plan: seq<Intent>, f: Fill, q: Pending)
    requires |slots| == |plan| && f in FillsOf(done) && q in Zip(slots, plan)
    requires forall k, u :: k in slots && u in Used(done) ==> u < k
    ensures f.txIndex < q.slot
  {
    var i :| 0 <= i < |done| && FillsOf(done)[i] == f;
    UsedSlot(done, i);
    var j :| 0 <= j < |slots| && Zip(slots, plan)[j] == q;
    assert slots[j] in slots;
  }

  /** Every re-plan found no unexecuted strategy record below an executed slot. */
  predicate Orderly(c: Cycle, events: seq<Event>) {
    events != [] ==>
      var before := Run(c, events[..|events| - 1]);
      && Orderly(c, events[..|events| - 1])
      && (events[|events| - 1].PlanRecovery? ==> NoGap(before.records, Used(before.done)))
  }

  lemma {:induction false} PlanKeepsAscending(c: Cycle, s: Journal, live: bool, taxes: seq<Intent>, plan: seq<Intent>, next: nat, funds: Funds)
    requires Inv(c, s) && Ascending(s) && Itinerary(s) == PendingOf(s.done) && NoGap(s.records, Used(s.done))
    requires TaxPlan(s, taxes) && Allocated(s.records, Used(s.done), next) && Plannable(c, funds, plan)
    ensures Ascending(Begun(s, live, taxes, SlotsFor(s, taxes, plan, next)))
  {
    PlanHasNoStrayFees(c, funds, plan);
    var own, slots := SlotPlanGuarantees(s.records, Used(s.done), taxes, plan, next);
    BegunIsAscending(c, s, live, taxes, plan, own, slots, SlotsFor(s, taxes, plan, next));
  }

  lemma HaltKeepsAscending(c: Cycle, s: Journal, e: Event)
    requires Ascending(s) && (e.Fail? || e.Audit? || e.Stop?)
    ensures Ascending(Step(c, s, e))
  {
    assert Step(c, s, e).rounds == s.rounds;
    forall p | p in Tail(Step(c, s, e)) ensures p in Tail(s) { }
  }

  lemma {:induction false} PlanStepKeepsAscending(c: Cycle, s: Journal, e: Event)
    requires Inv(c, s) && Ascending(s) && IsPlan(e) && (e.PlanRecovery? ==> NoGap(s.records, Used(s.done)))
    ensures Ascending(Step(c, s, e))
  {
    match e
    case PlanLive(taxes, plan) =>
      if MayPlanLive(c, s, taxes, plan) {
        assert Itinerary(s) == PendingOf(s.done);
        PlanKeepsAscending(c, s, true, taxes, plan, 0, c.funds);
      }
    case PlanRecovery(taxes, plan, next) =>
      if MayPlanRecovery(c, s, taxes, plan, next) {
        assert Itinerary(s) == PendingOf(s.done);
        PlanKeepsAscending(c, s, false, taxes, plan, next, RemainingFunds(Replayed(c, s).value));
      }
  }

  lemma {:induction false} StepKeepsAscending(c: Cycle, s: Journal, e: Event)
    requires Inv(c, s) && Ascending(s) && (e.PlanRecovery? ==> NoGap(s.records, Used(s.done)))
    ensures Ascending(Step(c, s, e))
  {
    if IsPlan(e) {
      PlanStepKeepsAscending(c, s, e);
    } else if e.Write? {
      WriteKeepsAscending(c, s, e.quotedOut, e.minOut);
    } else if e.Confirm? {
      if Step(c, s, e) != s { ConfirmKeepsAscending(s, Settlement(s.inflight.value, e.hash, e.flow)); }
    } else {
      HaltKeepsAscending(c, s, e);
    }
  }

  lemma {:induction false} OrderlyRunsAscend(c: Cycle, events: seq<Event>)
    requires NonNegativeFunds(c.funds) && Orderly(c, events)
    ensures Ascending(Run(c, events))
  {
    if events != [] {
      OrderlyRunsAscend(c, events[..|events| - 1]);
      RunKeepsInv(c, events[..|events| - 1]);
      StepKeepsAscending(c, Run(c, events[..|events| - 1]), events[|events| - 1]);
    }
  }

  /**
   * When every re-plan found no gap, slot order is execution order pass by pass, so the replay
   * fails only over a refused execution or a forgotten tax that the newest quote has outrun.
   */
  lemma {:induction false} OrderlyRunReplays(c: Cycle, events: seq<Event>)
    requires NonNegativeFunds(c.funds) && Orderly(c, events)
    ensures var s := Run(c, events); Replayed(c, s).Ok? <==> AllAccepted(FillsOf(s.done)) && TaxClears(c, s)
  {
    RunReplays(c, events);
    RunKeepsInv(c, events);
    OrderlyRunsAscend(c, events);
    if AllAccepted(FillsOf(Run(c, events).done)) { AscendingIsCovered(c, Run(c, events)); }
  }

  lemma LiveStepKeepsOneRound(c: Cycle, s: Journal, e: Event)
    requires !e.PlanRecovery? && |s.rounds| <= 1
    ensures |Step(c, s, e).rounds| <= 1
  {
  }

  lemma {:induction false} LiveRunIsOrderly(c: Cycle, events: seq<Event>)
    requires forall e :: e in events ==> !e.PlanRecovery?
    ensures Orderly(c, events) && |Run(c, events).rounds| <= 1
  {
    if events != [] {
      LiveRunIsOrderly(c, events[..|events| - 1]);
      LiveStepKeepsOneRound(c, Run(c, events[..|events| - 1]), events[|events| - 1]);
    }
  }

  /** Without any re-plan, the live run's own journal always replays, unless an execution was refused. */
  lemma {:induction false} LiveRunReplays(c: Cycle, events: seq<Event>)
    requires NonNegativeFunds(c.funds) && forall e :: e in events ==> !e.PlanRecovery?
    ensures var s := Run(c, events); Replayed(c, s).Ok? <==> AllAccepted(FillsOf(s.done))
  {
    var s := Run(c, events);
    LiveRunIsOrderly(c, events);
    OrderlyRunReplays(c, events);
    RunKeepsInv(c, events);
    assert !Replanned(s);
    forall i | 0 <= i < |s.done| ensures !Forgotten(s, s.done[i]) { assert RecordedDone(s.records, Replanned(s), s.done[i].fill); }
  }
}
