/**
 * Which journal slot each recovery swap uses, and what that does to the stored records a
 * replay reads (`finishFromWallet` in executor/recovery-runner.ts).
 */
module SwapSlots {
  import opened Basics
  import opened Swaps
  import opened CyclePlan
  import opened SwapFold
  import CycleReplay

  type Records = map<nat, Record>

  /** A planned swap and the journal slot it will be sent in. */
  datatype Pending = Pending(slot: nat, intent: Intent)

  /** An unexecuted strategy record of the same direction may be reused; a tax record with its tax. */
  predicate Reusable(records: Records, executed: set<nat>, k: nat) {
    k in records && records[k].intent.purpose.Strategy? && k !in executed
  }

  predicate SameDirection(a: Intent, b: Intent) {
    a.tokenIn == b.tokenIn && a.tokenOut == b.tokenOut
  }

  predicate SameTax(r: Record, i: Intent) {
    r.intent.purpose.FeeTax? && r.intent.tokenIn == i.tokenIn && r.intent.amountIn == i.amountIn
  }

  /** Every slot already used by an executed swap has a record, and `next` lies beyond all records. */
  predicate Allocated(records: Records, executed: set<nat>, next: nat) {
    executed <= records.Keys && forall k :: k in records ==> k < next
  }

  /** The first slot from `k` on that qualifies, else `next`: `find` over records sorted by slot. */
  function FirstSlot(keep: nat -> bool, k: nat, next: nat): (m: nat)
    requires k <= next
    ensures k <= m <= next && (m < next ==> keep(m)) && forall x :: k <= x < m ==> !keep(x)
    decreases next - k
  {
    if k == next || keep(k) then k else FirstSlot(keep, k + 1, next)
  }

  function OwnRecord(records: Records, tax: Intent): nat -> bool {
    (k: nat) => k in records && SameTax(records[k], tax)
  }

  function FreeRecord(records: Records, executed: set<nat>, swap: Intent): nat -> bool {
    (k: nat) => Reusable(records, executed, k) && SameDirection(records[k].intent, swap)
  }

  /** The slots handed out so far and the next fresh one. */
  datatype Slots = Slots(taken: seq<nat>, next: nat)

  /** The slot found, or the next fresh one. */
  function Take(s: Slots, k: nat): Slots {
    Slots(s.taken + [k], if k == s.next then s.next + 1 else s.next)
  }

  function TaxSlotsOf(records: Records, taxes: seq<Intent>, next: nat): (r: Slots)
    ensures |r.taken| == |taxes| && next <= r.next && forall i :: 0 <= i < |taxes| ==> r.taken[i] < r.next
  {
    if taxes == [] then Slots([], next)
    else
      var before := TaxSlotsOf(records, taxes[..|taxes| - 1], next);
      Take(before, FirstSlot(OwnRecord(records, taxes[|taxes| - 1]), 0, before.next))
  }

  lemma {:induction false} TaxSlotsSound(records: Records, taxes: seq<Intent>, next: nat)
    requires forall k :: k in records ==> k < next
    ensures var r := TaxSlotsOf(records, taxes, next);
      forall i :: 0 <= i < |taxes| ==> if r.taken[i] in records then SameTax(records[r.taken[i]], taxes[i]) else next <= r.taken[i]
  {
    if taxes != [] { TaxSlotsSound(records, taxes[..|taxes| - 1], next); }
  }

  /** Slots for the tax swaps: the existing record of the same tax, executed or not, else a fresh slot. */
  method TaxSlots(records: Records, taxes: seq<Intent>, next: nat) returns (s: Slots)
    requires forall k :: k in records ==> k < next
    ensures s == TaxSlotsOf(records, taxes, next)
    ensures forall i :: 0 <= i < |taxes| ==> if s.taken[i] in records then SameTax(records[s.taken[i]], taxes[i]) else next <= s.taken[i]
  {
    s := Slots([], next);
    for i := 0 to |taxes|
      invariant s == TaxSlotsOf(records, taxes[..i], next)
    {
      assert taxes[..i + 1][..i] == taxes[..i];
      s := Take(s, FirstSlot(OwnRecord(records, taxes[i]), 0, s.next));
    }
    assert taxes[..|taxes|] == taxes;
    TaxSlotsSound(records, taxes, next);
  }

  function SetOf(slots: seq<nat>): set<nat> {
    set k | k in slots
  }

  function SwapSlotsOf(records: Records, executed: set<nat>, swaps: seq<Intent>, next: nat): (r: Slots)
    ensures |r.taken| == |swaps| && next <= r.next && forall i :: 0 <= i < |swaps| ==> r.taken[i] < r.next
  {
    if swaps == [] then Slots([], next)
    else
      var before := SwapSlotsOf(records, executed, swaps[..|swaps| - 1], next);
      Take(before, FirstSlot(FreeRecord(records, executed + SetOf(before.taken), swaps[|swaps| - 1]), 0, before.next))
  }

  /** What a swap's slot may be: an unexecuted record of its direction, or beyond all records. */
  predicate Fits(records: Records, executed: set<nat>, k: nat, swap: Intent, next: nat) {
    if k in records then Reusable(records, executed, k) && SameDirection(records[k].intent, swap) else next <= k
  }

  lemma FoundSlotFits(records: Records, executed: set<nat>, taken: set<nat>, swap: Intent, next: nat, free: nat)
    requires next <= free && forall k :: k in records ==> k < next
    ensures Fits(records, executed, FirstSlot(FreeRecord(records, executed + taken, swap), 0, free), swap, next)
  {
  }

  predicate AllFit(records: Records, executed: set<nat>, slots: seq<nat>, swaps: seq<Intent>, next: nat) {
    |slots| == |swaps| && forall i :: 0 <= i < |swaps| ==> Fits(records, executed, slots[i], swaps[i], next)
  }

  lemma {:induction false} SwapSlotsFit(records: Records, executed: set<nat>, swaps: seq<Intent>, next: nat)
    requires forall k :: k in records ==> k < next
    ensures AllFit(records, executed, SwapSlotsOf(records, executed, swaps, next).taken, swaps, next)
  {
    if swaps != [] {
      var n := |swaps| - 1;
      var before := SwapSlotsOf(records, executed, swaps[..n], next);
      SwapSlotsFit(records, executed, swaps[..n], next);
      FoundSlotFits(records, executed, SetOf(before.taken), swaps[n], next, before.next);
      var k := FirstSlot(FreeRecord(records, executed + SetOf(before.taken), swaps[n]), 0, before.next);
      assert SwapSlotsOf(records, executed, swaps, next).taken == before.taken + [k];
    }
  }

  predicate AllDiffer(slots: seq<nat>) {
    forall i, j :: 0 <= i < j < |slots| ==> slots[i] != slots[j]
  }

  lemma {:induction false} SwapSlotsDiffer(records: Records, executed: set<nat>, swaps: seq<Intent>, next: nat)
    requires forall k :: k in records ==> k < next
    ensures AllDiffer(SwapSlotsOf(records, executed, swaps, next).taken)
  {
    if swaps != [] {
      var n := |swaps| - 1;
      var before := SwapSlotsOf(records, executed, swaps[..n], next);
      SwapSlotsDiffer(records, executed, swaps[..n], next);
      SwapSlotsFit(records, executed, swaps[..n], next);
      var k := SwapSlotsOf(records, executed, swaps, next).taken[n];
      assert forall x :: x in before.taken ==> x in SetOf(before.taken);
    }
  }

  /** Slots for the strategy swaps: the first unused record of the same direction, else a fresh slot. */
  method SwapSlotsFor(records: Records, executed: set<nat>, swaps: seq<Intent>, next: nat) returns (s: Slots)
    requires Allocated(records, executed, next)
    ensures s == SwapSlotsOf(records, executed, swaps, next)
    ensures AllDiffer(s.taken)
    ensures AllFit(records, executed, s.taken, swaps, next)
  {
    s := Slots([], next);
    for i := 0 to |swaps|
      invariant s == SwapSlotsOf(records, executed, swaps[..i], next)
    {
      assert swaps[..i + 1][..i] == swaps[..i];
      s := Take(s, FirstSlot(FreeRecord(records, executed + SetOf(s.taken), swaps[i]), 0, s.next));
    }
    assert swaps[..|swaps|] == swaps;
    SwapSlotsFit(records, executed, swaps, next);
    SwapSlotsDiffer(records, executed, swaps, next);
  }

  /** `upsertSwapRecords`: replacements win, later ones over earlier ones. */
  function Upsert(records: Records, slots: seq<nat>, intents: seq<Intent>): Records
    requires |slots| == |intents|
  {
    if slots == [] then records
    else
      var n := |slots| - 1;
      Upsert(records, slots[..n], intents[..n])[slots[n] := Record(intents[n], None)]
  }

  lemma {:induction false} UpsertAt(records: Records, slots: seq<nat>, intents: seq<Intent>, k: nat)
    requires |slots| == |intents|
    ensures k !in slots ==> (k in Upsert(records, slots, intents) <==> k in records)
    ensures k !in slots && k in records ==> Upsert(records, slots, intents)[k] == records[k]
    ensures k in slots ==> k in Upsert(records, slots, intents)
  {
    if slots != [] {
      var n := |slots| - 1;
      assert slots == slots[..n] + [slots[n]];
      UpsertAt(records, slots[..n], intents[..n], k);
    }
  }

  lemma {:induction false} UpsertedRecord(records: Records, slots: seq<nat>, intents: seq<Intent>, i: nat)
    requires |slots| == |intents| && i < |slots| && AllDiffer(slots)
    ensures slots[i] in Upsert(records, slots, intents) && Upsert(records, slots, intents)[slots[i]] == Record(intents[i], None)
  {
    var n := |slots| - 1;
    if i < n { UpsertedRecord(records, slots[..n], intents[..n], i); }
  }

  function Zip(slots: seq<nat>, intents: seq<Intent>): (r: seq<Pending>)
    requires |slots| == |intents|
    ensures |r| == |slots| && forall i :: 0 <= i < |r| ==> r[i] == Pending(slots[i], intents[i])
  {
    seq(|slots|, i requires 0 <= i < |slots| => Pending(slots[i], intents[i]))
  }

  /** A tax whose slot has already been executed is not sent again. */
  function Unexecuted(pending: seq<Pending>, executed: set<nat>): seq<Pending> {
    if pending == [] then []
    else
      var last := pending[|pending| - 1];
      Unexecuted(pending[..|pending| - 1], executed) + if last.slot in executed then [] else [last]
  }

  datatype SlotPlan = SlotPlan(pending: seq<Pending>, records: Records)

  function SlotPlanOf(records: Records, executed: set<nat>, taxes: seq<Intent>, swaps: seq<Intent>, next: nat): SlotPlan {
    var own := TaxSlotsOf(records, taxes, next);
    var slots := SwapSlotsOf(records, executed, swaps, own.next).taken;
    SlotPlan(Unexecuted(Zip(own.taken, taxes), executed) + Zip(slots, swaps),
             Upsert(Upsert(records, own.taken, taxes), slots, swaps))
  }

  /**
   * One recovery pass plans its slots: an unexecuted tax first, then the strategy swaps in slots
   * of their own that nothing executed has used. Every executed record but a tax's own survives.
   */
  method PlanSlots(records: Records, executed: set<nat>, taxes: seq<Intent>, swaps: seq<Intent>, next: nat)
    returns (pending: seq<Pending>, after: Records)
    requires Allocated(records, executed, next)
    ensures SlotPlan(pending, after) == SlotPlanOf(records, executed, taxes, swaps, next)
    ensures forall p :: p in pending ==> p.slot !in executed
    ensures forall k :: k in executed ==>
      k in after && (after[k] == records[k] || exists i :: 0 <= i < |taxes| && SameTax(records[k], taxes[i]))
  {
    var own := TaxSlots(records, taxes, next);
    var free := SwapSlotsFor(records, executed, swaps, own.next);
    var taxSlots, swapSlots := own.taken, free.taken;
    var taxed := Upsert(records, taxSlots, taxes);
    after := Upsert(taxed, swapSlots, swaps);
    pending := Unexecuted(Zip(taxSlots, taxes), executed) + Zip(swapSlots, swaps);
    OnlyUnexecuted(Zip(taxSlots, taxes), executed);
    forall k | k in executed
      ensures k in after && (after[k] == records[k] || exists i :: 0 <= i < |taxes| && SameTax(records[k], taxes[i]))
    {
      UpsertAt(taxed, swapSlots, swaps, k);
      UpsertAt(records, taxSlots, taxes, k);
      if k in taxSlots {
        var i :| 0 <= i < |taxSlots| && taxSlots[i] == k;
        assert SameTax(records[k], taxes[i]);
      }
    }
  }

  lemma {:induction false} OnlyUnexecuted(pending: seq<Pending>, executed: set<nat>)
    ensures forall p :: p in Unexecuted(pending, executed) ==> p in pending && p.slot !in executed
  {
    if pending != [] { OnlyUnexecuted(pending[..|pending| - 1], executed); }
  }

  /** No strategy record that is still unexecuted lies below an executed slot. */
  predicate NoGap(records: Records, executed: set<nat>) {
    forall k, u :: k in records && Reusable(records, executed, k) && u in executed ==> u < k
  }

  predicate FollowsExecution(records: Records, executed: set<nat>, swaps: seq<Intent>, next: nat) {
    forall k, u :: k in SwapSlotsOf(records, executed, swaps, next).taken && u in executed ==> u < k
  }

  /** Whatever is planned next goes behind everything executed exactly when there is no such record. */
  lemma SlotsFollowExecutionIffNoGap(records: Records, executed: set<nat>, next: nat)
    requires Allocated(records, executed, next)
    ensures NoGap(records, executed) <==> forall swaps :: FollowsExecution(records, executed, swaps, next)
  {
    if NoGap(records, executed) {
      forall swaps ensures FollowsExecution(records, executed, swaps, next) { SwapSlotsFit(records, executed, swaps, next); }
    } else {
      var k, u :| k in records && Reusable(records, executed, k) && u in executed && !(u < k);
      var swaps := [records[k].intent];
      var m := FirstSlot(FreeRecord(records, executed, swaps[0]), 0, next);
      assert FreeRecord(records, executed, swaps[0])(k);
      assert swaps[..0] == [] && executed + SetOf([]) == executed;
      assert SwapSlotsOf(records, executed, swaps[..0], next) == Slots([], next);
      assert SwapSlotsOf(records, executed, swaps, next).taken == [] + [m];
      assert m <= k && m in SwapSlotsOf(records, executed, swaps, next).taken;
      assert !FollowsExecution(records, executed, swaps, next);
    }
  }

  // ---- What a plan of slots guarantees ----

  /** No tax has two records. */
  predicate TaxRecordsDiffer(records: Records) {
    forall k, l :: k in records && l in records && records[k].intent.purpose.FeeTax? && SameTax(records[l], records[k].intent) ==> k == l
  }

  /** The record a plan leaves in a slot: of its swap, else of its tax, else the earlier one. */
  predicate RecordAfter(records: Records, own: seq<nat>, taxes: seq<Intent>, slots: seq<nat>, swaps: seq<Intent>, after: Records, k: nat)
    requires |own| == |taxes| && |slots| == |swaps|
  {
    if k in slots then k in after && exists i :: 0 <= i < |slots| && slots[i] == k && after[k] == Record(swaps[i], None)
    else if k in own then k in after && taxes != [] && after[k] == Record(taxes[0], None)
    else (k in after <==> k in records) && (k in after ==> after[k] == records[k])
  }

  /** The tax swap a pass still has to send. */
  function TaxPending(executed: set<nat>, own: seq<nat>, taxes: seq<Intent>): seq<Pending>
    requires |own| == |taxes|
  {
    if taxes == [] || own[0] in executed then [] else [Pending(own[0], taxes[0])]
  }

  /** The slot of a tax is that of its record, if it has one. */
  predicate OwnSlot(records: Records, own: seq<nat>, taxes: seq<Intent>) {
    |own| == |taxes| <= 1 && forall k :: k in records && taxes != [] && SameTax(records[k], taxes[0]) ==> k == own[0]
  }

  /**
   * Of at most one tax and any swaps: an unexecuted tax first, in its own slot, then every swap
   * in a slot of its own that nothing executed has used; only those records are written.
   */
  ghost predicate PlannedInto(records: Records, executed: set<nat>, taxes: seq<Intent>, swaps: seq<Intent>, own: seq<nat>, slots: seq<nat>, p: SlotPlan) {
    && OwnSlot(records, own, taxes) && |slots| == |swaps| && AllDiffer(slots)
    && (forall k :: k in slots ==> k !in executed && k !in own)
    && p.pending == TaxPending(executed, own, taxes) + Zip(slots, swaps)
    && (forall k :: RecordAfter(records, own, taxes, slots, swaps, p.records, k))
  }

  lemma TaxHasOwnSlot(records: Records, taxes: seq<Intent>, next: nat)
    requires TaxRecordsDiffer(records) && |taxes| <= 1 && (forall k :: k in records ==> k < next) && forall t :: t in taxes ==> t.purpose.FeeTax?
    ensures OwnSlot(records, TaxSlotsOf(records, taxes, next).taken, taxes)
  {
    if taxes != [] {
      assert taxes == [taxes[0]] && taxes[..0] == [];
      var m := FirstSlot(OwnRecord(records, taxes[0]), 0, next);
      assert TaxSlotsOf(records, taxes, next) == Take(TaxSlotsOf(records, taxes[..0], next), m);
      forall k | k in records && SameTax(records[k], taxes[0]) ensures k == m {
        assert OwnRecord(records, taxes[0])(k);
      }
    }
  }

  lemma UnexecutedOne(p: Pending, executed: set<nat>)
    ensures Unexecuted([p], executed) == if p.slot in executed then [] else [p]
  {
    assert [p][..0] == [];
  }

  lemma UnexecutedTax(executed: set<nat>, own: seq<nat>, taxes: seq<Intent>)
    requires |own| == |taxes| <= 1
    ensures Unexecuted(Zip(own, taxes), executed) == TaxPending(executed, own, taxes)
  {
    if taxes == [] {
      assert Zip(own, taxes) == [];
    } else {
      assert Zip(own, taxes) == [Pending(own[0], taxes[0])];
      UnexecutedOne(Pending(own[0], taxes[0]), executed);
    }
  }

  lemma PlanRecordAt(records: Records, own: seq<nat>, taxes: seq<Intent>, slots: seq<nat>, swaps: seq<Intent>, k: nat)
    requires |own| == |taxes| <= 1 && |slots| == |swaps| && AllDiffer(slots)
    ensures RecordAfter(records, own, taxes, slots, swaps, Upsert(Upsert(records, own, taxes), slots, swaps), k)
  {
    var taxed := Upsert(records, own, taxes);
    UpsertAt(taxed, slots, swaps, k);
    UpsertAt(records, own, taxes, k);
    if k in slots {
      var i :| 0 <= i < |slots| && slots[i] == k;
      UpsertedRecord(taxed, slots, swaps, i);
    } else if k in own {
      UpsertedRecord(records, own, taxes, 0);
    }
  }

  lemma PlannedSlotsAreNew(records: Records, executed: set<nat>, taxes: seq<Intent>, swaps: seq<Intent>, next: nat)
    requires Allocated(records, executed, next) && forall t :: t in taxes ==> t.purpose.FeeTax?
    ensures var own := TaxSlotsOf(records, taxes, next);
      forall k :: k in SwapSlotsOf(records, executed, swaps, own.next).taken ==> k !in executed && k !in own.taken
  {
    var own := TaxSlotsOf(records, taxes, next);
    TaxSlotsSound(records, taxes, next);
    SwapSlotsFit(records, executed, swaps, own.next);
  }

  lemma SlotPlanIsPlanned(records: Records, executed: set<nat>, taxes: seq<Intent>, swaps: seq<Intent>, next: nat)
    requires Allocated(records, executed, next) && TaxRecordsDiffer(records)
    requires |taxes| <= 1 && forall t :: t in taxes ==> t.purpose.FeeTax?
    ensures var own := TaxSlotsOf(records, taxes, next);
      PlannedInto(records, executed, taxes, swaps, own.taken, SwapSlotsOf(records, executed, swaps, own.next).taken,
                  SlotPlanOf(records, executed, taxes, swaps, next))
  {
    var own := TaxSlotsOf(records, taxes, next).taken;
    var slots := SwapSlotsOf(records, executed, swaps, TaxSlotsOf(records, taxes, next).next).taken;
    TaxHasOwnSlot(records, taxes, next);
    SwapSlotsDiffer(records, executed, swaps, TaxSlotsOf(records, taxes, next).next);
    PlannedSlotsAreNew(records, executed, taxes, swaps, next);
    forall k ensures RecordAfter(records, own, taxes, slots, swaps, Upsert(Upsert(records, own, taxes), slots, swaps), k) {
      PlanRecordAt(records, own, taxes, slots, swaps, k);
    }
    UnexecutedTax(executed, own, taxes);
  }

  /** The slots of a plan, with all it guarantees of them. */
  lemma SlotPlanGuarantees(records: Records, executed: set<nat>, taxes: seq<Intent>, swaps: seq<Intent>, next: nat)
    returns (own: seq<nat>, slots: seq<nat>)
    requires Allocated(records, executed, next) && TaxRecordsDiffer(records)
    requires |taxes| <= 1 && forall t :: t in taxes ==> t.purpose.FeeTax?
    ensures PlannedInto(records, executed, taxes, swaps, own, slots, SlotPlanOf(records, executed, taxes, swaps, next))
    ensures NoGap(records, executed) ==> forall k, u :: k in slots && u in executed ==> u < k
  {
    SlotPlanIsPlanned(records, executed, taxes, swaps, next);
    var free := TaxSlotsOf(records, taxes, next).next;
    SlotsFollowExecutionIffNoGap(records, executed, free);
    own, slots := TaxSlotsOf(records, taxes, next).taken, SwapSlotsOf(records, executed, swaps, free).taken;
    if NoGap(records, executed) { assert FollowsExecution(records, executed, swaps, free); }
  }

  function CountFrom(n: nat, start: nat): (r: seq<nat>)
    ensures |r| == n && forall i :: 0 <= i < n ==> r[i] == start + i
  {
    seq(n, i => start + i)
  }

  lemma CountSnoc(n: nat, start: nat)
    requires n > 0
    ensures CountFrom(n, start) == CountFrom(n - 1, start) + [start + n - 1]
  {
  }

  lemma {:induction false} FreshTaxSlots(taxes: seq<Intent>)
    ensures TaxSlotsOf(map[], taxes, 0) == Slots(CountFrom(|taxes|, 0), |taxes|)
  {
    if taxes == [] {
      assert CountFrom(0, 0) == [];
    } else {
      FreshTaxSlots(taxes[..|taxes| - 1]);
      CountSnoc(|taxes|, 0);
    }
  }

  lemma {:induction false} FreshSwapSlots(swaps: seq<Intent>, next: nat)
    ensures SwapSlotsOf(map[], {}, swaps, next) == Slots(CountFrom(|swaps|, next), next + |swaps|)
  {
    if swaps == [] {
      assert CountFrom(0, next) == [];
    } else {
      FreshSwapSlots(swaps[..|swaps| - 1], next);
      CountSnoc(|swaps|, next);
    }
  }

  lemma {:induction false} NothingExecuted(pending: seq<Pending>)
    ensures Unexecuted(pending, {}) == pending
  {
    if pending != [] {
      NothingExecuted(pending[..|pending| - 1]);
      assert pending == pending[..|pending| - 1] + [pending[|pending| - 1]];
    }
  }

  /** Planned swaps numbered by their position. */
  function Numbered(intents: seq<Intent>, start: nat): (r: seq<Pending>)
    ensures |r| == |intents| && forall i :: 0 <= i < |r| ==> r[i] == Pending(start + i, intents[i])
  {
    seq(|intents|, i requires 0 <= i < |intents| => Pending(start + i, intents[i]))
  }

  lemma NumberedParts(taxes: seq<Intent>, swaps: seq<Intent>)
    ensures Zip(CountFrom(|taxes|, 0), taxes) + Zip(CountFrom(|swaps|, |taxes|), swaps) == Numbered(taxes + swaps, 0)
  {
  }

  /** On an empty journal the slots come out numbered in order, taxes first, as the live runner numbers them. */
  lemma LiveSlotsAreNumbered(taxes: seq<Intent>, swaps: seq<Intent>)
    ensures SlotPlanOf(map[], {}, taxes, swaps, 0).pending == Numbered(taxes + swaps, 0)
  {
    FreshTaxSlots(taxes);
    FreshSwapSlots(swaps, |taxes|);
    NothingExecuted(Zip(CountFrom(|taxes|, 0), taxes));
    NumberedParts(taxes, swaps);
  }

  /** A confirmed tax swap whose price later rose by two percent can no longer be replayed at 1% slippage. */
  lemma RewrittenTaxRecordCanBlockReplay()
    ensures
      var sent := Intent(FeeTax, 1, 9, 100, 1000, 0, 100);
      var fill := Fill(0, sent, 100, 995, 990);
      var notes := SwapNotes(map[0 := Record(sent.(quotedOut := 1020), None)], map[], 100);
      var receipt := Receipt(0, 7, map[1 := -100, 9 := 995]);
      Accepted(fill) && Replay(false, 1, ZERO, notes, [receipt]) == Err("E_UNSUPPORTED_TOKEN")
  {
    var sent := Intent(FeeTax, 1, 9, 100, 1000, 0, 100);
    var notes := SwapNotes(map[0 := Record(sent.(quotedOut := 1020), None)], map[], 100);
    var receipt := Receipt(0, 7, map[1 := -100, 9 := 995]);
    assert ApplySlippage(1020, 100) == 1009;
    assert [receipt][..0] == [];
    assert Replay(false, 1, ZERO, notes, [receipt][..0]) == Ok(ZERO);
  }

  /** A swap that sells only principal, within its intent, for a nonnegative output. */
  predicate PrincipalSale(f: Fill) {
    && WellFormed(f.intent) && f.intent.purpose.Strategy? && f.intent.feeIn == 0
    && 0 < f.spent <= f.intent.amountIn && f.minOut <= f.gained && 0 <= f.gained
  }

  lemma PrincipalSaleEffect(token0: Token, f: Fill)
    requires PrincipalSale(f)
    ensures Accepted(f)
    ensures EffectOf(false, token0)(f)
      == if f.intent.tokenIn == token0 then Buckets(-f.spent, f.gained, 0, 0) else Buckets(f.gained, -f.spent, 0, 0)
  {
    PureIntents(f.intent, f.spent, f.gained, f.minOut);
  }

  lemma SumOfOne(part: Fill -> Buckets, f: Fill)
    ensures SumOf(part, [f]) == part(f)
  {
    assert [f][..0] == [];
  }

  lemma LawfulTwo(token0: Token, open: Buckets, a: Fill, b: Fill)
    requires NonNegative(open) && CycleReplay.PlannedRound(token0, open, [a])
    requires CycleReplay.PlannedRound(token0, After(false, token0, open, [a]), [b])
    ensures CycleReplay.Lawful(false, token0, open, [[a], [b]])
  {
    assert [[a]][..0] == [] && [[a], [b]][..1] == [[a]];
    assert CycleReplay.Flatten([[a]][..0]) == [] && CycleReplay.Flatten([[a]]) == [a];
    assert After(false, token0, open, []) == open;
    assert CycleReplay.Lawful(false, token0, open, [[a]][..0]);
    assert CycleReplay.Lawful(false, token0, open, [[a]]);
  }

  lemma PlannedOne(token0: Token, b: Buckets, f: Fill)
    requires PrincipalSale(f)
    requires if f.intent.tokenIn == token0 then f.intent.amountIn <= b.lp0 else f.intent.amountIn <= b.lp1
    requires NonNegative(b)
    ensures CycleReplay.PlannedRound(token0, b, [f])
  {
    PrincipalSaleEffect(token0, f);
    SumOfOne(CycleReplay.ClaimOf(token0), f);
  }

  /** After `pre`, then the reused slot, then the first `k` of those that executed before it. */
  predicate CoveredEarly(reinvest: bool, token0: Token, open: Buckets, pre: seq<Fill>, mid: seq<Fill>, b: Fill, k: nat)
    requires k <= |mid| && Accepted(b)
  {
    NonNegative(Plus(After(reinvest, token0, open, pre + mid[..k]), Effect(reinvest, token0, b)))
  }

  lemma EarlyPrefix(reinvest: bool, token0: Token, open: Buckets, pre: seq<Fill>, mid: seq<Fill>, b: Fill, k: nat)
    requires k <= |mid| && Accepted(b)
    ensures var order := pre + [b] + mid; var j := |pre| + 1 + k;
      && NonNegative(After(reinvest, token0, open, order[..j])) == CoveredEarly(reinvest, token0, open, pre, mid, b, k)
      && order[j - 1] == if k == 0 then b else mid[k - 1]
  {
    assert (pre + [b] + mid)[..|pre| + 1 + k] == pre + [b] + mid[..k];
    CycleReplay.RemoveFromMiddle(EffectOf(reinvest, token0), pre, b, mid[..k]);
  }

  /**
   * Reusing a low slot makes slot order differ from execution order. In any lawful history whose
   * last swap `b` took a slot below those of the swaps `mid` before it, the replay walks `b`
   * first, and is covered exactly when `b` was already affordable there and stays so behind each
   * strategy swap of `mid`.
   */
  lemma ReusedSlotReplay(reinvest: bool, token0: Token, open: Buckets, rounds: seq<seq<Fill>>, pre: seq<Fill>, mid: seq<Fill>, b: Fill)
    requires CycleReplay.Lawful(reinvest, token0, open, rounds) && CycleReplay.Flatten(rounds) == pre + mid + [b]
    requires Accepted(b) && b.intent.purpose.Strategy?
    ensures StaysCovered(reinvest, token0, open, pre + [b] + mid) <==>
      forall k :: 0 <= k <= |mid| && (k == 0 || mid[k - 1].intent.purpose.Strategy?) ==> CoveredEarly(reinvest, token0, open, pre, mid, b, k)
  {
    var order := pre + [b] + mid;
    forall k | 0 <= k <= |mid|
      ensures NonNegative(After(reinvest, token0, open, order[..|pre| + 1 + k])) == CoveredEarly(reinvest, token0, open, pre, mid, b, k)
      ensures order[|pre| + k] == if k == 0 then b else mid[k - 1]
    {
      EarlyPrefix(reinvest, token0, open, pre, mid, b, k);
    }
    forall j | 0 < j <= |pre| ensures NonNegative(After(reinvest, token0, open, order[..j])) {
      assert order[..j] == CycleReplay.Flatten(rounds)[..j];
      CycleReplay.HistoryNeverOverdraws(reinvest, token0, open, rounds, j);
    }
    if StaysCovered(reinvest, token0, open, order) {
      forall k | 0 <= k <= |mid| && (k == 0 || mid[k - 1].intent.purpose.Strategy?)
        ensures CoveredEarly(reinvest, token0, open, pre, mid, b, k)
      {
        var j := |pre| + 1 + k;
        assert order[j - 1].intent.purpose.Strategy?;
      }
    }
    if forall k :: 0 <= k <= |mid| && (k == 0 || mid[k - 1].intent.purpose.Strategy?) ==> CoveredEarly(reinvest, token0, open, pre, mid, b, k) {
      forall j | 0 < j <= |order| && order[j - 1].intent.purpose.Strategy? ensures NonNegative(After(reinvest, token0, open, order[..j])) {
        if j > |pre| {
          var k := j - |pre| - 1;
          assert order[|pre| + k] == if k == 0 then b else mid[k - 1];
          assert CoveredEarly(reinvest, token0, open, pre, mid, b, k);
        }
      }
    }
  }

  /** The smallest case: `a` sold token 0 in the higher slot, `b` then sold token 1 in the reused one. */
  lemma TwoSwapReuse(token0: Token, open: Buckets, a: Fill, b: Fill)
    requires PrincipalSale(a) && PrincipalSale(b) && a.intent.tokenIn == token0 && b.intent.tokenIn != token0
    requires NonNegative(open) && a.intent.amountIn <= open.lp0 && b.intent.amountIn <= open.lp1 + a.gained
    ensures CycleReplay.Lawful(false, token0, open, [[a], [b]])
    ensures StaysCovered(false, token0, open, [b, a]) ==> b.spent <= open.lp1
  {
    PrincipalSaleEffect(token0, a);
    PrincipalSaleEffect(token0, b);
    SumOfOne(EffectOf(false, token0), a);
    SumOfOne(EffectOf(false, token0), b);
    PlannedOne(token0, open, a);
    PlannedOne(token0, After(false, token0, open, [a]), b);
    LawfulTwo(token0, open, a, b);
    assert [b, a][..1] == [b];
  }

  /** Slot 1 sold 10 of token 1 for 20 of token 2; slot 0, reused later, sells 25 of the 30. */
  lemma OutOfOrderReplayCanFail(a: Fill, b: Fill, open: Buckets)
    requires a == Fill(1, Intent(Strategy, 1, 2, 10, 20, 10, 0), 10, 20, 19)
    requires b == Fill(0, Intent(Strategy, 2, 1, 25, 12, 25, 0), 25, 12, 11)
    requires open == Buckets(10, 10, 0, 0)
    ensures CycleReplay.Lawful(false, 1, open, [[a], [b]]) && !StaysCovered(false, 1, open, [b, a])
  {
    TwoSwapReuse(1, open, a, b);
  }
}
