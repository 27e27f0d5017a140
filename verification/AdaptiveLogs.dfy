/** Scanning a block range whose provider rejects large windows: indexer/adaptiveLogs.ts. */
module AdaptiveLogs {
  import opened Basics

  datatype Window = Window(fromBlock: int, toBlock: int)

  datatype Fetch = Rows | RangeRejected | OtherError

  datatype Outcome = Done | SingleBlockRejected | FetchFailed | CommitFailed

  /** The provider's answer to a window of the n-th batch; it may change from batch to batch. */
  type FetchFn = (nat, Window) -> Fetch

  /** Whether the durable commit of a window succeeds. */
  type CommitFn = (nat, Window) -> bool

  /** Ascending, disjoint windows of bounded size without gaps, from `lo` up to but excluding `end`. */
  predicate Tiles(windows: seq<Window>, lo: int, end: int, maxSize: int) {
    && (forall i :: 0 <= i < |windows| ==> windows[i].fromBlock <= windows[i].toBlock && windows[i].toBlock - windows[i].fromBlock + 1 <= maxSize)
    && (forall i :: 0 < i < |windows| ==> windows[i].fromBlock == windows[i - 1].toBlock + 1)
    && (if windows == [] then lo == end else windows[0].fromBlock == lo && windows[|windows| - 1].toBlock + 1 == end)
  }

  lemma TilesConcat(a: seq<Window>, b: seq<Window>, lo: int, mid: int, end: int, maxSize: int)
    requires Tiles(a, lo, mid, maxSize) && Tiles(b, mid, end, maxSize)
    ensures Tiles(a + b, lo, end, maxSize)
  {
    var all := a + b;
    forall i | 0 < i < |all| ensures all[i].fromBlock == all[i - 1].toBlock + 1 {
      if i < |a| {
        assert all[i] == a[i];
      } else if i > |a| {
        assert all[i] == b[i - |a|];
      }
    }
  }

  lemma TilesPrefix(a: seq<Window>, lo: int, end: int, maxSize: int, k: nat)
    requires Tiles(a, lo, end, maxSize) && 0 < k <= |a|
    ensures Tiles(a[..k], lo, a[k - 1].toBlock + 1, maxSize)
  {
  }

  /** The windows a tiling covers are exactly the blocks from `lo` to before `end`, each once. */
  lemma {:induction false} TilesCoverOnce(windows: seq<Window>, lo: int, end: int, maxSize: int, block: int)
    requires Tiles(windows, lo, end, maxSize)
    ensures lo <= end
    ensures lo <= block < end <==> exists i :: 0 <= i < |windows| && windows[i].fromBlock <= block <= windows[i].toBlock
    ensures forall i, j :: 0 <= i < j < |windows| ==> windows[i].toBlock < windows[j].fromBlock
    decreases |windows|
  {
    if windows != [] {
      var n := |windows| - 1;
      var init := windows[..n];
      if n > 0 { TilesPrefix(windows, lo, end, maxSize, n); }
      TilesCoverOnce(init, lo, windows[n].fromBlock, maxSize, block);
      assert forall i :: 0 <= i < n ==> init[i] == windows[i];
      forall i | 0 <= i < n ensures windows[i].toBlock < windows[n].fromBlock {
        if i < n - 1 { assert init[i].toBlock < init[n - 1].fromBlock; }
      }
    }
  }

  /** The next batch: up to `count` full windows, the last one cut at the end of the range. */
  method PlanBatch(lo: int, toBlock: int, size: int, count: int) returns (windows: seq<Window>)
    requires lo <= toBlock && size >= 1 && count >= 1
    ensures windows != [] && |windows| <= count
    ensures Tiles(windows, lo, windows[|windows| - 1].toBlock + 1, size) && windows[|windows| - 1].toBlock <= toBlock
  {
    windows := [];
    var start := lo;
    while |windows| < count && start <= toBlock
      invariant |windows| <= count && Tiles(windows, lo, Min(start, toBlock + 1), size)
      invariant windows == [] ==> start == lo
      invariant windows != [] ==> windows[|windows| - 1].toBlock + 1 == Min(start, toBlock + 1)
      invariant lo <= start
      decreases count - |windows|
    {
      var w := Window(start, Min(start + size - 1, toBlock));
      assert Tiles([w], start, w.toBlock + 1, size);
      TilesConcat(windows, [w], lo, start, w.toBlock + 1, size);
      windows := windows + [w];
      start := start + size;
    }
  }

  /** The cursor after the first `done` windows of a batch that began at `lo`. */
  function Cursor(windows: seq<Window>, lo: int, done: nat): int
    requires done <= |windows|
  {
    if done == 0 then lo else windows[done - 1].toBlock + 1
  }

  /** Committing a prefix of a batch extends the committed prefix of the range. */
  lemma CommitExtends(committed: seq<Window>, windows: seq<Window>, fromBlock: int, lo: int, size: int, limit: int, done: nat)
    requires Tiles(committed, fromBlock, lo, limit) && size <= limit && done <= |windows|
    requires windows != [] && Tiles(windows, lo, windows[|windows| - 1].toBlock + 1, size)
    ensures Tiles(committed + windows[..done], fromBlock, Cursor(windows, lo, done), limit)
    ensures lo <= Cursor(windows, lo, done) <= windows[|windows| - 1].toBlock + 1
    ensures done > 0 ==> lo < Cursor(windows, lo, done)
    ensures done < |windows| ==> Cursor(windows, lo, done) == windows[done].fromBlock <= windows[|windows| - 1].toBlock
  {
    if done < |windows| { WindowStartsLate(windows, lo, size, done); }
    if done > 0 {
      TilesPrefix(windows, lo, windows[|windows| - 1].toBlock + 1, size, done);
      WindowStartsLate(windows, lo, size, done - 1);
      TilesWiden(windows[..done], lo, windows[done - 1].toBlock + 1, size, limit);
      TilesConcat(committed, windows[..done], fromBlock, lo, windows[done - 1].toBlock + 1, limit);
    } else {
      assert committed + windows[..0] == committed;
      WindowStartsLate(windows, lo, size, 0);
    }
  }

  datatype BatchResult = BatchDone | BatchTooLarge(at: nat) | BatchError(at: nat) | BatchCommitFailed

  /** One batch: all fetches settle, the first rejection decides, and only a clean batch commits anything. */
  method RunBatch(windows: seq<Window>, batch: nat, fetch: FetchFn, commit: CommitFn) returns (r: BatchResult, done: nat)
    ensures done <= |windows|
    ensures r.BatchDone? ==> done == |windows|
    ensures r.BatchTooLarge? ==> done == 0 && r.at < |windows| && fetch(batch, windows[r.at]).RangeRejected?
    ensures r.BatchError? ==> done == 0 && r.at < |windows| && fetch(batch, windows[r.at]).OtherError?
    ensures r.BatchTooLarge? || r.BatchError? ==> forall i :: 0 <= i < r.at ==> fetch(batch, windows[i]).Rows?
    ensures r.BatchDone? || r.BatchCommitFailed? ==> forall i :: 0 <= i < |windows| ==> fetch(batch, windows[i]).Rows?
    ensures forall i :: 0 <= i < done ==> commit(batch, windows[i])
    ensures r.BatchCommitFailed? ==> done < |windows| && !commit(batch, windows[done])
  {
    var rejected := FirstRejected(windows, batch, fetch);
    if rejected.Some? {
      if fetch(batch, windows[rejected.value]).OtherError? { return BatchError(rejected.value), 0; }
      return BatchTooLarge(rejected.value), 0;
    }
    var ok;
    ok, done := CommitBatch(windows, batch, commit);
    return if ok then BatchDone else BatchCommitFailed, done;
  }

  /** Each committed window was fetched with rows, and its commit succeeded, in the batch that carries its number. */
  ghost predicate AllDurable(committed: seq<Window>, batches: seq<nat>, fetch: FetchFn, commit: CommitFn) {
    && |batches| == |committed|
    && forall i :: 0 <= i < |committed| ==> fetch(batches[i], committed[i]).Rows? && commit(batches[i], committed[i])
  }

  lemma DurableExtends(committed: seq<Window>, batches: seq<nat>, fetch: FetchFn, commit: CommitFn, windows: seq<Window>, done: nat, batch: nat)
    requires AllDurable(committed, batches, fetch, commit) && done <= |windows|
    requires forall i :: 0 <= i < done ==> fetch(batch, windows[i]).Rows? && commit(batch, windows[i])
    ensures AllDurable(committed + windows[..done], batches + Repeat(batch, done), fetch, commit)
  {
  }

  function Repeat(batch: nat, n: nat): (r: seq<nat>)
    ensures |r| == n && forall i :: 0 <= i < n ==> r[i] == batch
  {
    seq(n, _ => batch)
  }

  /** What the cursor and the probed size keep over the batches. */
  ghost predicate Progress(committed: seq<Window>, fromBlock: int, end: int, toBlock: int, limit: int, shrinks: nat, size: int) {
    fromBlock <= end <= toBlock + 1 && 1 <= size && Tiles(committed, fromBlock, end, limit) && Pow2(shrinks) * size <= limit
  }

  /**
   * The whole scan. It terminates for every pattern of rejections, shrinks at most log2 of the
   * window limit times, and what it has committed is always a gapless prefix of the range in
   * ascending, size-bounded windows: all of it when done, the part before the failure otherwise.
   */
  method Scan(fromBlock: int, toBlock: int, maxWindowBlocks: int, concurrency: int, fetch: FetchFn, commit: CommitFn)
    returns (outcome: Outcome, committed: seq<Window>, batches: seq<nat>, shrinks: nat, end: int)
    ensures Tiles(committed, fromBlock, end, Max(1, maxWindowBlocks)) && end <= Max(fromBlock, toBlock + 1)
    ensures AllDurable(committed, batches, fetch, commit)
    ensures outcome.Done? ==> end == Max(fromBlock, toBlock + 1)
    ensures !outcome.Done? ==> fromBlock <= end <= toBlock
    ensures Pow2(shrinks) <= Max(1, maxWindowBlocks)
    ensures outcome.SingleBlockRejected? ==> exists n, w :: fetch(n, w).RangeRejected? && w.fromBlock == w.toBlock && w.fromBlock >= end
    ensures outcome.FetchFailed? ==> exists n, w :: fetch(n, w).OtherError? && w.fromBlock >= end
    ensures outcome.CommitFailed? ==> exists n, w :: !commit(n, w) && w.fromBlock == end
  {
    committed, batches, shrinks, end := [], [], 0, fromBlock;
    if fromBlock > toBlock { return Done, committed, batches, shrinks, end; }
    var limit := Max(1, maxWindowBlocks);
    var size := limit;
    var parallel := Max(1, concurrency);
    var probed := false;
    var batch: nat := 0;
    while end <= toBlock
      invariant Progress(committed, fromBlock, end, toBlock, limit, shrinks, size)
      invariant AllDurable(committed, batches, fetch, commit)
      decreases toBlock + 1 - end, size
    {
      SizeShrinks(shrinks, size, limit);
      var windows := PlanBatch(end, toBlock, size, if probed then parallel else 1);
      var result, done := RunBatch(windows, batch, fetch, commit);
      CommitExtends(committed, windows, fromBlock, end, size, limit, done);
      match result {
        case BatchTooLarge(at) =>
          WindowStartsLate(windows, end, size, at);
          if size == 1 { return SingleBlockRejected, committed, batches, shrinks, end; }
          HalvingBounds(shrinks, size, limit);
          size, shrinks, probed := Max(1, size / 2), shrinks + 1, false;
        case BatchError(at) =>
          WindowStartsLate(windows, end, size, at);
          return FetchFailed, committed, batches, shrinks, end;
        case _ =>
          DurableExtends(committed, batches, fetch, commit, windows, done, batch);
          committed, end := committed + windows[..done], Cursor(windows, end, done);
          batches := batches + Repeat(batch, done);
          if result.BatchCommitFailed? { return CommitFailed, committed, batches, shrinks, end; }
          probed := true;
      }
      batch := batch + 1;
    }
    SizeShrinks(shrinks, size, limit);
    return Done, committed, batches, shrinks, end;
  }

  /** Commits stay in order whatever order the fetches finished in, and stop at the first failure. */
  method CommitBatch(windows: seq<Window>, batch: nat, commit: CommitFn) returns (ok: bool, done: nat)
    ensures ok <==> forall i :: 0 <= i < |windows| ==> commit(batch, windows[i])
    ensures done <= |windows| && (ok ==> done == |windows|) && (!ok ==> done < |windows| && !commit(batch, windows[done]))
    ensures forall i :: 0 <= i < done ==> commit(batch, windows[i])
  {
    done := 0;
    while done < |windows|
      invariant done <= |windows| && forall i :: 0 <= i < done ==> commit(batch, windows[i])
    {
      if !commit(batch, windows[done]) { return false, done; }
      done := done + 1;
    }
    return true, done;
  }

  lemma TilesWiden(windows: seq<Window>, lo: int, end: int, small: int, large: int)
    requires Tiles(windows, lo, end, small) && small <= large
    ensures Tiles(windows, lo, end, large)
  {
  }

  /** The first rejection in window order decides what happens to the batch. */
  function FirstRejected(windows: seq<Window>, batch: nat, fetch: FetchFn): (r: Option<nat>)
    ensures r.Some? ==> r.value < |windows| && !fetch(batch, windows[r.value]).Rows?
    ensures r.Some? ==> forall i :: 0 <= i < r.value ==> fetch(batch, windows[i]).Rows?
    ensures r.None? ==> forall i :: 0 <= i < |windows| ==> fetch(batch, windows[i]).Rows?
  {
    if windows == [] then None
    else
      var earlier := FirstRejected(windows[..|windows| - 1], batch, fetch);
      if earlier.Some? then earlier
      else if fetch(batch, windows[|windows| - 1]).Rows? then None else Some(|windows| - 1)
  }

  lemma {:induction false} WindowStartsLate(windows: seq<Window>, lo: int, size: int, i: nat)
    requires i < |windows| && Tiles(windows, lo, windows[|windows| - 1].toBlock + 1, size)
    ensures lo <= windows[i].fromBlock <= windows[i].toBlock && windows[i].toBlock - windows[i].fromBlock + 1 <= size
    ensures i > 0 ==> windows[i].fromBlock == windows[i - 1].toBlock + 1
    ensures i == 0 ==> windows[i].fromBlock == lo
    ensures windows[i].toBlock <= windows[|windows| - 1].toBlock
  {
    TilesCoverOnce(windows, lo, windows[|windows| - 1].toBlock + 1, size, lo);
    if i > 0 {
      TilesPrefix(windows, lo, windows[|windows| - 1].toBlock + 1, size, i);
      TilesCoverOnce(windows[..i], lo, windows[i - 1].toBlock + 1, size, lo);
    }
  }

  lemma SizeShrinks(shrinks: nat, size: int, limit: int)
    requires Pow2(shrinks) * size <= limit && size >= 1
    ensures Pow2(shrinks) <= limit && size <= limit
  {
    PowPositive(shrinks);
    MulMonotone(Pow2(shrinks), 1, size);
    MulMonotone(size, 1, Pow2(shrinks));
  }

  lemma {:induction false} PowPositive(n: nat)
    ensures Pow2(n) >= 1
  {
    if n > 0 { PowPositive(n - 1); }
  }

  lemma HalvingBounds(shrinks: nat, size: int, limit: int)
    requires size >= 2 && Pow2(shrinks) * size <= limit
    ensures 1 <= Max(1, size / 2) < size && Pow2(shrinks + 1) * Max(1, size / 2) <= limit
  {
    PowPositive(shrinks);
    MulMonotone(Pow2(shrinks), 2 * (size / 2), size);
    assert Pow2(shrinks + 1) * (size / 2) == Pow2(shrinks) * (2 * (size / 2));
  }
}
