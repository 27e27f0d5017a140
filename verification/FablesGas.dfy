/**
 * Gas accounting of a Fables job across crashes: the live insert of executor/fablesSigner.ts and
 * the rebuilding pass of executor/fablesRecovery.ts.
 */
module FablesGas {
  import opened Basics
  import opened FablesJob

  datatype GasRow = GasRow(hash: nat, amount: nat)

  /** What the chain answers for a hash: nothing yet, a receipt that is too fresh, or a final one. */
  datatype Lookup = Missing | Shallow | Deep(success: bool, gas: (nat, nat))

  type Chain = nat -> Lookup

  predicate Final(t: Tx) {
    !Unresolved(t)
  }

  function Cost(t: Tx): nat {
    if t.gas.Some? then t.gas.value.0 * t.gas.value.1 else 0
  }

  predicate HasRow(rows: seq<GasRow>, hash: nat) {
    exists i :: 0 <= i < |rows| && rows[i].hash == hash
  }

  /** INSERT OR IGNORE under the unique index on job, hash, kind and token. */
  function Insert(rows: seq<GasRow>, hash: nat, amount: nat): seq<GasRow> {
    if HasRow(rows, hash) then rows else rows + [GasRow(hash, amount)]
  }

  /** No receipt is counted twice, and every row is the exact cost of a final transaction of the job. */
  predicate Faithful(txs: seq<Tx>, rows: seq<GasRow>) {
    && (forall i, j :: 0 <= i < j < |rows| ==> rows[i].hash != rows[j].hash)
    && (forall i :: 0 <= i < |rows| ==> IsFinalCost(txs, rows[i]))
  }

  predicate IsFinalCost(txs: seq<Tx>, row: GasRow) {
    exists k :: 0 <= k < |txs| && txs[k].hash == row.hash && Final(txs[k]) && Cost(txs[k]) == row.amount
  }

  predicate Complete(txs: seq<Tx>, rows: seq<GasRow>) {
    forall k :: 0 <= k < |txs| && Final(txs[k]) ==> HasRow(rows, txs[k].hash)
  }

  function LedgerSum(rows: seq<GasRow>): nat {
    if rows == [] then 0 else LedgerSum(rows[..|rows| - 1]) + rows[|rows| - 1].amount
  }

  function JournalSum(txs: seq<Tx>): nat {
    if txs == [] then 0 else JournalSum(txs[..|txs| - 1]) + if Final(txs[|txs| - 1]) then Cost(txs[|txs| - 1]) else 0
  }

  // ---- The pass ----

  function Settled(t: Tx, chain: Chain): Tx {
    if !Unresolved(t) || !chain(t.hash).Deep? then t
    else t.(state := if chain(t.hash).success then Confirmed else Reverted, gas := Some(chain(t.hash).gas))
  }

  function SettleAll(txs: seq<Tx>, chain: Chain): (r: seq<Tx>)
    ensures |r| == |txs|
  {
    seq(|txs|, i requires 0 <= i < |txs| => Settled(txs[i], chain))
  }

  function InsertAll(txs: seq<Tx>, rows: seq<GasRow>): seq<GasRow> {
    if txs == [] then rows
    else
      var before := InsertAll(txs[..|txs| - 1], rows);
      if Final(txs[|txs| - 1]) then Insert(before, txs[|txs| - 1].hash, Cost(txs[|txs| - 1])) else before
  }

  function CountWhere(txs: seq<Tx>, keep: Tx -> bool): nat {
    if txs == [] then 0 else CountWhere(txs[..|txs| - 1], keep) + if keep(txs[|txs| - 1]) then 1 else 0
  }

  class FablesJournal {
    var txs: seq<Tx>
    var rows: seq<GasRow>

    constructor (txs: seq<Tx>, rows: seq<GasRow>)
      ensures this.txs == txs && this.rows == rows
    {
      this.txs, this.rows := txs, rows;
    }

    /** The first loop of `reconcileFablesTransactions`: settle what the chain has finalised. */
    method SettleFinalised(chain: Chain) returns (unresolved: nat, confirmed: nat, reverted: nat)
      modifies `txs
      ensures txs == SettleAll(old(txs), chain)
      ensures unresolved == CountWhere(txs, IsUnresolved())
      ensures unresolved + confirmed + reverted == CountWhere(old(txs), IsUnresolved())
    {
      unresolved, confirmed, reverted := 0, 0, 0;
      ghost var before := txs;
      for i := 0 to |txs|
        invariant |txs| == |before|
        invariant forall k :: 0 <= k < i ==> txs[k] == Settled(before[k], chain)
        invariant forall k :: i <= k < |txs| ==> txs[k] == before[k]
        invariant unresolved == CountWhere(SettleAll(before, chain)[..i], IsUnresolved())
        invariant unresolved + confirmed + reverted == CountWhere(before[..i], IsUnresolved())
      {
        CountNext(SettleAll(before, chain), i, IsUnresolved());
        CountNext(before, i, IsUnresolved());
        var tx := txs[i];
        if Unresolved(tx) {
          var receipt := chain(tx.hash);
          if receipt.Deep? {
            txs := txs[i := tx.(state := if receipt.success then Confirmed else Reverted, gas := Some(receipt.gas))];
            if receipt.success { confirmed := confirmed + 1; } else { reverted := reverted + 1; }
          } else {
            unresolved := unresolved + 1;
          }
        }
      }
      assert txs == SettleAll(before, chain);
      assert txs[..|txs|] == txs && before[..|before|] == before;
    }

    /** Its second loop: rebuild every missing gas fact from the durable receipt fields. */
    method RebuildGas() returns (r: Result<()>)
      modifies `rows
      ensures r.Ok? <==> forall i :: 0 <= i < |txs| && Final(txs[i]) ==> txs[i].gas.Some?
      ensures r.Ok? ==> rows == InsertAll(txs, old(rows))
    {
      for i := 0 to |txs|
        invariant rows == InsertAll(txs[..i], old(rows))
        invariant forall k :: 0 <= k < i && Final(txs[k]) ==> txs[k].gas.Some?
      {
        assert txs[..i + 1][..i] == txs[..i];
        if Final(txs[i]) {
          if txs[i].gas.None? { return Err("E_FABLES_GAS_FACT_MISSING"); }
          rows := Insert(rows, txs[i].hash, txs[i].gas.value.0 * txs[i].gas.value.1);
        }
      }
      assert txs[..|txs|] == txs;
      return Ok(());
    }

    /** On a sound journal the pass cannot miss a gas fact, and it reports what is still open. */
    method Reconcile(chain: Chain) returns (unresolved: nat)
      requires forall i :: 0 <= i < |txs| ==> (Unresolved(txs[i]) <==> txs[i].gas.None?)
      modifies this
      ensures txs == SettleAll(old(txs), chain) && rows == InsertAll(txs, old(rows))
      ensures unresolved == CountWhere(txs, IsUnresolved())
    {
      var confirmed, reverted;
      unresolved, confirmed, reverted := SettleFinalised(chain);
      var r := RebuildGas();
    }
  }

  function IsUnresolved(): Tx -> bool { (t: Tx) => Unresolved(t) }

  lemma CountNext(txs: seq<Tx>, i: nat, keep: Tx -> bool)
    requires i < |txs|
    ensures CountWhere(txs[..i + 1], keep) == CountWhere(txs[..i], keep) + if keep(txs[i]) then 1 else 0
  {
    assert txs[..i + 1][..i] == txs[..i];
  }

  // ---- Faithful at all times, complete after a pass ----

  /** Nothing final ever changes its hash or its cost. */
  predicate KeepsFinal(a: seq<Tx>, b: seq<Tx>) {
    |a| <= |b| && forall k :: 0 <= k < |a| && Final(a[k]) ==> Final(b[k]) && b[k].hash == a[k].hash && b[k].gas == a[k].gas
  }

  lemma FaithfulIsKept(a: seq<Tx>, b: seq<Tx>, rows: seq<GasRow>)
    requires Faithful(a, rows) && KeepsFinal(a, b)
    ensures Faithful(b, rows)
  {
    forall i | 0 <= i < |rows| ensures IsFinalCost(b, rows[i]) {
      assert IsFinalCost(a, rows[i]);
      var k :| 0 <= k < |a| && a[k].hash == rows[i].hash && Final(a[k]) && Cost(a[k]) == rows[i].amount;
      assert b[k].hash == rows[i].hash;
    }
  }

  lemma InsertIsFaithful(txs: seq<Tx>, rows: seq<GasRow>, k: nat)
    requires Faithful(txs, rows) && k < |txs| && Final(txs[k])
    ensures Faithful(txs, Insert(rows, txs[k].hash, Cost(txs[k]))) && HasRow(Insert(rows, txs[k].hash, Cost(txs[k])), txs[k].hash)
    ensures forall h :: HasRow(rows, h) ==> HasRow(Insert(rows, txs[k].hash, Cost(txs[k])), h)
  {
    var after := Insert(rows, txs[k].hash, Cost(txs[k]));
    if !HasRow(rows, txs[k].hash) {
      assert after[|rows|].hash == txs[k].hash;
      forall h | HasRow(rows, h) ensures HasRow(after, h) {
        var i :| 0 <= i < |rows| && rows[i].hash == h;
        assert after[i].hash == h;
      }
    }
  }

  lemma {:induction false} PassIsComplete(all: seq<Tx>, n: nat, rows: seq<GasRow>)
    requires Faithful(all, rows) && n <= |all|
    ensures Faithful(all, InsertAll(all[..n], rows)) && Complete(all[..n], InsertAll(all[..n], rows))
  {
    if n > 0 {
      assert all[..n][..n - 1] == all[..n - 1];
      PassIsComplete(all, n - 1, rows);
      if Final(all[n - 1]) { InsertIsFaithful(all, InsertAll(all[..n - 1], rows), n - 1); }
      forall k | 0 <= k < n && Final(all[..n][k]) ensures HasRow(InsertAll(all[..n], rows), all[..n][k].hash) {
        if k < n - 1 { assert all[..n - 1][k] == all[..n][k]; }
      }
    }
  }

  /** A faithful and complete ledger adds up to the journal. */
  lemma {:induction false} SumsAgree(txs: seq<Tx>, rows: seq<GasRow>)
    requires forall i, j :: 0 <= i < j < |txs| ==> txs[i].hash != txs[j].hash
    requires Faithful(txs, rows) && Complete(txs, rows)
    ensures LedgerSum(rows) == JournalSum(txs)
    decreases |txs|
  {
    if txs == [] {
      assert LedgerSum(rows) == 0;
    } else {
      var n := |txs| - 1;
      var t := txs[n];
      if Final(t) {
        assert HasRow(rows, t.hash);
        var i :| 0 <= i < |rows| && rows[i].hash == t.hash;
        var rest := rows[..i] + rows[i + 1..];
        DropRow(rows, i);
        assert IsFinalCost(txs, rows[i]);
        RestIsFaithful(txs, rows, i);
        SumsAgree(txs[..n], rest);
      } else {
        OpenTxHasNoRow(txs, rows);
        SumsAgree(txs[..n], rows);
      }
    }
  }

  lemma OpenTxHasNoRow(txs: seq<Tx>, rows: seq<GasRow>)
    requires txs != [] && !Final(txs[|txs| - 1]) && Faithful(txs, rows) && Complete(txs, rows)
    ensures Faithful(txs[..|txs| - 1], rows) && Complete(txs[..|txs| - 1], rows)
  {
    var n := |txs| - 1;
    forall i | 0 <= i < |rows| ensures IsFinalCost(txs[..n], rows[i]) {
      assert IsFinalCost(txs, rows[i]);
      var k :| 0 <= k < |txs| && txs[k].hash == rows[i].hash && Final(txs[k]) && Cost(txs[k]) == rows[i].amount;
      assert txs[..n][k] == txs[k];
    }
    assert forall k :: 0 <= k < n ==> txs[..n][k] == txs[k];
  }

  lemma RestIsFaithful(txs: seq<Tx>, rows: seq<GasRow>, i: nat)
    requires txs != [] && i < |rows| && rows[i].hash == txs[|txs| - 1].hash
    requires forall a, b :: 0 <= a < b < |txs| ==> txs[a].hash != txs[b].hash
    requires Faithful(txs, rows) && Complete(txs, rows)
    ensures var rest := rows[..i] + rows[i + 1..]; Faithful(txs[..|txs| - 1], rest) && Complete(txs[..|txs| - 1], rest)
  {
    var n := |txs| - 1;
    var rest := rows[..i] + rows[i + 1..];
    forall r | 0 <= r < |rest| ensures IsFinalCost(txs[..n], rest[r]) {
      var at := if r < i then r else r + 1;
      assert rest[r] == rows[at] && IsFinalCost(txs, rows[at]);
      var k :| 0 <= k < |txs| && txs[k].hash == rows[at].hash && Final(txs[k]) && Cost(txs[k]) == rows[at].amount;
      assert k != n;
      assert txs[..n][k] == txs[k];
    }
    forall k | 0 <= k < n && Final(txs[..n][k]) ensures HasRow(rest, txs[..n][k].hash) {
      assert HasRow(rows, txs[k].hash);
      var at :| 0 <= at < |rows| && rows[at].hash == txs[k].hash;
      assert at != i;
      assert rest[if at < i then at else at - 1] == rows[at];
    }
  }

  lemma {:induction false} DropRow(rows: seq<GasRow>, i: nat)
    requires i < |rows|
    ensures LedgerSum(rows) == LedgerSum(rows[..i] + rows[i + 1..]) + rows[i].amount
  {
    var n := |rows| - 1;
    var rest := rows[..i] + rows[i + 1..];
    if i == n {
      assert rest == rows[..n];
    } else {
      assert rest[..|rest| - 1] == rows[..n][..i] + rows[..n][i + 1..];
      DropRow(rows[..n], i);
    }
  }

  // ---- Over whole runs ----

  datatype State = State(job: Job, rows: seq<GasRow>)

  datatype GasEvent =
    | Journal(e: Event)                                          // anything else the job machine does, crashes included
    | LiveReceipt(success: bool, gas: (nat, nat), crash: bool)   // the signer's receipt; a crash comes before its insert
    | Pass(chain: Chain)                                         // a reconcile pass over an open job that goes no further
    | PassAndEnter(chain: Chain, review: bool)                   // one after which the runner goes on

  /** The settlements of one pass, as events of the job machine. */
  function PassJob(j: Job, chain: Chain, n: nat): Job
    requires n <= |j.txs|
    ensures |PassJob(j, chain, n).txs| == |j.txs|
  {
    if n == 0 then j
    else
      var k := PassJob(j, chain, n - 1);
      var found := chain(k.txs[n - 1].hash);
      if found.Deep? then Step(k, Settle(n - 1, found.success, found.gas)) else k
  }

  /**
   * Events that reach the job by themselves. The runner enters a job only behind a pass, settles a
   * receipt it waited for only together with its insert, and completes a job only while in it; a
   * settlement outside a run is that of a pass that crashed before it rebuilt the ledger.
   */
  predicate Alone(j: Job, e: Event) {
    match e
    case Enter(_) => false
    case Settle(_, _, _) => j.proc.Out?
    case Complete => j.proc.Busy?
    case _ => true
  }

  function Passed(s: State, chain: Chain): State {
    var j := PassJob(s.job, chain, |s.job.txs|);
    State(j, InsertAll(j.txs, s.rows))
  }

  function GasStep(s: State, e: GasEvent): State {
    match e
    case Journal(ev) => if Alone(s.job, ev) then s.(job := Step(s.job, ev)) else s
    case LiveReceipt(success, gas, crash) =>
      if s.job.proc.Waiting? && s.job.proc.at < |s.job.txs| then
        var i := s.job.proc.at;
        var j := Step(s.job, Settle(i, success, gas));
        if crash then s.(job := Step(j, Crash))
        else if success then State(j, Insert(s.rows, s.job.txs[i].hash, gas.0 * gas.1))
        else s.(job := j)
      else s
    case Pass(chain) => if Open(s.job) && s.job.proc.Out? then Passed(s, chain) else s
    case PassAndEnter(chain, review) =>
      if Open(s.job) && s.job.proc.Out? then Passed(s, chain).(job := Step(Passed(s, chain).job, Enter(review))) else s
  }

  function GasRun(events: seq<GasEvent>): State {
    if events == [] then State(CREATED, []) else GasStep(GasRun(events[..|events| - 1]), events[|events| - 1])
  }

  lemma StepKeepsFinal(j: Job, e: Event)
    requires Inv(j)
    ensures KeepsFinal(j.txs, Step(j, e).txs)
  {
  }

  /** One pass settles every transaction the chain has finalised, and is itself a run of the job machine. */
  lemma {:induction false} PassSettles(j: Job, chain: Chain, n: nat)
    requires Inv(j) && j.proc.Out? && n <= |j.txs|
    ensures var k := PassJob(j, chain, n);
      && Inv(k) && k.proc.Out? && k.state == j.state && KeepsFinal(j.txs, k.txs)
      && (forall i :: 0 <= i < n ==> k.txs[i] == Settled(j.txs[i], chain))
      && (forall i :: n <= i < |j.txs| ==> k.txs[i] == j.txs[i])
  {
    if n > 0 {
      PassSettles(j, chain, n - 1);
      var k := PassJob(j, chain, n - 1);
      var found := chain(k.txs[n - 1].hash);
      if found.Deep? { StepKeepsInv(k, Settle(n - 1, found.success, found.gas)); }
    }
  }

  /** Nothing became final that was not final before. */
  predicate NothingSettled(a: seq<Tx>, b: seq<Tx>) {
    forall k :: 0 <= k < |b| && Final(b[k]) ==> k < |a| && Final(a[k]) && b[k].hash == a[k].hash
  }

  lemma CompleteIsKept(a: seq<Tx>, b: seq<Tx>, rows: seq<GasRow>)
    requires Complete(a, rows) && NothingSettled(a, b)
    ensures Complete(b, rows)
  {
    forall k | 0 <= k < |b| && Final(b[k]) ensures HasRow(rows, b[k].hash) { assert HasRow(rows, a[k].hash); }
  }

  lemma StepAloneSettlesNothing(j: Job, e: Event)
    requires Inv(j) && Alone(j, e) && (e.Settle? ==> !j.proc.Out?)
    ensures NothingSettled(j.txs, Step(j, e).txs)
  {
  }

  /**
   * One exact row per final transaction at most, always; and none missing while the runner is in
   * the job, nor once the job has completed.
   */
  ghost predicate Accounted(s: State) {
    && Inv(s.job) && Faithful(s.job.txs, s.rows)
    && (!s.job.proc.Out? || s.job.state.Completed? ==> Complete(s.job.txs, s.rows))
  }

  lemma AloneKeepsAccounts(s: State, e: Event)
    requires Accounted(s) && Alone(s.job, e)
    ensures Accounted(s.(job := Step(s.job, e)))
  {
    var j := Step(s.job, e);
    StepKeepsInv(s.job, e);
    StepKeepsFinal(s.job, e);
    FaithfulIsKept(s.job.txs, j.txs, s.rows);
    if !s.job.proc.Out? || s.job.state.Completed? {
      if s.job.state.Completed? { ClosedIsFrozen(s.job, e); } else { StepAloneSettlesNothing(s.job, e); }
      CompleteIsKept(s.job.txs, j.txs, s.rows);
    }
  }

  lemma OneMoreRowCompletes(txs: seq<Tx>, i: nat, t: Tx, rows: seq<GasRow>)
    requires i < |txs| && t.hash == txs[i].hash && Final(t) && Complete(txs, rows) && Faithful(txs[i := t], rows)
    ensures Faithful(txs[i := t], Insert(rows, t.hash, Cost(t))) && Complete(txs[i := t], Insert(rows, t.hash, Cost(t)))
  {
    var after := txs[i := t];
    InsertIsFaithful(after, rows, i);
    forall k | 0 <= k < |after| && Final(after[k]) ensures HasRow(Insert(rows, t.hash, Cost(t)), after[k].hash) {
      if k != i { assert HasRow(rows, txs[k].hash); }
    }
  }

  lemma ReceiptKeepsAccounts(s: State, success: bool, gas: (nat, nat), crash: bool)
    requires Accounted(s)
    ensures Accounted(GasStep(s, LiveReceipt(success, gas, crash)))
  {
    if s.job.proc.Waiting? {
      var i := s.job.proc.at;
      var e := Settle(i, success, gas);
      var j := Step(s.job, e);
      StepKeepsInv(s.job, e);
      StepKeepsInv(j, Crash);
      StepKeepsFinal(s.job, e);
      FaithfulIsKept(s.job.txs, j.txs, s.rows);
      if !crash && success {
        assert j.txs == s.job.txs[i := j.txs[i]] && Cost(j.txs[i]) == gas.0 * gas.1;
        OneMoreRowCompletes(s.job.txs, i, j.txs[i], s.rows);
      }
    }
  }

  /** Whatever the ledger missed before, one pass leaves exactly one exact row per final transaction. */
  lemma PassRepairs(s: State, chain: Chain)
    requires Inv(s.job) && Open(s.job) && s.job.proc.Out? && Faithful(s.job.txs, s.rows)
    ensures var t := Passed(s, chain);
      && Inv(t.job) && t.job.proc.Out? && Faithful(t.job.txs, t.rows) && Complete(t.job.txs, t.rows)
      && LedgerSum(t.rows) == JournalSum(t.job.txs)
  {
    var n := |s.job.txs|;
    var t := Passed(s, chain);
    PassSettles(s.job, chain, n);
    FaithfulIsKept(s.job.txs, t.job.txs, s.rows);
    assert t.job.txs[..n] == t.job.txs;
    PassIsComplete(t.job.txs, n, s.rows);
    SumsAgree(t.job.txs, t.rows);
  }

  lemma StepKeepsAccounts(s: State, e: GasEvent)
    requires Accounted(s)
    ensures Accounted(GasStep(s, e))
  {
    match e
    case Journal(ev) => if Alone(s.job, ev) { AloneKeepsAccounts(s, ev); }
    case LiveReceipt(success, gas, crash) => ReceiptKeepsAccounts(s, success, gas, crash);
    case Pass(chain) => if Open(s.job) && s.job.proc.Out? { PassRepairs(s, chain); }
    case PassAndEnter(chain, review) =>
      if Open(s.job) && s.job.proc.Out? {
        PassRepairs(s, chain);
        StepKeepsInv(Passed(s, chain).job, Enter(review));
        assert Step(Passed(s, chain).job, Enter(review)).txs == Passed(s, chain).job.txs;
      }
  }

  lemma {:induction false} RunKeepsAccounts(events: seq<GasEvent>)
    ensures Accounted(GasRun(events))
  {
    if events == [] {
      RunKeepsInv([]);
    } else {
      RunKeepsAccounts(events[..|events| - 1]);
      StepKeepsAccounts(GasRun(events[..|events| - 1]), events[|events| - 1]);
    }
  }

  /**
   * Gas accounting survives crashes: after any mix of receipts, missed inserts, crashes and
   * earlier passes, a pass makes the ledger's gas equal the journal's, each receipt counted once.
   */
  lemma GasSurvivesCrashes(events: seq<GasEvent>, chain: Chain)
    requires Open(GasRun(events).job) && GasRun(events).job.proc.Out?
    ensures var t := GasStep(GasRun(events), Pass(chain));
      && Faithful(t.job.txs, t.rows) && Complete(t.job.txs, t.rows) && LedgerSum(t.rows) == JournalSum(t.job.txs)
      && t.job.txs == SettleAll(GasRun(events).job.txs, chain)
  {
    RunKeepsAccounts(events);
    PassRepairs(GasRun(events), chain);
    PassSettles(GasRun(events).job, chain, |GasRun(events).job.txs|);
  }

  /** A completed job's gas ledger needs no later pass: it already holds one exact row per transaction. */
  lemma CompletedJobIsAccounted(events: seq<GasEvent>)
    requires GasRun(events).job.state.Completed?
    ensures var s := GasRun(events);
      Faithful(s.job.txs, s.rows) && Complete(s.job.txs, s.rows) && LedgerSum(s.rows) == JournalSum(s.job.txs)
  {
    RunKeepsAccounts(events);
    SumsAgree(GasRun(events).job.txs, GasRun(events).rows);
  }
}
