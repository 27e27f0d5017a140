/**
 * Jobs and strategies of the Fables executor as one database: creation, progress, quarantine,
 * closing, the monitor's writes and the ordinary strategies and jobs that share the wallets
 * (executor/fablesJobs.ts, executor/fablesStore.ts, executor/fablesMonitor.ts, executor/store.ts).
 */
module FablesDb {
  import opened Basics
  import J = FablesJob

  type Sid = nat
  type Jid = nat
  type Wallet = nat

  datatype Config = Config(revision: nat, owner: nat, pool: nat, hook: nat, range: nat, wallet: Option<Wallet>,
                           enabled: bool, auto: bool, settings: nat)

  datatype StrategyState = Disabled | Monitoring | Confirming | Paused | ReadError | AwaitingManual
                         | DryRunReady | Executing | InRecovery

  datatype Strategy = Strategy(config: Config, state: StrategyState)

  /** A job row with its journal, the machine of `FablesJob`. */
  datatype Job = Job(sid: Sid, wallet: Wallet, config: Config, journal: J.Job)

  /** An ordinary strategy: its `wallet_id` column, and whether its state announces an open job. */
  datatype Holder = Holder(wallet: Option<Wallet>, busy: bool)

  datatype OrdinaryState = Queued | Signing | Recovering

  /** An open ordinary job. `signs` is the wallet it was begun with; the row itself stores only the strategy. */
  datatype OrdinaryJob = OrdinaryJob(strategy: nat, signs: Wallet, state: OrdinaryState, unresolved: bool)

  /** `ordinary` holds the open ordinary jobs; `watch` is the monitor's volatile work list. */
  datatype Db = Db(strategies: map<Sid, Strategy>, jobs: map<Jid, Job>, holders: map<nat, Holder>,
                   ordinary: map<nat, OrdinaryJob>, watch: map<Sid, Config>)

  predicate OpenAt(d: Db, j: Jid) {
    j in d.jobs && J.Open(d.jobs[j].journal)
  }

  /** The strategy state that goes with an open job. */
  function Mirror(s: J.JobState): StrategyState {
    if s.Recovery? then InRecovery else Executing
  }

  predicate Occupied(s: StrategyState) {
    s.Executing? || s.InRecovery?
  }

  /** An open job owns its strategy: same configuration, and the strategy is executing or in recovery. */
  predicate Owns(d: Db, j: Jid)
    requires j in d.jobs
  {
    var job := d.jobs[j];
    && job.sid in d.strategies
    && d.strategies[job.sid].config == job.config
    && Occupied(d.strategies[job.sid].state)
    && job.config.wallet == Some(job.wallet)
  }

  /** The unique index over enabled strategies. */
  predicate SameRange(a: Config, b: Config) {
    a.enabled && b.enabled && a.owner == b.owner && a.pool == b.pool && a.hook == b.hook && a.range == b.range
  }

  predicate RangeTaken(strategies: map<Sid, Strategy>, sid: Sid, config: Config) {
    exists s :: s in strategies && s != sid && SameRange(strategies[s].config, config)
  }

  predicate UniqueRanges(strategies: map<Sid, Strategy>) {
    forall s, t :: s in strategies && t in strategies && SameRange(strategies[s].config, strategies[t].config) ==> s == t
  }

  ghost predicate JournalsSound(d: Db) {
    forall j :: j in d.jobs ==> J.Inv(d.jobs[j].journal)
  }

  ghost predicate Coherent(d: Db) {
    && (forall j :: OpenAt(d, j) ==> Owns(d, j))
    && (forall i, j :: OpenAt(d, i) && OpenAt(d, j) && i != j ==> d.jobs[i].sid != d.jobs[j].sid && d.jobs[i].wallet != d.jobs[j].wallet)
    && (forall j, s :: OpenAt(d, j) && s in d.watch ==> d.jobs[j].sid != s)
    && UniqueRanges(d.strategies)
    && (forall o, p :: o in d.ordinary && p in d.ordinary && d.ordinary[o].strategy == d.ordinary[p].strategy ==> o == p)
  }

  /** The wallet the database attributes to an ordinary job: that of its strategy, whatever it is by now. */
  predicate JoinedTo(d: Db, o: nat, w: Wallet)
    requires o in d.ordinary
  {
    d.ordinary[o].strategy in d.holders && d.holders[d.ordinary[o].strategy].wallet == Some(w)
  }

  /** Ordinary jobs are attributed to the wallet they sign with, and share none with an open Fables job. */
  ghost predicate Exclusive(d: Db) {
    && (forall o :: o in d.ordinary ==> JoinedTo(d, o, d.ordinary[o].signs))
    && (forall j, o :: OpenAt(d, j) && o in d.ordinary ==> d.ordinary[o].signs != d.jobs[j].wallet)
  }

  /** Job and strategy states agree exactly; only a crash between the two progress writes can break this. */
  ghost predicate Mirrored(d: Db) {
    forall j :: OpenAt(d, j) && d.jobs[j].sid in d.strategies ==> d.strategies[d.jobs[j].sid].state == Mirror(d.jobs[j].journal.state)
  }

  /** What every operation keeps of the Fables side. */
  ghost predicate Keeps(before: Db, after: Db) {
    Coherent(after) && (Mirrored(before) ==> Mirrored(after)) && (Exclusive(before) ==> Exclusive(after))
  }

  // ---- Shapes shared by the methods ----

  function WithJournal(d: Db, j: Jid, journal: J.Job): Db
    requires j in d.jobs
  {
    d.(jobs := d.jobs[j := d.jobs[j].(journal := journal)])
  }

  function WithState(d: Db, s: Sid, state: StrategyState): Db
    requires s in d.strategies
  {
    d.(strategies := d.strategies[s := d.strategies[s].(state := state)])
  }

  /** Writing one open job's journal and the state of its own strategy keeps the database coherent. */
  lemma ProgressIsCoherent(d: Db, j: Jid, journal: J.Job, state: StrategyState)
    requires Coherent(d) && OpenAt(d, j) && J.Open(journal) && d.jobs[j].sid in d.strategies && Occupied(state)
    ensures var after := WithState(WithJournal(d, j, journal), d.jobs[j].sid, state);
      && Coherent(after) && (Exclusive(d) ==> Exclusive(after))
      && (Mirrored(d) && state == Mirror(journal.state) ==> Mirrored(after))
  {
    var after := WithState(WithJournal(d, j, journal), d.jobs[j].sid, state);
    forall i | OpenAt(after, i) ensures OpenAt(d, i) && Owns(after, i) { assert Owns(d, i); }
    OrdinarySideKept(d, after);
    RangesKept(d.strategies, d.jobs[j].sid, after.strategies[d.jobs[j].sid]);
  }

  /** The ordinary side only looks at the wallets of open jobs. */
  lemma OrdinarySideKept(d: Db, after: Db)
    requires after.ordinary == d.ordinary && after.holders == d.holders
    requires forall i :: OpenAt(after, i) ==> OpenAt(d, i) && after.jobs[i].wallet == d.jobs[i].wallet
    ensures Exclusive(d) ==> Exclusive(after)
  {
    forall o | o in after.ordinary && Exclusive(d) ensures JoinedTo(after, o, after.ordinary[o].signs) {
      assert JoinedTo(d, o, d.ordinary[o].signs);
    }
  }

  lemma RangesKept(strategies: map<Sid, Strategy>, s: Sid, row: Strategy)
    requires UniqueRanges(strategies)
    requires !RangeTaken(strategies, s, row.config) || (s in strategies && row.config == strategies[s].config)
    ensures UniqueRanges(strategies[s := row])
  {
    var after := strategies[s := row];
    forall t | t in strategies && t != s ensures !SameRange(strategies[t].config, row.config) && !SameRange(row.config, strategies[t].config) { }
  }

  /** Losing the second progress write tears job and strategy apart exactly when the write would have changed the strategy. */
  lemma TornIffStateChanged(d: Db, j: Jid, journal: J.Job)
    requires Coherent(d) && Mirrored(d) && OpenAt(d, j) && J.Open(journal)
    ensures Mirrored(WithJournal(d, j, journal)) <==> Mirror(journal.state) == Mirror(d.jobs[j].journal.state)
  {
    var after := WithJournal(d, j, journal);
    assert Owns(d, j) && OpenAt(after, j);
    forall i | OpenAt(after, i) && i != j && after.jobs[i].sid in after.strategies
      ensures after.strategies[after.jobs[i].sid].state == Mirror(after.jobs[i].journal.state)
    {
      assert OpenAt(d, i);
    }
    assert after.strategies[after.jobs[j].sid].state == Mirror(d.jobs[j].journal.state);
  }

  /** Moving only the journal of an open job keeps the database coherent, and tears it exactly when the strategy should have followed. */
  lemma JournalIsCoherent(d: Db, j: Jid, journal: J.Job)
    requires Coherent(d) && OpenAt(d, j) && J.Open(journal)
    ensures Coherent(WithJournal(d, j, journal)) && (Exclusive(d) ==> Exclusive(WithJournal(d, j, journal)))
    ensures Mirrored(d) ==> (Mirrored(WithJournal(d, j, journal)) <==> Mirror(journal.state) == Mirror(d.jobs[j].journal.state))
  {
    assert Owns(d, j);
    var sid := d.jobs[j].sid;
    ProgressIsCoherent(d, j, journal, d.strategies[sid].state);
    assert WithState(WithJournal(d, j, journal), sid, d.strategies[sid].state) == WithJournal(d, j, journal);
    if Mirrored(d) { TornIffStateChanged(d, j, journal); }
  }

  /** Closing a job frees its strategy for any state and any configuration whose range is free. */
  lemma ClosingIsCoherent(d: Db, j: Jid, journal: J.Job, strategy: Strategy)
    requires Coherent(d) && OpenAt(d, j) && !J.Open(journal) && d.jobs[j].sid in d.strategies
    requires strategy.config == d.strategies[d.jobs[j].sid].config || !RangeTaken(d.strategies, d.jobs[j].sid, strategy.config)
    ensures Keeps(d, WithJournal(d, j, journal).(strategies := d.strategies[d.jobs[j].sid := strategy]))
  {
    var after := WithJournal(d, j, journal).(strategies := d.strategies[d.jobs[j].sid := strategy]);
    forall i | OpenAt(after, i) ensures OpenAt(d, i) && i != j && Owns(after, i) { assert Owns(d, i); }
    OrdinarySideKept(d, after);
    RangesKept(d.strategies, d.jobs[j].sid, strategy);
  }

  /** A strategy no open job owns may be rewritten freely, as far as its range is free. */
  lemma FreeStrategyIsCoherent(d: Db, s: Sid, strategy: Strategy)
    requires Coherent(d) && forall j :: OpenAt(d, j) ==> d.jobs[j].sid != s
    requires !RangeTaken(d.strategies, s, strategy.config) || (s in d.strategies && strategy.config == d.strategies[s].config)
    ensures Keeps(d, d.(strategies := d.strategies[s := strategy]))
  {
    var after := d.(strategies := d.strategies[s := strategy]);
    forall i | OpenAt(after, i) ensures OpenAt(d, i) && Owns(after, i) { assert Owns(d, i); }
    OrdinarySideKept(d, after);
    RangesKept(d.strategies, s, strategy);
  }

  // ---- Creating a job ----

  /** What `createFablesJob` checks. */
  ghost predicate Creatable(d: Db, config: Config, sid: Sid) {
    && config.enabled && config.auto && config.wallet.Some?
    && sid in d.strategies && d.strategies[sid] == Strategy(config, DryRunReady)
    && (forall o :: o in d.ordinary ==> !JoinedTo(d, o, config.wallet.value))
    && (forall j :: OpenAt(d, j) ==> d.jobs[j].wallet != config.wallet.value)
  }

  function Created(d: Db, id: Jid, config: Config, sid: Sid): Db
    requires config.wallet.Some?
  {
    d.(strategies := d.strategies[sid := Strategy(config, Executing)],
       jobs := d.jobs[id := Job(sid, config.wallet.value, config, J.CREATED)],
       watch := d.watch - {sid})
  }

  lemma CreatedIsCoherent(d: Db, id: Jid, config: Config, sid: Sid)
    requires Coherent(d) && id !in d.jobs && Creatable(d, config, sid)
    ensures Keeps(d, Created(d, id, config, sid))
  {
    var after := Created(d, id, config, sid);
    forall i | OpenAt(d, i) ensures d.jobs[i].sid != sid { assert Owns(d, i); }
    forall i | OpenAt(after, i) ensures (i == id || OpenAt(d, i)) && Owns(after, i) {
      if i != id { assert OpenAt(d, i) && Owns(d, i); }
    }
    RangesKept(d.strategies, sid, after.strategies[sid]);
    if Exclusive(d) {
      forall o | o in after.ordinary ensures JoinedTo(after, o, after.ordinary[o].signs) && after.ordinary[o].signs != config.wallet.value {
        assert JoinedTo(d, o, d.ordinary[o].signs);
      }
    }
  }

  // ---- Ordinary strategies and jobs ----

  /** `upsertStrategy`: the wallet column is overwritten, whatever the strategy is doing. */
  function Saved(d: Db, s: nat, wallet: Option<Wallet>): Db {
    d.(holders := d.holders[s := Holder(wallet, false)])
  }

  /** No open ordinary job of the strategy signs with another wallet. */
  predicate SaveIsHarmless(d: Db, s: nat, wallet: Option<Wallet>) {
    forall o :: o in d.ordinary && d.ordinary[o].strategy == s ==> wallet == Some(d.ordinary[o].signs)
  }

  /** A save keeps the wallets exclusive exactly when the strategy has no open job or keeps its wallet. */
  lemma SaveIsHarmlessIff(d: Db, s: nat, wallet: Option<Wallet>)
    requires Coherent(d) && Exclusive(d)
    ensures Exclusive(Saved(d, s, wallet)) <==> SaveIsHarmless(d, s, wallet)
  {
    var after := Saved(d, s, wallet);
    forall o | o in d.ordinary && d.ordinary[o].strategy != s ensures JoinedTo(after, o, d.ordinary[o].signs) {
      assert JoinedTo(d, o, d.ordinary[o].signs);
    }
    assert forall j :: OpenAt(after, j) <==> OpenAt(d, j);
  }

  /** The routes' guard tests the strategy's state; a withdrawal never sets it. */
  predicate LooksFree(d: Db, s: nat) {
    s in d.holders ==> !d.holders[s].busy
  }

  function WithdrawalBegun(d: Db, o: nat, s: nat, wallet: Wallet): Db {
    d.(ordinary := d.ordinary[o := OrdinaryJob(s, wallet, Signing, false)])
  }

  /**
   * A withdrawal runs on a wallet; its strategy still looks free, and is saved with another
   * wallet or with none. A Fables strategy on the first wallet that is ready is then refused no
   * longer, and two open jobs sign with one wallet.
   */
  lemma SaveLetsTwoSign(d: Db, o: nat, s: nat, w: Wallet, saved: Option<Wallet>, id: Jid, config: Config, sid: Sid)
    requires Coherent(d) && Exclusive(d) && o !in d.ordinary && id !in d.jobs
    requires s in d.holders && d.holders[s] == Holder(Some(w), false)
    requires Creatable(d, config, sid) && config.wallet == Some(w) && saved != Some(w)
    ensures var begun := WithdrawalBegun(d, o, s, w);
      && LooksFree(begun, s) && !Creatable(begun, config, sid)
      && Creatable(Saved(begun, s, saved), config, sid)
      && var after := Created(Saved(begun, s, saved), id, config, sid);
         OpenAt(after, id) && after.jobs[id].wallet == after.ordinary[o].signs == w
  {
    var begun := WithdrawalBegun(d, o, s, w);
    assert JoinedTo(begun, o, w);
    var after := Saved(begun, s, saved);
    forall p | p in after.ordinary ensures !JoinedTo(after, p, w) {
      if p != o && after.ordinary[p].strategy != s { assert !JoinedTo(d, p, w); }
    }
    assert forall j :: OpenAt(after, j) <==> OpenAt(d, j);
  }

  /** Nor does a save look at the wallet it moves to: the open job lands on the wallet of an open Fables job. */
  lemma SaveOntoBusyWallet(d: Db, o: nat, j: Jid)
    requires Coherent(d) && Exclusive(d) && o in d.ordinary && OpenAt(d, j)
    ensures var after := Saved(d, d.ordinary[o].strategy, Some(d.jobs[j].wallet));
      OpenAt(after, j) && JoinedTo(after, o, after.jobs[j].wallet) && !Exclusive(after)
  {
    var after := Saved(d, d.ordinary[o].strategy, Some(d.jobs[j].wallet));
    assert d.ordinary[o].signs != d.jobs[j].wallet;
    assert !JoinedTo(after, o, d.ordinary[o].signs);
  }

  // ---- The quarantine at start-up ----

  function RunningJobs(jobs: map<Jid, Job>): set<Jid> {
    set j | j in jobs && jobs[j].journal.state.Running?
  }

  predicate OwnedByAny(d: Db, ids: set<Jid>, s: Sid) {
    exists j :: j in ids && j in d.jobs && d.jobs[j].sid == s
  }

  /** The journal of a running job after a crash and the quarantine. */
  function Interrupted(journal: J.Job): J.Job {
    J.Step(J.Step(journal, J.Crash), J.Quarantine)
  }

  /** `after` is `before` with exactly these jobs interrupted and their strategies moved to recovery. */
  ghost predicate Quarantined(before: Db, ids: set<Jid>, after: Db) {
    && after.ordinary == before.ordinary && after.holders == before.holders
    && after.jobs.Keys == before.jobs.Keys && after.strategies.Keys == before.strategies.Keys
    && (forall j :: j in before.jobs ==>
          after.jobs[j] == before.jobs[j].(journal := if j in ids then Interrupted(before.jobs[j].journal) else before.jobs[j].journal))
    && (forall s :: s in before.strategies ==>
          after.strategies[s] == before.strategies[s].(state := if OwnedByAny(before, ids, s) then InRecovery else before.strategies[s].state))
  }

  function ToRecovery(d: Db, j: Jid): Db
    requires OpenAt(d, j) && d.jobs[j].sid in d.strategies
  {
    WithState(WithJournal(d, j, Interrupted(d.jobs[j].journal)), d.jobs[j].sid, InRecovery)
  }

  lemma QuarantineOneMore(before: Db, done: set<Jid>, j: Jid, mid: Db)
    requires Coherent(before) && Quarantined(before, done, mid) && j in RunningJobs(before.jobs) && j !in done
    ensures OpenAt(mid, j) && mid.jobs[j].sid in mid.strategies
    ensures Quarantined(before, done + {j}, ToRecovery(mid, j))
  {
    assert OpenAt(before, j) && Owns(before, j);
    forall s | s in before.strategies
      ensures OwnedByAny(before, done + {j}, s) <==> OwnedByAny(before, done, s) || before.jobs[j].sid == s
    {
      if before.jobs[j].sid == s { assert j in done + {j}; }
      if OwnedByAny(before, done, s) {
        var i :| i in done && i in before.jobs && before.jobs[i].sid == s;
        assert i in done + {j};
      }
    }
  }

  function SetOf(rows: seq<Jid>): set<Jid> {
    set j | j in rows
  }

  predicate Distinct(rows: seq<Jid>) {
    rows != [] ==> rows[|rows| - 1] !in rows[..|rows| - 1] && Distinct(rows[..|rows| - 1])
  }

  function QuarantineAll(d: Db, rows: seq<Jid>): Db {
    if rows == [] then d
    else
      var before := QuarantineAll(d, rows[..|rows| - 1]);
      var j := rows[|rows| - 1];
      if OpenAt(before, j) && before.jobs[j].sid in before.strategies then ToRecovery(before, j) else before
  }

  lemma SetOfSnoc(init: seq<Jid>, j: Jid)
    ensures SetOf(init + [j]) == SetOf(init) + {j}
  {
  }

  lemma {:induction false} DistinctPrefix(rows: seq<Jid>, k: nat)
    requires Distinct(rows) && k <= |rows|
    ensures Distinct(rows[..k])
  {
    if k == |rows| {
      assert rows[..k] == rows;
    } else {
      assert rows[..|rows| - 1][..k] == rows[..k];
      DistinctPrefix(rows[..|rows| - 1], k);
    }
  }

  lemma {:induction false} QuarantineAllMeaning(d: Db, rows: seq<Jid>)
    requires Coherent(d) && Distinct(rows) && SetOf(rows) <= RunningJobs(d.jobs)
    ensures Quarantined(d, SetOf(rows), QuarantineAll(d, rows))
  {
    if rows != [] {
      var init, j := rows[..|rows| - 1], rows[|rows| - 1];
      assert rows == init + [j];
      SetOfSnoc(init, j);
      assert j in SetOf(rows);
      QuarantineAllMeaning(d, init);
      QuarantineOneMore(d, SetOf(init), j, QuarantineAll(d, init));
    }
  }

  lemma QuarantineNext(d: Db, rows: seq<Jid>, i: nat)
    requires Coherent(d) && Distinct(rows) && SetOf(rows) <= RunningJobs(d.jobs) && i < |rows|
    ensures var mid := QuarantineAll(d, rows[..i]);
      && OpenAt(mid, rows[i]) && mid.jobs[rows[i]].sid in mid.strategies
      && QuarantineAll(d, rows[..i + 1]) == ToRecovery(mid, rows[i])
  {
    DistinctPrefix(rows, i + 1);
    DistinctPrefix(rows, i);
    assert rows[..i + 1][..i] == rows[..i];
    assert forall j :: j in rows[..i] ==> j in SetOf(rows);
    assert rows[i] in SetOf(rows);
    QuarantineAllMeaning(d, rows[..i]);
    QuarantineOneMore(d, SetOf(rows[..i]), rows[i], QuarantineAll(d, rows[..i]));
  }

  lemma QuarantinedIsCoherent(before: Db, after: Db)
    requires Coherent(before) && Quarantined(before, RunningJobs(before.jobs), after) && after.watch == map[]
    ensures Keeps(before, after)
  {
    forall i | OpenAt(after, i) ensures OpenAt(before, i) && Owns(before, i) && Owns(after, i) { assert OpenAt(before, i) && Owns(before, i); }
    OrdinarySideKept(before, after);
    assert forall s :: s in before.strategies ==> after.strategies[s].config == before.strategies[s].config;
    if Mirrored(before) { QuarantinedIsMirrored(before, after); }
  }

  lemma QuarantinedIsMirrored(before: Db, after: Db)
    requires Coherent(before) && Mirrored(before) && Quarantined(before, RunningJobs(before.jobs), after)
    ensures Mirrored(after)
  {
    forall i | OpenAt(after, i) && after.jobs[i].sid in after.strategies
      ensures after.strategies[after.jobs[i].sid].state == Mirror(after.jobs[i].journal.state)
    {
      assert OpenAt(before, i);
      if j :| j in RunningJobs(before.jobs) && before.jobs[j].sid == before.jobs[i].sid { assert OpenAt(before, j); }
    }
  }

  lemma QuarantineKeepsJournals(before: Db, after: Db)
    requires JournalsSound(before) && Quarantined(before, RunningJobs(before.jobs), after)
    ensures JournalsSound(after)
  {
    forall j | j in after.jobs ensures J.Inv(after.jobs[j].journal) {
      var journal := before.jobs[j].journal;
      assert j in before.jobs && J.Inv(journal);
      J.StepKeepsInv(journal, J.Crash);
      J.StepKeepsInv(J.Step(journal, J.Crash), J.Quarantine);
    }
  }

  // ---- Progress ----

  /** The runner's events inside a pass, and the manual rebroadcast; the others have transactions of their own. */
  predicate InPass(e: J.Event) {
    e.Enter? || e.Advance? || e.Intent? || e.BroadcastOk? || e.Settle? || e.Raise? || e.Rebroadcast?
  }

  /** The events that go through `setFablesJobProgress`, which also writes the strategy row. */
  predicate WritesStrategy(j: J.Job, e: J.Event) {
    J.Step(j, e) != j && (e.Enter? || e.Advance? || e.Raise? || (e.Settle? && !e.success && j.proc == J.Waiting(e.at)))
  }

  /** An event of a pass leaves an open job open, and changes its state only when it also writes the strategy. */
  lemma PassStaysOpen(j: J.Job, e: J.Event)
    requires J.Inv(j) && J.Open(j) && InPass(e)
    ensures J.Open(J.Step(j, e)) && J.Inv(J.Step(j, e))
    ensures J.Step(j, e).state == j.state || WritesStrategy(j, e)
    ensures WritesStrategy(j, e) ==> !J.Step(j, e).state.Planned?
  {
    J.StepKeepsInv(j, e);
  }

  lemma CrashKeepsState(j: J.Job)
    requires J.Inv(j) && J.Open(j)
    ensures J.Inv(J.Step(j, J.Crash)) && J.Open(J.Step(j, J.Crash)) && J.Step(j, J.Crash).state == j.state
  {
    J.StepKeepsInv(j, J.Crash);
  }

  /** Why `completeFablesJob` refuses before it looks at the strategy. */
  predicate Completable(j: J.Job) {
    (j.state.Running? || j.state.Recovery?) && j.stage.Verify? && J.NoneUnresolved(j.txs)
  }

  lemma CompletedJournal(j: J.Job)
    requires J.Inv(j) && Completable(j)
    ensures J.Inv(J.Step(j, J.Complete)) && J.Step(j, J.Complete).state.Completed? && !J.Open(J.Step(j, J.Complete)) && J.Open(j)
  {
    J.StepKeepsInv(j, J.Complete);
  }

  /** Why `failFablesJobBeforeMutation` and `cancelFablesJobBackInRange` refuse. */
  predicate Closable(j: J.Job, cancelled: bool) {
    J.Open(j) && if cancelled then j.stage.Precheck? && j.txs == []
    else J.NoneUnresolved(j.txs) && forall i :: 0 <= i < |j.txs| && j.txs[i].state.Confirmed? ==> J.Approval(j.txs[i].stage)
  }

  function Closed(j: J.Job, cancelled: bool): J.Job {
    J.Step(j, if cancelled then J.CancelBackInRange else J.FailBeforeMutation)
  }

  lemma ClosedJournal(j: J.Job, cancelled: bool)
    requires J.Inv(j) && Closable(j, cancelled)
    ensures J.Inv(Closed(j, cancelled)) && !J.Open(Closed(j, cancelled))
  {
    J.StepKeepsInv(j, if cancelled then J.CancelBackInRange else J.FailBeforeMutation);
  }

  lemma WatchIsCoherent(d: Db, watch: map<Sid, Config>)
    requires Coherent(d) && forall j :: OpenAt(d, j) ==> d.jobs[j].sid !in watch
    ensures Keeps(d, d.(watch := watch))
  {
    var after := d.(watch := watch);
    forall j | OpenAt(after, j) ensures OpenAt(d, j) && Owns(after, j) { assert OpenAt(d, j) && Owns(d, j); }
    OrdinarySideKept(d, after);
  }

  lemma OneJournalSound(d: Db, j: Jid, journal: J.Job, after: Db)
    requires JournalsSound(d) && J.Inv(journal) && j in d.jobs && after.jobs == WithJournal(d, j, journal).jobs
    ensures JournalsSound(after)
  {
  }

  class FablesDatabase {
    var strategies: map<Sid, Strategy>
    var jobs: map<Jid, Job>
    var holders: map<nat, Holder>
    var ordinary: map<nat, OrdinaryJob>
    var watch: map<Sid, Config>

    function State(): Db
      reads this
    {
      Db(strategies, jobs, holders, ordinary, watch)
    }

    ghost predicate Valid()
      reads this
    {
      Coherent(State()) && JournalsSound(State())
    }

    constructor ()
      ensures State() == Db(map[], map[], map[], map[], map[]) && Valid() && Mirrored(State()) && Exclusive(State())
    {
      strategies, jobs, holders, ordinary, watch := map[], map[], map[], map[], map[];
    }

    /** `createFablesJob`, called by the monitor for a strategy it is watching; the strategy leaves the work list. */
    method CreateJob(id: Jid, config: Config, sid: Sid) returns (r: Result<()>)
      requires Valid() && id !in jobs
      modifies this
      ensures Valid() && Keeps(old(State()), State())
      ensures r.Ok? <==> Creatable(old(State()), config, sid)
      ensures State() == if r.Ok? then Created(old(State()), id, config, sid) else old(State())
    {
      if !config.enabled || !config.auto || config.wallet.None? { return Err("E_FABLES_AUTO_DISABLED"); }
      if sid !in strategies || !strategies[sid].state.DryRunReady? { return Err("E_FABLES_NOT_READY"); }
      if strategies[sid].config != config { return Err("E_FABLES_CONFIG_CHANGED"); }
      if exists o :: o in ordinary && JoinedTo(State(), o, config.wallet.value) { return Err("E_FABLES_WALLET_BUSY"); }
      if exists j :: j in jobs && OpenAt(State(), j) && jobs[j].wallet == config.wallet.value { return Err("E_FABLES_WALLET_BUSY"); }
      ghost var before := State();
      assert Creatable(before, config, sid);
      CreatedIsCoherent(before, id, config, sid);
      J.RunKeepsInv([]);
      jobs := jobs[id := Job(sid, config.wallet.value, config, J.CREATED)];
      strategies := strategies[sid := Strategy(config, Executing)];
      watch := watch - {sid};
      assert State() == Created(before, id, config, sid);
      return Ok(());
    }

    /** A write to the job row alone. */
    method WriteJournal(id: Jid, journal: J.Job)
      requires Valid() && OpenAt(State(), id) && J.Inv(journal) && J.Open(journal)
      modifies `jobs
      ensures Valid() && State() == WithJournal(old(State()), id, journal) && (Exclusive(old(State())) ==> Exclusive(State()))
      ensures old(Mirrored(State())) ==> (Mirrored(State()) <==> Mirror(journal.state) == Mirror(old(jobs)[id].journal.state))
    {
      ghost var before := State();
      jobs := jobs[id := jobs[id].(journal := journal)];
      JournalIsCoherent(before, id, journal);
      OneJournalSound(before, id, journal, State());
    }

    /**
     * `setFablesJobProgress` writes the job row and then the strategy row, each in its own
     * transaction. `crash` is a crash between the two: the runner is lost and the strategy row
     * stays behind.
     */
    method SetProgress(id: Jid, journal: J.Job, crash: bool) returns (r: Result<()>)
      requires Valid() && J.Inv(journal) && J.Open(journal) && !journal.state.Planned?
      modifies this
      ensures Valid() && (Exclusive(old(State())) ==> Exclusive(State())) && (!crash && old(Mirrored(State())) ==> Mirrored(State()))
      ensures crash && old(Mirrored(State())) && old(OpenAt(State(), id)) ==>
        (Mirrored(State()) <==> Mirror(journal.state) == Mirror(old(jobs)[id].journal.state))
      ensures r.Ok? <==> old(OpenAt(State(), id))
      ensures r.Err? ==> State() == old(State())
      ensures r.Ok? && crash ==> State() == WithJournal(old(State()), id, J.Step(journal, J.Crash))
      ensures r.Ok? ==> old(jobs)[id].sid in old(strategies)
      ensures r.Ok? && !crash ==> State() == WithState(WithJournal(old(State()), id, journal), old(jobs)[id].sid, Mirror(journal.state))
    {
      if id !in jobs || !J.Open(jobs[id].journal) { return Err("E_FABLES_JOB_CLOSED"); }
      ghost var before := State();
      var sid := jobs[id].sid;
      assert OpenAt(before, id) && Owns(before, id);
      if crash {
        J.StepKeepsInv(journal, J.Crash);
        WriteJournal(id, J.Step(journal, J.Crash));
        return Ok(());
      }
      jobs := jobs[id := jobs[id].(journal := journal)];
      strategies := strategies[sid := strategies[sid].(state := Mirror(journal.state))];
      ProgressIsCoherent(before, id, journal, Mirror(journal.state));
      OneJournalSound(before, id, journal, State());
      return Ok(());
    }

    /** One event of a pass: it moves the journal, and the strategy with it where the source writes both. */
    method PassEvent(id: Jid, e: J.Event, crash: bool)
      requires Valid() && id in jobs && InPass(e)
      modifies this
      ensures Valid() && (Exclusive(old(State())) ==> Exclusive(State())) && (!crash && old(Mirrored(State())) ==> Mirrored(State()))
      ensures crash && old(Mirrored(State())) && old(OpenAt(State(), id)) ==>
        (Mirrored(State()) <==> Mirror(J.Step(old(jobs)[id].journal, e).state) == Mirror(old(jobs)[id].journal.state))
      ensures var next := J.Step(old(jobs)[id].journal, e);
        jobs == WithJournal(old(State()), id, if crash then J.Step(next, J.Crash) else next).jobs
      ensures ordinary == old(ordinary) && holders == old(holders) && watch == old(watch)
      ensures if !crash && WritesStrategy(old(jobs)[id].journal, e) && J.Open(old(jobs)[id].journal)
        then old(jobs)[id].sid in old(strategies)
          && strategies == WithState(old(State()), old(jobs)[id].sid, Mirror(jobs[id].journal.state)).strategies
        else strategies == old(strategies)
    {
      var journal := jobs[id].journal;
      assert J.Inv(journal);
      if !J.Open(journal) {
        J.ClosedIsFrozen(journal, e);
        J.ClosedIsFrozen(journal, J.Crash);
        assert jobs[id := jobs[id].(journal := journal)] == jobs;
        return;
      }
      PassStaysOpen(journal, e);
      var next := J.Step(journal, e);
      assert OpenAt(State(), id) && Owns(State(), id);
      if WritesStrategy(journal, e) {
        var r := SetProgress(id, next, crash);
      } else {
        CrashKeepsState(next);
        WriteJournal(id, if crash then J.Step(next, J.Crash) else next);
      }
    }

    method QuarantineOne(j: Jid)
      requires OpenAt(State(), j) && jobs[j].sid in strategies
      modifies `jobs, `strategies
      ensures State() == ToRecovery(old(State()), j)
    {
      jobs := jobs[j := jobs[j].(journal := Interrupted(jobs[j].journal))];
      strategies := strategies[jobs[j].sid := strategies[jobs[j].sid].(state := InRecovery)];
    }

    /**
     * `quarantineInterruptedFablesJobs` at start-up: every running job and its strategy go to
     * recovery together. `rows` is the SELECT of the running jobs, in any order.
     */
    method QuarantineInterrupted(rows: seq<Jid>)
      requires Valid() && Distinct(rows) && SetOf(rows) == RunningJobs(jobs)
      modifies this
      ensures Valid() && Keeps(old(State()), State())
      ensures watch == map[] && Quarantined(old(State()), RunningJobs(old(jobs)), State())
    {
      ghost var before := State();
      for i := 0 to |rows|
        invariant State() == QuarantineAll(before, rows[..i])
      {
        QuarantineNext(before, rows, i);
        QuarantineOne(rows[i]);
      }
      assert rows[..|rows|] == rows;
      QuarantineAllMeaning(before, rows);
      watch := map[];
      QuarantinedIsCoherent(before, State());
      QuarantineKeepsJournals(before, State());
    }

    /** `resumeFablesJob`: the operator re-arms a job in recovery that has nothing unresolved, and its reverts are reviewed. */
    method Resume(id: Jid) returns (r: Result<()>)
      requires Valid()
      modifies this
      ensures Valid() && Keeps(old(State()), State())
      ensures r.Ok? <==> id in old(jobs) && old(jobs)[id].journal.state.Recovery? && J.NoneUnresolved(old(jobs)[id].journal.txs)
      ensures r.Err? ==> State() == old(State())
      ensures r.Ok? ==> jobs == WithJournal(old(State()), id, J.Step(old(jobs)[id].journal, J.Resume)).jobs && jobs[id].journal.state.Running?
    {
      if id !in jobs || !jobs[id].journal.state.Recovery? { return Err("E_FABLES_NOT_IN_RECOVERY"); }
      if exists i :: 0 <= i < |jobs[id].journal.txs| && J.Unresolved(jobs[id].journal.txs[i]) { return Err("E_FABLES_TX_UNRESOLVED"); }
      assert OpenAt(State(), id) && J.Inv(jobs[id].journal);
      J.StepKeepsInv(jobs[id].journal, J.Resume);
      r := SetProgress(id, J.Step(jobs[id].journal, J.Resume), false);
    }

    /** Closing a job and writing its strategy are one transaction. */
    method CloseRow(id: Jid, journal: J.Job, row: Strategy)
      requires Valid() && OpenAt(State(), id) && J.Inv(journal) && !J.Open(journal) && jobs[id].sid in strategies
      requires row.config == strategies[jobs[id].sid].config || !RangeTaken(strategies, jobs[id].sid, row.config)
      modifies `jobs, `strategies
      ensures Valid() && Keeps(old(State()), State())
      ensures State() == WithJournal(old(State()), id, journal).(strategies := old(strategies)[old(jobs)[id].sid := row])
    {
      ghost var before := State();
      strategies := strategies[jobs[id].sid := row];
      jobs := jobs[id := jobs[id].(journal := journal)];
      ClosingIsCoherent(before, id, journal, row);
      OneJournalSound(before, id, journal, State());
    }

    /** `failFablesJobBeforeMutation` (to paused) and `cancelFablesJobBackInRange` (to monitoring). */
    method Close(id: Jid, cancelled: bool) returns (r: Result<()>)
      requires Valid()
      modifies this
      ensures Valid() && Keeps(old(State()), State())
      ensures r.Ok? <==> id in old(jobs) && Closable(old(jobs)[id].journal, cancelled)
      ensures r.Err? ==> State() == old(State())
      ensures r.Ok? ==> jobs == WithJournal(old(State()), id, Closed(old(jobs)[id].journal, cancelled)).jobs && !OpenAt(State(), id)
      ensures r.Ok? ==> old(jobs)[id].sid in old(strategies)
      ensures r.Ok? ==> strategies == WithState(old(State()), old(jobs)[id].sid, if cancelled then Monitoring else Paused).strategies
    {
      if id !in jobs || !Closable(jobs[id].journal, cancelled) { return Err("E_FABLES_MUTATION_EXISTS"); }
      assert OpenAt(State(), id) && Owns(State(), id) && J.Inv(jobs[id].journal);
      ClosedJournal(jobs[id].journal, cancelled);
      var row := strategies[jobs[id].sid].(state := if cancelled then Monitoring else Paused);
      CloseRow(id, Closed(jobs[id].journal, cancelled), row);
      return Ok(());
    }

    /**
     * `completeFablesJob`: its comparison of revision, pool and range cannot fail, but the unique
     * index can, when another enabled strategy of the owner already sits in the new range.
     */
    method Complete(id: Jid, pool: nat, hook: nat, range: nat) returns (r: Result<()>)
      requires Valid()
      modifies this
      ensures Valid() && Keeps(old(State()), State())
      ensures r.Ok? <==>
        && id in old(jobs) && Completable(old(jobs)[id].journal)
        && !RangeTaken(old(strategies), old(jobs)[id].sid, old(jobs)[id].config.(pool := pool, hook := hook, range := range))
      ensures r.Err? ==> r.code in {"E_FABLES_JOB_STAGE", "E_FABLES_TX_UNRESOLVED", "UNIQUE"} && State() == old(State())
      ensures r.Ok? ==> jobs == WithJournal(old(State()), id, J.Step(old(jobs)[id].journal, J.Complete)).jobs
      ensures r.Ok? ==> var job := old(jobs)[id];
        strategies == old(strategies)[job.sid :=
          Strategy(job.config.(pool := pool, hook := hook, range := range, revision := job.config.revision + 1), Monitoring)]
    {
      if id !in jobs || !(jobs[id].journal.state.Running? || jobs[id].journal.state.Recovery?) || !jobs[id].journal.stage.Verify? {
        return Err("E_FABLES_JOB_STAGE");
      }
      if !J.NoneUnresolved(jobs[id].journal.txs) { return Err("E_FABLES_TX_UNRESOLVED"); }
      var job := jobs[id];
      assert J.Inv(job.journal);
      CompletedJournal(job.journal);
      assert OpenAt(State(), id) && Owns(State(), id);
      if job.sid !in strategies { return Err("E_FABLES_STRATEGY_MISSING"); }
      var current := strategies[job.sid].config;
      if current.revision != job.config.revision || current.pool != job.config.pool || current.range != job.config.range {
        return Err("E_FABLES_CONFIG_CHANGED");
      }
      var next := current.(pool := pool, hook := hook, range := range, revision := current.revision + 1);
      SameRangeIgnoresRevision(strategies, job.sid, next, current.(pool := pool, hook := hook, range := range));
      if RangeTaken(strategies, job.sid, next) { return Err("UNIQUE"); }
      CloseRow(id, J.Step(job.journal, J.Complete), Strategy(next, Monitoring));
      return Ok(());
    }

    /** `upsertFablesStrategy` never touches a strategy that is executing or in recovery, nor two enabled strategies on one range. */
    method Upsert(sid: Sid, config: Config) returns (r: Result<()>)
      requires Valid()
      modifies this
      ensures Valid() && Keeps(old(State()), State())
      ensures r.Ok? <==> !RangeTaken(old(strategies), sid, config) && if sid in old(strategies)
        then config.revision == old(strategies)[sid].config.revision + 1 && config.owner == old(strategies)[sid].config.owner
          && !Occupied(old(strategies)[sid].state)
        else config.revision == 1
      ensures r.Err? ==> State() == old(State())
      ensures r.Ok? ==> jobs == old(jobs) && strategies == old(strategies)[sid := Strategy(config, if config.enabled then Monitoring else Disabled)]
    {
      if sid in strategies {
        if config.revision != strategies[sid].config.revision + 1 { return Err("E_FABLES_REVISION_CONFLICT"); }
        if config.owner != strategies[sid].config.owner { return Err("E_FABLES_OWNER_CHANGE"); }
        if Occupied(strategies[sid].state) { return Err("E_FABLES_JOB_OPEN"); }
      } else if config.revision != 1 { return Err("E_FABLES_REVISION_CONFLICT"); }
      if RangeTaken(strategies, sid, config) { return Err("UNIQUE"); }
      ghost var before := State();
      forall j | OpenAt(before, j) ensures before.jobs[j].sid != sid { assert Owns(before, j); }
      strategies := strategies[sid := Strategy(config, if config.enabled then Monitoring else Disabled)];
      FreeStrategyIsCoherent(before, sid, strategies[sid]);
      return Ok(());
    }

    /** The monitor starts a pass: it copies the watchable strategies and works on the copy from then on. */
    method MonitorSnapshot()
      requires Valid()
      modifies `watch
      ensures Valid() && Keeps(old(State()), State())
      ensures watch == map s | s in strategies && strategies[s].config.enabled && !Occupied(strategies[s].state) && !strategies[s].state.Disabled?
        :: strategies[s].config
    {
      ghost var before := State();
      watch := map s | s in strategies && strategies[s].config.enabled && !Occupied(strategies[s].state) && !strategies[s].state.Disabled?
        :: strategies[s].config;
      forall j | OpenAt(before, j) ensures jobs[j].sid !in watch { assert Owns(before, j); }
      WatchIsCoherent(before, watch);
    }

    /**
     * `updateFablesMonitorState` after an await: an unconditional write to a strategy of the work
     * list. Jobs are only created by the monitor itself, so it never hits an open job's strategy.
     */
    method MonitorWrite(sid: Sid, state: StrategyState)
      requires Valid() && sid in watch && !Occupied(state)
      modifies `strategies
      ensures Valid() && Keeps(old(State()), State())
      ensures strategies == if sid in old(strategies) then old(strategies)[sid := old(strategies)[sid].(state := state)] else old(strategies)
    {
      if sid in strategies {
        ghost var before := State();
        strategies := strategies[sid := strategies[sid].(state := state)];
        FreeStrategyIsCoherent(before, sid, strategies[sid]);
      }
    }

    /** `upsertStrategy`: nothing is checked here, and the wallet column is overwritten. */
    method SaveOrdinary(s: nat, wallet: Option<Wallet>)
      requires Valid()
      modifies `holders
      ensures Valid() && State() == Saved(old(State()), s, wallet) && (old(Mirrored(State())) ==> Mirrored(State()))
      ensures old(Exclusive(State())) ==> (Exclusive(State()) <==> SaveIsHarmless(old(State()), s, wallet))
    {
      ghost var before := State();
      holders := holders[s := Holder(wallet, false)];
      forall j | OpenAt(State(), j) ensures OpenAt(before, j) && Owns(State(), j) { assert OpenAt(before, j) && Owns(before, j); }
      if Exclusive(before) { SaveIsHarmlessIff(before, s, wallet); }
    }

    /**
     * `createPlannedJob`, whose callers then mark the strategy busy, and `createProfitWithdrawalJob`,
     * whose callers do not. Both read the wallet of the strategy as it is now.
     */
    method CreateOrdinary(id: nat, s: nat, withdrawal: bool) returns (r: Result<bool>)
      requires Valid() && id !in ordinary
      modifies `ordinary, `holders
      ensures Valid() && Keeps(old(State()), State())
      ensures r.Ok? <==> s in old(holders) && old(holders)[s].wallet.Some?
      ensures r.Err? ==> r.code == "E_WALLET"
      ensures r.Ok? && r.value <==>
        && s in old(holders) && old(holders)[s].wallet.Some?
        && (forall o :: o in old(ordinary) && old(ordinary)[o].state.Recovering? && old(ordinary)[o].unresolved ==>
              !JoinedTo(old(State()), o, old(holders)[s].wallet.value))
        && (forall j :: old(OpenAt(State(), j)) ==> jobs[j].wallet != old(holders)[s].wallet.value)
        && (forall o :: o in old(ordinary) ==> old(ordinary)[o].strategy != s)
      ensures !(r.Ok? && r.value) ==> State() == old(State())
      ensures r.Ok? && r.value ==> ordinary == old(ordinary)[id :=
        OrdinaryJob(s, old(holders)[s].wallet.value, if withdrawal then Signing else Queued, false)]
      ensures r.Ok? && r.value ==> holders == old(holders)[s := old(holders)[s].(busy := old(holders)[s].busy || !withdrawal)]
    {
      if s !in holders || holders[s].wallet.None? { return Err("E_WALLET"); }
      var w := holders[s].wallet.value;
      if exists o :: o in ordinary && ordinary[o].state.Recovering? && ordinary[o].unresolved && JoinedTo(State(), o, w) { return Ok(false); }
      if exists j :: j in jobs && OpenAt(State(), j) && jobs[j].wallet == w { return Ok(false); }
      if exists o :: o in ordinary && ordinary[o].strategy == s { return Ok(false); }
      ghost var before := State();
      ordinary := ordinary[id := OrdinaryJob(s, w, if withdrawal then Signing else Queued, false)];
      holders := holders[s := holders[s].(busy := holders[s].busy || !withdrawal)];
      BegunIsCoherent(before, id, s, State());
      return Ok(true);
    }

    /** An ordinary job advances, fails into recovery or gets a transaction stuck. */
    method OrdinaryProgress(id: nat, state: OrdinaryState, unresolved: bool)
      requires Valid() && id in ordinary
      modifies `ordinary
      ensures Valid() && Keeps(old(State()), State()) && ordinary == old(ordinary)[id := old(ordinary)[id].(state := state, unresolved := unresolved)]
    {
      ghost var before := State();
      ordinary := ordinary[id := ordinary[id].(state := state, unresolved := unresolved)];
      SameJobsSameOwners(before, State());
      forall o | o in ordinary && Exclusive(before) ensures JoinedTo(State(), o, ordinary[o].signs) { assert JoinedTo(before, o, before.ordinary[o].signs); }
    }

    method CloseOrdinary(id: nat)
      requires Valid()
      modifies `ordinary
      ensures Valid() && Keeps(old(State()), State()) && ordinary == old(ordinary) - {id}
    {
      ghost var before := State();
      ordinary := ordinary - {id};
      SameJobsSameOwners(before, State());
      forall o | o in ordinary && Exclusive(before) ensures JoinedTo(State(), o, ordinary[o].signs) { assert JoinedTo(before, o, before.ordinary[o].signs); }
    }
  }

  lemma SameRangeIgnoresRevision(strategies: map<Sid, Strategy>, s: Sid, a: Config, b: Config)
    requires a == b.(revision := a.revision)
    ensures RangeTaken(strategies, s, a) <==> RangeTaken(strategies, s, b)
  {
    forall t | t in strategies ensures SameRange(strategies[t].config, a) <==> SameRange(strategies[t].config, b) { }
  }

  lemma SameJobsSameOwners(d: Db, after: Db)
    requires Coherent(d) && after.jobs == d.jobs && after.strategies == d.strategies && after.watch == d.watch
    ensures forall j :: OpenAt(after, j) ==> OpenAt(d, j) && Owns(after, j)
    ensures Mirrored(d) ==> Mirrored(after)
  {
    forall j | OpenAt(after, j) ensures OpenAt(d, j) && Owns(after, j) { assert OpenAt(d, j) && Owns(d, j); }
  }

  /** An ordinary job begun on its strategy's wallet keeps the wallets exclusive. */
  lemma BegunIsCoherent(d: Db, id: nat, s: nat, after: Db)
    requires Coherent(d) && id !in d.ordinary && s in d.holders && d.holders[s].wallet.Some?
    requires forall j :: OpenAt(d, j) ==> d.jobs[j].wallet != d.holders[s].wallet.value
    requires forall o :: o in d.ordinary ==> d.ordinary[o].strategy != s
    requires after.jobs == d.jobs && after.strategies == d.strategies && after.watch == d.watch
    requires after.holders.Keys == d.holders.Keys && forall h :: h in d.holders ==> after.holders[h].wallet == d.holders[h].wallet
    requires exists o: OrdinaryJob :: after.ordinary == d.ordinary[id := o] && o.strategy == s && o.signs == d.holders[s].wallet.value
    ensures Keeps(d, after)
  {
    SameJobsSameOwners(d, after);
    forall o | o in after.ordinary && Exclusive(d) ensures JoinedTo(after, o, after.ordinary[o].signs) {
      if o != id { assert JoinedTo(d, o, d.ordinary[o].signs); }
    }
  }

  /**
   * What coherence gives in every reachable state: an open job's strategy is executing or in
   * recovery with the job's own configuration, at most one open Fables job is on a wallet, and,
   * as long as every save was harmless, no ordinary job signs with that wallet.
   */
  lemma CoherenceMeaning(d: Db, j: Jid)
    requires Coherent(d) && OpenAt(d, j)
    ensures d.jobs[j].sid in d.strategies && d.strategies[d.jobs[j].sid].config == d.jobs[j].config
    ensures d.strategies[d.jobs[j].sid].state in {Executing, InRecovery}
    ensures forall i :: OpenAt(d, i) && d.jobs[i].wallet == d.jobs[j].wallet ==> i == j
    ensures Exclusive(d) ==> forall o :: o in d.ordinary ==> d.ordinary[o].signs != d.jobs[j].wallet
  {
    assert Owns(d, j);
  }

  /** The two progress writes are not atomic: a crash between them leaves a job in recovery on a strategy still marked executing. */
  lemma TornProgressIsObservable(config: Config)
    requires config.wallet == Some(7)
    ensures var d := Db(map[1 := Strategy(config, Executing)], map[5 := Job(1, 7, config, J.CREATED.(state := J.Running))], map[], map[], map[]);
      var torn := WithJournal(d, 5, J.CREATED.(state := J.Recovery));
      Coherent(d) && Mirrored(d) && Coherent(torn) && !Mirrored(torn)
  {
    var d := Db(map[1 := Strategy(config, Executing)], map[5 := Job(1, 7, config, J.CREATED.(state := J.Running))], map[], map[], map[]);
    var torn := WithJournal(d, 5, J.CREATED.(state := J.Recovery));
    assert OpenAt(d, 5) && OpenAt(torn, 5);
    TornIffStateChanged(d, 5, J.CREATED.(state := J.Recovery));
  }
}
