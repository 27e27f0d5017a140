/** What each strategy owns in a shared wallet: the allocation tables of executor/store.ts. */
module Allocations {
  import opened Basics

  type Sid = nat
  type Wallet = nat

  datatype Component = Component(principal: int, heldFee: int, heldProfit: int)

  function Sum(c: Component): int {
    c.principal + c.heldFee + c.heldProfit
  }

  predicate NonNegative(c: Component) {
    c.principal >= 0 && c.heldFee >= 0 && c.heldProfit >= 0
  }

  const NOTHING := Component(0, 0, 0)

  datatype Row = Row(sid: Sid, token: Token, amount: int)

  /** `wallets` gives each strategy that is not archived its wallet. */
  datatype Tables = Tables(wallets: map<Sid, Wallet>, rows: seq<Row>, components: map<(Sid, Token), Component>)

  predicate Live(wallets: map<Sid, Wallet>, wallet: Wallet, sid: Sid) {
    sid in wallets && wallets[sid] == wallet
  }

  predicate UniqueRows(rows: seq<Row>) {
    forall i, j :: 0 <= i < j < |rows| ==> rows[i].sid != rows[j].sid || rows[i].token != rows[j].token
  }

  /** What every write keeps: one row per strategy and token, nothing negative. */
  predicate Valid(t: Tables) {
    && UniqueRows(t.rows)
    && (forall i :: 0 <= i < |t.rows| ==> t.rows[i].amount >= 0)
    && (forall k :: k in t.components ==> NonNegative(t.components[k]))
  }

  predicate HasKey(r: Row, sid: Sid, token: Token) {
    r.sid == sid && r.token == token
  }

  function IndexOf(rows: seq<Row>, sid: Sid, token: Token): (r: Option<nat>)
    ensures r.None? <==> forall i :: 0 <= i < |rows| ==> !HasKey(rows[i], sid, token)
    ensures r.Some? ==> r.value < |rows| && HasKey(rows[r.value], sid, token)
  {
    if rows == [] then None
    else if HasKey(rows[|rows| - 1], sid, token) then Some(|rows| - 1)
    else IndexOf(rows[..|rows| - 1], sid, token)
  }

  /** The stored total of one strategy and token, zero when there is no row. */
  function Stored(rows: seq<Row>, sid: Sid, token: Token): int {
    var i := IndexOf(rows, sid, token);
    if i.Some? then rows[i.value].amount else 0
  }

  /** INSERT … ON CONFLICT DO UPDATE on the allocations table. */
  function Upsert(rows: seq<Row>, sid: Sid, token: Token, amount: int): seq<Row> {
    var i := IndexOf(rows, sid, token);
    if i.Some? then rows[i.value := Row(sid, token, amount)] else rows + [Row(sid, token, amount)]
  }

  /** The sum of one token over the wallet's strategies that are not archived. */
  function LiveTotal(wallets: map<Sid, Wallet>, wallet: Wallet, rows: seq<Row>, token: Token): int {
    if rows == [] then 0
    else
      var last := rows[|rows| - 1];
      LiveTotal(wallets, wallet, rows[..|rows| - 1], token)
      + if last.token == token && Live(wallets, wallet, last.sid) then last.amount else 0
  }

  // ---- The component view ----

  /** `strategyAllocationComponents`: the stored split when it is sane, else everything counts as held. */
  function View(t: Tables, sid: Sid, token: Token): Component {
    var total := Stored(t.rows, sid, token);
    if (sid, token) in t.components && NonNegative(t.components[(sid, token)]) && Sum(t.components[(sid, token)]) == total
    then t.components[(sid, token)] else Component(0, total, 0)
  }

  /** The view recomputed inside the write transaction, which does not repeat the sign test. */
  function RecheckedView(t: Tables, sid: Sid, token: Token): Component {
    var total := Stored(t.rows, sid, token);
    if (sid, token) in t.components && Sum(t.components[(sid, token)]) == total
    then t.components[(sid, token)] else Component(0, total, 0)
  }

  /** The view is nonnegative, adds up to the stored total, and both checks compute the same one. */
  lemma ViewsAgree(t: Tables, sid: Sid, token: Token)
    requires Valid(t)
    ensures NonNegative(View(t, sid, token)) && Sum(View(t, sid, token)) == Stored(t.rows, sid, token)
    ensures RecheckedView(t, sid, token) == View(t, sid, token)
  {
  }

  // ---- Writing one row ----

  lemma UpsertKeepsKeysUnique(rows: seq<Row>, sid: Sid, token: Token, amount: int)
    requires UniqueRows(rows)
    ensures UniqueRows(Upsert(rows, sid, token, amount))
  {
    var after := Upsert(rows, sid, token, amount);
    forall i, j | 0 <= i < j < |after| ensures after[i].sid != after[j].sid || after[i].token != after[j].token {
      if IndexOf(rows, sid, token).None? && j == |rows| {
        assert !HasKey(rows[i], sid, token);
      }
    }
  }

  /** An upsert changes the stored total of its own key and of no other. */
  lemma StoredAfterUpsert(rows: seq<Row>, sid: Sid, token: Token, amount: int, sid2: Sid, token2: Token)
    requires UniqueRows(rows)
    ensures Stored(Upsert(rows, sid, token, amount), sid2, token2)
      == if sid2 == sid && token2 == token then amount else Stored(rows, sid2, token2)
  {
    var after := Upsert(rows, sid, token, amount);
    UpsertKeepsKeysUnique(rows, sid, token, amount);
    var i, j := IndexOf(rows, sid2, token2), IndexOf(after, sid2, token2);
    if i.Some? {
      assert HasKey(after[i.value], sid2, token2);
      assert j.value == i.value;
    } else if sid2 == sid && token2 == token {
      assert HasKey(after[|rows|], sid2, token2);
    } else {
      assert forall k :: 0 <= k < |rows| ==> !HasKey(rows[k], sid2, token2);
    }
  }

  function Contribution(wallets: map<Sid, Wallet>, wallet: Wallet, r: Row, token: Token): int {
    if r.token == token && Live(wallets, wallet, r.sid) then r.amount else 0
  }

  lemma {:induction false} TotalAfterReplace(wallets: map<Sid, Wallet>, wallet: Wallet, rows: seq<Row>, i: nat, row: Row, token: Token)
    requires i < |rows|
    ensures LiveTotal(wallets, wallet, rows[i := row], token)
      == LiveTotal(wallets, wallet, rows, token) - Contribution(wallets, wallet, rows[i], token) + Contribution(wallets, wallet, row, token)
  {
    var n := |rows| - 1;
    if i == n {
      assert rows[i := row][..n] == rows[..n];
    } else {
      assert rows[i := row][..n] == rows[..n][i := row];
      TotalAfterReplace(wallets, wallet, rows[..n], i, row, token);
    }
  }

  /** The wallet's total after an upsert, recomputed from scratch. */
  lemma TotalAfterUpsert(wallets: map<Sid, Wallet>, wallet: Wallet, rows: seq<Row>, sid: Sid, token: Token, amount: int, token2: Token)
    ensures LiveTotal(wallets, wallet, Upsert(rows, sid, token, amount), token2)
      == LiveTotal(wallets, wallet, rows, token2)
         + if token2 == token && Live(wallets, wallet, sid) then amount - Stored(rows, sid, token) else 0
  {
    var i := IndexOf(rows, sid, token);
    if i.Some? {
      TotalAfterReplace(wallets, wallet, rows, i.value, Row(sid, token, amount), token2);
    } else {
      assert (rows + [Row(sid, token, amount)])[..|rows|] == rows;
    }
  }

  function UpsertAll(rows: seq<Row>, sid: Sid, next: seq<(Token, int)>): seq<Row> {
    if next == [] then rows else Upsert(UpsertAll(rows, sid, next[..|next| - 1]), sid, next[|next| - 1].0, next[|next| - 1].1)
  }

  /** The entries of a JavaScript record: each key occurs once. */
  predicate DistinctKeys<T>(entries: seq<(Token, T)>) {
    forall i, j :: 0 <= i < j < |entries| ==> entries[i].0 != entries[j].0
  }

  lemma {:induction false} UpsertAllEffect(wallets: map<Sid, Wallet>, wallet: Wallet, rows: seq<Row>, sid: Sid, next: seq<(Token, int)>)
    requires UniqueRows(rows) && DistinctKeys(next)
    ensures UniqueRows(UpsertAll(rows, sid, next))
    ensures forall k :: 0 <= k < |next| ==> Stored(UpsertAll(rows, sid, next), sid, next[k].0) == next[k].1
    ensures forall s, t :: (s != sid || forall k :: 0 <= k < |next| ==> next[k].0 != t) ==>
      Stored(UpsertAll(rows, sid, next), s, t) == Stored(rows, s, t)
    ensures forall k :: 0 <= k < |next| ==>
      LiveTotal(wallets, wallet, UpsertAll(rows, sid, next), next[k].0)
        == LiveTotal(wallets, wallet, rows, next[k].0) + if Live(wallets, wallet, sid) then next[k].1 - Stored(rows, sid, next[k].0) else 0
    ensures forall t :: (forall k :: 0 <= k < |next| ==> next[k].0 != t) ==>
      LiveTotal(wallets, wallet, UpsertAll(rows, sid, next), t) == LiveTotal(wallets, wallet, rows, t)
  {
    if next != [] {
      var n := |next| - 1;
      var before := UpsertAll(rows, sid, next[..n]);
      UpsertAllEffect(wallets, wallet, rows, sid, next[..n]);
      UpsertKeepsKeysUnique(before, sid, next[n].0, next[n].1);
      forall s, t ensures Stored(UpsertAll(rows, sid, next), s, t) == if s == sid && t == next[n].0 then next[n].1 else Stored(before, s, t) {
        StoredAfterUpsert(before, sid, next[n].0, next[n].1, s, t);
      }
      forall t ensures LiveTotal(wallets, wallet, UpsertAll(rows, sid, next), t)
        == LiveTotal(wallets, wallet, before, t) + if t == next[n].0 && Live(wallets, wallet, sid) then next[n].1 - Stored(before, sid, next[n].0) else 0
      {
        TotalAfterUpsert(wallets, wallet, before, sid, next[n].0, next[n].1, t);
      }
      assert forall k :: 0 <= k < n ==> next[..n][k] == next[k];
    }
  }

  lemma {:induction false} SoloTotal(wallet: Wallet, rows: seq<Row>, sid: Sid, token: Token)
    requires UniqueRows(rows)
    ensures LiveTotal(map[sid := wallet], wallet, rows, token) == Stored(rows, sid, token)
  {
    if rows != [] {
      var n := |rows| - 1;
      SoloTotal(wallet, rows[..n], sid, token);
      if HasKey(rows[n], sid, token) {
        assert forall i :: 0 <= i < n ==> !HasKey(rows[..n][i], sid, token);
      }
    }
  }

  function Get(m: map<Token, int>, t: Token): int {
    if t in m then m[t] else 0
  }

  /** The wallet total that an update of one token would leave, as the update check computes it. */
  function UpdatedTotal(t: Tables, wallet: Wallet, sid: Sid, token: Token, amount: int): int {
    LiveTotal(t.wallets, wallet, t.rows, token) - (if Live(t.wallets, wallet, sid) then Stored(t.rows, sid, token) else 0) + amount
  }

  predicate UpdateCovered(t: Tables, wallet: Wallet, sid: Sid, balances: map<Token, int>, next: seq<(Token, int)>) {
    forall k :: 0 <= k < |next| ==> 0 <= UpdatedTotal(t, wallet, sid, next[k].0, next[k].1) <= Get(balances, next[k].0)
  }

  /** `assertWalletAllocations`: every token some live strategy owns is covered by the wallet. */
  predicate WalletCovered(t: Tables, wallet: Wallet, balances: map<Token, int>) {
    forall i :: 0 <= i < |t.rows| && Live(t.wallets, wallet, t.rows[i].sid) ==>
      LiveTotal(t.wallets, wallet, t.rows, t.rows[i].token) <= Get(balances, t.rows[i].token)
  }

  /**
   * For a strategy that is live in the wallet, the incremental total of the update check is
   * the total one would recompute after the write; for any other strategy the two differ by
   * the whole amount, so they agree exactly when nothing is allocated.
   */
  lemma IncrementalTotalIsRecomputed(t: Tables, wallet: Wallet, sid: Sid, next: seq<(Token, int)>, k: nat)
    requires Valid(t) && DistinctKeys(next) && k < |next|
    ensures var recomputed := LiveTotal(t.wallets, wallet, UpsertAll(t.rows, sid, next), next[k].0);
      (UpdatedTotal(t, wallet, sid, next[k].0, next[k].1) == recomputed) <==> (Live(t.wallets, wallet, sid) || next[k].1 == 0)
  {
    UpsertAllEffect(t.wallets, wallet, t.rows, sid, next);
  }

  method AssertWalletAllocations(t: Tables, wallet: Wallet, balances: map<Token, int>) returns (r: Result<()>)
    ensures r.Ok? <==> WalletCovered(t, wallet, balances)
    ensures r.Err? ==> r.code == "E_ALLOCATION_MISMATCH"
  {
    var totals: map<Token, int> := map[];
    for i := 0 to |t.rows|
      invariant forall k :: 0 <= k < i && Live(t.wallets, wallet, t.rows[k].sid) ==> t.rows[k].token in totals
      invariant forall k :: k in totals ==> exists j :: 0 <= j < i && Live(t.wallets, wallet, t.rows[j].sid) && t.rows[j].token == k
      invariant forall k :: Get(totals, k) == LiveTotal(t.wallets, wallet, t.rows[..i], k)
    {
      assert t.rows[..i + 1][..i] == t.rows[..i];
      if Live(t.wallets, wallet, t.rows[i].sid) {
        totals := totals[t.rows[i].token := Get(totals, t.rows[i].token) + t.rows[i].amount];
      }
    }
    assert t.rows[..|t.rows|] == t.rows;
    if exists k :: k in totals && totals[k] > Get(balances, k) { return Err("E_ALLOCATION_MISMATCH"); }
    return Ok(());
  }

  method AssertWalletAllocationUpdate(t: Tables, wallet: Wallet, sid: Sid, balances: map<Token, int>, next: seq<(Token, int)>)
    returns (r: Result<()>)
    requires UniqueRows(t.rows) && DistinctKeys(next)
    ensures r.Ok? <==> UpdateCovered(t, wallet, sid, balances, next)
    ensures r.Err? ==> r.code == "E_ALLOCATION_MISMATCH"
  {
    var totals: map<Token, int>, current: map<Token, int> := map[], map[];
    ghost var solo := if Live(t.wallets, wallet, sid) then map[sid := wallet] else map[];
    for i := 0 to |t.rows|
      invariant forall k :: Get(totals, k) == LiveTotal(t.wallets, wallet, t.rows[..i], k)
      invariant forall k :: Get(current, k) == LiveTotal(solo, wallet, t.rows[..i], k)
    {
      assert t.rows[..i + 1][..i] == t.rows[..i];
      var row := t.rows[i];
      if Live(t.wallets, wallet, row.sid) {
        totals := totals[row.token := Get(totals, row.token) + row.amount];
        if row.sid == sid { current := current[row.token := Get(current, row.token) + row.amount]; }
      }
    }
    assert t.rows[..|t.rows|] == t.rows;
    forall k ensures Get(current, k) == if Live(t.wallets, wallet, sid) then Stored(t.rows, sid, k) else 0 {
      SoloTotal(wallet, t.rows, sid, k);
      NobodyOwnsNothing(wallet, t.rows, k);
    }
    ghost var before := totals;
    for i := 0 to |next|
      invariant forall k :: 0 <= k < i ==> Get(totals, next[k].0) == UpdatedTotal(t, wallet, sid, next[k].0, next[k].1)
      invariant forall x :: (forall k :: 0 <= k < i ==> next[k].0 != x) ==> Get(totals, x) == Get(before, x)
    {
      totals := totals[next[i].0 := Get(totals, next[i].0) - Get(current, next[i].0) + next[i].1];
    }
    for i := 0 to |next|
      invariant forall k :: 0 <= k < i ==> 0 <= Get(totals, next[k].0) <= Get(balances, next[k].0)
    {
      var total := Get(totals, next[i].0);
      if total < 0 || total > Get(balances, next[i].0) { return Err("E_ALLOCATION_MISMATCH"); }
    }
    return Ok(());
  }

  lemma {:induction false} NobodyOwnsNothing(wallet: Wallet, rows: seq<Row>, token: Token)
    ensures LiveTotal(map[], wallet, rows, token) == 0
  {
    if rows != [] { NobodyOwnsNothing(wallet, rows[..|rows| - 1], token); }
  }

  // ---- The store ----

  function TotalsOf(next: seq<(Token, Component)>): seq<(Token, int)> {
    seq(|next|, i requires 0 <= i < |next| => (next[i].0, Sum(next[i].1)))
  }

  function PutComponents(components: map<(Sid, Token), Component>, sid: Sid, next: seq<(Token, Component)>): map<(Sid, Token), Component> {
    if next == [] then components
    else PutComponents(components, sid, next[..|next| - 1])[(sid, next[|next| - 1].0) := next[|next| - 1].1]
  }

  lemma {:induction false} PutComponentsAt(components: map<(Sid, Token), Component>, sid: Sid, next: seq<(Token, Component)>)
    requires DistinctKeys(next)
    ensures forall k :: 0 <= k < |next| ==>
      (sid, next[k].0) in PutComponents(components, sid, next) && PutComponents(components, sid, next)[(sid, next[k].0)] == next[k].1
    ensures forall s, t :: (s != sid || forall k :: 0 <= k < |next| ==> next[k].0 != t) ==>
      ((s, t) in PutComponents(components, sid, next) <==> (s, t) in components)
      && ((s, t) in components ==> PutComponents(components, sid, next)[(s, t)] == components[(s, t)])
  {
    if next != [] { PutComponentsAt(components, sid, next[..|next| - 1]); }
  }

  /** The tables after an atomic write of one strategy's tokens, totals and split together. */
  function Written(t: Tables, sid: Sid, next: seq<(Token, Component)>): Tables {
    t.(rows := UpsertAll(t.rows, sid, TotalsOf(next)), components := PutComponents(t.components, sid, next))
  }

  /** A write of nonnegative components is seen exactly as written, and nothing else moves. */
  lemma WriteIsSeen(t: Tables, sid: Sid, next: seq<(Token, Component)>)
    requires Valid(t) && DistinctKeys(next) && forall k :: 0 <= k < |next| ==> NonNegative(next[k].1)
    ensures Valid(Written(t, sid, next))
    ensures forall k :: 0 <= k < |next| ==> View(Written(t, sid, next), sid, next[k].0) == next[k].1
    ensures forall s, x :: (s != sid || forall k :: 0 <= k < |next| ==> next[k].0 != x) ==>
      View(Written(t, sid, next), s, x) == View(t, s, x)
  {
    var totals := TotalsOf(next);
    var after := Written(t, sid, next);
    UpsertAllEffect(t.wallets, 0, t.rows, sid, totals);
    PutComponentsAt(t.components, sid, next);
    forall k | 0 <= k < |next| ensures View(after, sid, next[k].0) == next[k].1 {
      assert totals[k] == (next[k].0, Sum(next[k].1));
    }
    UpsertAllNonNegative(t.rows, sid, totals);
    forall key | key in after.components ensures NonNegative(after.components[key]) {
      if k :| 0 <= k < |next| && key == (sid, next[k].0) { } else { assert key.0 != sid || forall k :: 0 <= k < |next| ==> next[k].0 != key.1; }
    }
    forall s, x | s != sid || forall k :: 0 <= k < |next| ==> next[k].0 != x
      ensures View(after, s, x) == View(t, s, x)
    {
      assert s != sid || forall k :: 0 <= k < |totals| ==> totals[k].0 != x;
    }
  }

  lemma {:induction false} UpsertAllNonNegative(rows: seq<Row>, sid: Sid, next: seq<(Token, int)>)
    requires forall i :: 0 <= i < |rows| ==> rows[i].amount >= 0
    requires forall k :: 0 <= k < |next| ==> next[k].1 >= 0
    ensures forall i :: 0 <= i < |UpsertAll(rows, sid, next)| ==> UpsertAll(rows, sid, next)[i].amount >= 0
  {
    if next != [] { UpsertAllNonNegative(rows, sid, next[..|next| - 1]); }
  }

  // ---- Compounding ----

  function Compounded(t: Tables, sid: Sid): Tables {
    t.(components := map k | k in t.components ::
      if k.0 == sid then Component(t.components[k].principal + t.components[k].heldFee, 0, t.components[k].heldProfit)
      else t.components[k])
  }

  /**
   * Compounding turns classified held fees into principal and nothing else: totals and
   * profit stay, and a balance the view could not classify is still not deployable.
   */
  lemma CompoundingKeepsTotals(t: Tables, sid: Sid, s: Sid, token: Token)
    requires Valid(t)
    ensures Valid(Compounded(t, sid))
    ensures Sum(View(Compounded(t, sid), s, token)) == Sum(View(t, s, token))
    ensures View(Compounded(t, sid), s, token).heldProfit == View(t, s, token).heldProfit
    ensures var classified := (s, token) in t.components && Sum(t.components[(s, token)]) == Stored(t.rows, s, token);
      View(Compounded(t, sid), s, token).principal
        == View(t, s, token).principal + if s == sid && classified then View(t, s, token).heldFee else 0
  {
  }

  class AllocationStore {
    var wallets: map<Sid, Wallet>
    var rows: seq<Row>
    var components: map<(Sid, Token), Component>

    function State(): Tables
      reads this
    {
      Tables(wallets, rows, components)
    }

    constructor (wallets: map<Sid, Wallet>)
      ensures Valid(State()) && State() == Tables(wallets, [], map[])
    {
      this.wallets, rows, components := wallets, [], map[];
    }

    method CompoundHeld(sid: Sid)
      requires Valid(State())
      modifies this
      ensures State() == Compounded(old(State()), sid) && Valid(State())
    {
      ghost var before := State();
      var keys := set k | k in components && k.0 == sid;
      while keys != {}
        invariant wallets == before.wallets && rows == before.rows && components.Keys == before.components.Keys
        invariant keys <= before.components.Keys && forall k :: k in keys ==> k.0 == sid
        invariant forall k :: k in before.components ==>
          components[k] == if k.0 == sid && k !in keys then Compounded(before, sid).components[k] else before.components[k]
      {
        var k :| k in keys;
        var c := components[k];
        components := components[k := Component(c.principal + c.heldFee, 0, c.heldProfit)];
        keys := keys - {k};
      }
      assert components == Compounded(before, sid).components;
    }

    /** The allocation part of `commitRebalance` and `commitFeeCollection`: all tokens or none. */
    method CommitComponents(sid: Sid, next: seq<(Token, Component)>) returns (r: Result<()>)
      requires Valid(State()) && DistinctKeys(next)
      modifies this
      ensures Valid(State())
      ensures r.Ok? <==> forall k :: 0 <= k < |next| ==> NonNegative(next[k].1)
      ensures State() == if r.Ok? then Written(old(State()), sid, next) else old(State())
    {
      ghost var before := State();
      for i := 0 to |next|
        invariant forall k :: 0 <= k < i ==> NonNegative(next[k].1)
        invariant State() == before
      {
        if next[i].1.principal < 0 || next[i].1.heldFee < 0 || next[i].1.heldProfit < 0 { return Err("E_ALLOCATION_MISMATCH"); }
      }
      WriteIsSeen(before, sid, next);
      rows := UpsertAll(rows, sid, TotalsOf(next));
      components := PutComponents(components, sid, next);
      return Ok(());
    }

    /**
     * `commitProfitAllocationMutation`: a compare-and-set on the component view. It applies
     * exactly when every expected component is the current one, the new ones are nonnegative
     * and the wallet covers the result; otherwise nothing changes.
     */
    method CommitProfitMutation(sid: Sid, wallet: Wallet, expected: seq<(Token, Component)>, next: seq<(Token, Component)>,
                                balances: map<Token, int>)
      returns (r: Result<()>)
      requires Valid(State()) && DistinctKeys(next)
      modifies this
      ensures Valid(State())
      ensures r.Ok? <==>
        && (forall k :: 0 <= k < |expected| ==> View(old(State()), sid, expected[k].0) == expected[k].1)
        && (forall k :: 0 <= k < |next| ==> NonNegative(next[k].1))
        && UpdateCovered(old(State()), wallet, sid, balances, TotalsOf(next))
      ensures State() == if r.Ok? then Written(old(State()), sid, next) else old(State())
      ensures r == Err("E_ALLOCATION_CHANGED") <==>
        exists k :: 0 <= k < |expected| && View(old(State()), sid, expected[k].0) != expected[k].1
    {
      ghost var before := State();
      for i := 0 to |expected|
        invariant State() == before
        invariant forall k :: 0 <= k < i ==> View(before, sid, expected[k].0) == expected[k].1
      {
        if View(State(), sid, expected[i].0) != expected[i].1 { return Err("E_ALLOCATION_CHANGED"); }
      }
      for i := 0 to |next|
        invariant State() == before && forall k :: 0 <= k < i ==> NonNegative(next[k].1)
      {
        if next[i].1.principal < 0 || next[i].1.heldFee < 0 || next[i].1.heldProfit < 0 { return Err("E_ALLOCATION_MISMATCH"); }
      }
      var covered := AssertWalletAllocationUpdate(State(), wallet, sid, balances, TotalsOf(next));
      if covered.Err? { return Err(covered.code); }
      for i := 0 to |expected|
        invariant State() == before
      {
        ViewsAgree(before, sid, expected[i].0);
        if RecheckedView(State(), sid, expected[i].0) != expected[i].1 { return Err("E_ALLOCATION_CHANGED"); }
      }
      var written := CommitComponents(sid, next);
      return written;
    }
  }
}
