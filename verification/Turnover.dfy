/**
 * Daily turnover reservations: `reserveDailyTurnover` and its companions in executor/store.ts
 * and the Fables twin in executor/fablesJobs.ts. A reservation's key fixes its group: an
 * ordinary job and token give wallet, token and strategy; a Fables job gives wallet and token.
 */
module Turnover {
  import opened Basics

  /** (job, quote token) for ordinary jobs, (job, ordinal) for Fables jobs. */
  type Key = (nat, nat)
  type Group = nat
  type Grouping = Key -> Group

  datatype ResState = Reserved | Confirmed | Released

  datatype Res = Res(key: Key, day: int, amount: int, state: ResState)

  predicate Counts(group: Grouping, r: Res, g: Group, day: int) {
    group(r.key) == g && r.day == day && !r.state.Released?
  }

  /** Reserved plus confirmed turnover of one group on one UTC day. */
  function Used(group: Grouping, rows: seq<Res>, g: Group, day: int): int {
    if rows == [] then 0
    else
      var last := rows[|rows| - 1];
      Used(group, rows[..|rows| - 1], g, day) + if Counts(group, last, g, day) then last.amount else 0
  }

  predicate UniqueKeys(rows: seq<Res>) {
    forall i, j :: 0 <= i < j < |rows| ==> rows[i].key != rows[j].key
  }

  predicate Valid(rows: seq<Res>) {
    UniqueKeys(rows) && forall i :: 0 <= i < |rows| ==> rows[i].amount >= 0
  }

  /** The bound everything below is about: no group exceeds the limit on any day. */
  ghost predicate Within(group: Grouping, rows: seq<Res>, limit: int) {
    forall g, day :: Used(group, rows, g, day) <= limit
  }

  function IndexOf(rows: seq<Res>, key: Key): (r: Option<nat>)
    ensures r.None? <==> forall i :: 0 <= i < |rows| ==> rows[i].key != key
    ensures r.Some? ==> r.value < |rows| && rows[r.value].key == key
  {
    if rows == [] then None
    else if rows[|rows| - 1].key == key then Some(|rows| - 1)
    else IndexOf(rows[..|rows| - 1], key)
  }

  function Weight(group: Grouping, r: Res, g: Group, day: int): int {
    if Counts(group, r, g, day) then r.amount else 0
  }

  lemma {:induction false} UsedAfterReplace(group: Grouping, rows: seq<Res>, i: nat, row: Res, g: Group, day: int)
    requires i < |rows|
    ensures Used(group, rows[i := row], g, day) == Used(group, rows, g, day) - Weight(group, rows[i], g, day) + Weight(group, row, g, day)
  {
    var n := |rows| - 1;
    if i == n {
      assert rows[i := row][..n] == rows[..n];
    } else {
      assert rows[i := row][..n] == rows[..n][i := row];
      UsedAfterReplace(group, rows[..n], i, row, g, day);
    }
  }

  lemma UsedAfterAppend(group: Grouping, rows: seq<Res>, row: Res, g: Group, day: int)
    ensures Used(group, rows + [row], g, day) == Used(group, rows, g, day) + Weight(group, row, g, day)
  {
    assert (rows + [row])[..|rows|] == rows;
  }

  /** What the others in the key's group use on a day. */
  function UsedByOthers(group: Grouping, rows: seq<Res>, key: Key, day: int): int {
    var i := IndexOf(rows, key);
    Used(group, rows, group(key), day) - if i.Some? then Weight(group, rows[i.value], group(key), day) else 0
  }

  /** Writes one reservation row: the existing row of the key, or a new one. */
  function Put(rows: seq<Res>, row: Res): seq<Res> {
    var i := IndexOf(rows, row.key);
    if i.Some? then rows[i.value := row] else rows + [row]
  }

  /** A write whose own group still fits leaves every group within the limit. */
  lemma PutWithin(group: Grouping, rows: seq<Res>, row: Res, limit: int)
    requires Valid(rows) && Within(group, rows, limit) && row.amount >= 0
    requires !row.state.Released? ==> UsedByOthers(group, rows, row.key, row.day) + row.amount <= limit
    ensures Valid(Put(rows, row)) && Within(group, Put(rows, row), limit)
  {
    var i := IndexOf(rows, row.key);
    forall g, day ensures Used(group, Put(rows, row), g, day) <= limit {
      if i.Some? {
        UsedAfterReplace(group, rows, i.value, row, g, day);
      } else {
        UsedAfterAppend(group, rows, row, g, day);
      }
      assert Used(group, rows, g, day) <= limit;
    }
  }

  // ---- Ordinary jobs ----

  /**
   * `reserveDailyTurnover`. A zero amount is ignored; a confirmed reservation may only be
   * repeated identically; an unfinished one is re-checked against today's other usage and
   * moved to today; a released one is final.
   */
  function ReserveDaily(group: Grouping, rows: seq<Res>, key: Key, day: int, amount: int, limit: int): Result<seq<Res>> {
    if amount < 0 || limit < 0 then Err("E_DAILY_LIMIT")
    else if amount == 0 then Ok(rows)
    else
      var i := IndexOf(rows, key);
      if i.Some? && rows[i.value].state.Released? then Err("E_DAILY_LIMIT")
      else if i.Some? && rows[i.value].state.Confirmed? then
        if rows[i.value].day != day || rows[i.value].amount != amount then Err("E_DAILY_LIMIT") else Ok(rows)
      else if UsedByOthers(group, rows, key, day) + amount > limit then Err("E_DAILY_LIMIT")
      else Ok(Put(rows, Res(key, day, amount, Reserved)))
  }

  /** `confirmDailyTurnover` and `releaseDailyTurnover` touch reserved rows of the job only. */
  function Settle(rows: seq<Res>, job: nat, state: ResState): (r: seq<Res>)
    ensures |r| == |rows|
  {
    seq(|rows|, i requires 0 <= i < |rows| =>
      if rows[i].key.0 == job && rows[i].state.Reserved? then rows[i].(state := state) else rows[i])
  }

  lemma {:induction false} SettleNeverAdds(group: Grouping, rows: seq<Res>, job: nat, state: ResState, g: Group, day: int)
    requires Valid(rows)
    ensures Used(group, Settle(rows, job, state), g, day) <= Used(group, rows, g, day)
  {
    if rows != [] {
      var n := |rows| - 1;
      assert Settle(rows, job, state)[..n] == Settle(rows[..n], job, state);
      SettleNeverAdds(group, rows[..n], job, state, g, day);
    }
  }

  datatype DailyEvent = Reserve(key: Key, day: int, amount: int) | Confirm(job: nat) | Release(job: nat)

  function DailyStep(group: Grouping, rows: seq<Res>, limit: int, e: DailyEvent): seq<Res> {
    match e
    case Reserve(key, day, amount) =>
      var r := ReserveDaily(group, rows, key, day, amount, limit);
      if r.Ok? then r.value else rows
    case Confirm(job) => Settle(rows, job, Confirmed)
    case Release(job) => Settle(rows, job, Released)
  }

  function DailyRun(group: Grouping, limit: int, events: seq<DailyEvent>): seq<Res> {
    if events == [] then [] else DailyStep(group, DailyRun(group, limit, events[..|events| - 1]), limit, events[|events| - 1])
  }

  /** After any reservations, re-reservations, moves across midnight, confirmations and releases, every day is within the limit. */
  lemma {:induction false} DailyLimitHolds(group: Grouping, limit: int, events: seq<DailyEvent>)
    requires limit >= 0
    ensures Valid(DailyRun(group, limit, events)) && Within(group, DailyRun(group, limit, events), limit)
  {
    if events == [] {
    } else {
      var n := |events| - 1;
      var rows := DailyRun(group, limit, events[..n]);
      DailyLimitHolds(group, limit, events[..n]);
      DailyStepHolds(group, rows, limit, events[n]);
    }
  }

  lemma DailyStepHolds(group: Grouping, rows: seq<Res>, limit: int, e: DailyEvent)
    requires limit >= 0 && Valid(rows) && Within(group, rows, limit)
    ensures Valid(DailyStep(group, rows, limit, e)) && Within(group, DailyStep(group, rows, limit, e), limit)
  {
    match e
    case Reserve(key, day, amount) =>
      if amount > 0 && UsedByOthers(group, rows, key, day) + amount <= limit {
        PutWithin(group, rows, Res(key, day, amount, Reserved), limit);
      }
    case Confirm(job) =>
      forall g, day ensures Used(group, Settle(rows, job, Confirmed), g, day) <= limit {
        SettleNeverAdds(group, rows, job, Confirmed, g, day);
        assert Used(group, rows, g, day) <= limit;
      }
    case Release(job) =>
      forall g, day ensures Used(group, Settle(rows, job, Released), g, day) <= limit {
        SettleNeverAdds(group, rows, job, Released, g, day);
        assert Used(group, rows, g, day) <= limit;
      }
  }

  /**
   * A reservation is refused exactly when it is malformed, contradicts a final one, or would
   * take its group past the limit on that day; a repeated one is not counted twice.
   */
  lemma ReserveDailyMeaning(group: Grouping, rows: seq<Res>, key: Key, day: int, amount: int, limit: int)
    requires Valid(rows) && amount > 0
    ensures var r := ReserveDaily(group, rows, key, day, amount, limit); var i := IndexOf(rows, key);
      if i.Some? && !rows[i.value].state.Reserved? then
        r.Ok? <==> limit >= 0 && rows[i.value] == Res(key, day, amount, Confirmed)
      else
        && (r.Ok? <==> limit >= 0 && UsedByOthers(group, rows, key, day) + amount <= limit)
        && (r.Ok? ==> Used(group, r.value, group(key), day) == UsedByOthers(group, rows, key, day) + amount)
  {
    var row := Res(key, day, amount, Reserved);
    var i := IndexOf(rows, key);
    if i.Some? {
      UsedAfterReplace(group, rows, i.value, row, group(key), day);
    } else {
      UsedAfterAppend(group, rows, row, group(key), day);
    }
  }

  // ---- Fables jobs ----

  /** `reserveFablesTurnover`: the sum excludes the row itself, and only a reserved row may be rewritten. */
  function ReserveFables(group: Grouping, rows: seq<Res>, key: Key, day: int, amount: int, limit: int): Result<seq<Res>> {
    if amount < 0 || limit <= 0 then Err("E_FABLES_DAILY_LIMIT")
    else if UsedByOthers(group, rows, key, day) + amount > limit then Err("E_FABLES_DAILY_LIMIT")
    else
      var i := IndexOf(rows, key);
      if i.Some? && !rows[i.value].state.Reserved? then Err("E_FABLES_TURNOVER_FINAL")
      else Ok(Put(rows, Res(key, day, amount, Reserved)))
  }

  /** `markFablesTurnover` has no state guard: it overwrites whatever is there. */
  function MarkFables(rows: seq<Res>, key: Key, state: ResState): Result<seq<Res>> {
    var i := IndexOf(rows, key);
    if i.None? then Err("E_FABLES_TURNOVER_MISSING") else Ok(rows[i.value := rows[i.value].(state := state)])
  }

  datatype FablesEvent = ReserveF(key: Key, day: int, amount: int) | MarkConfirmed(key: Key)

  /** The runner reserves before each swap and marks after its receipt; it never releases a reservation. */
  function FablesStep(group: Grouping, rows: seq<Res>, limit: int, e: FablesEvent): seq<Res> {
    var r := match e
      case ReserveF(key, day, amount) => ReserveFables(group, rows, key, day, amount, limit)
      case MarkConfirmed(key) => MarkFables(rows, key, Confirmed);
    if r.Ok? then r.value else rows
  }

  function FablesRun(group: Grouping, limit: int, events: seq<FablesEvent>): seq<Res> {
    if events == [] then [] else FablesStep(group, FablesRun(group, limit, events[..|events| - 1]), limit, events[|events| - 1])
  }

  predicate NoneReleased(rows: seq<Res>) {
    forall i :: 0 <= i < |rows| ==> !rows[i].state.Released?
  }

  /** Whatever the runner reserves, re-reserves across midnight and confirms, every wallet, token and day is within the limit. */
  lemma {:induction false} FablesLimitHolds(group: Grouping, limit: int, events: seq<FablesEvent>)
    requires limit > 0
    ensures var rows := FablesRun(group, limit, events); Valid(rows) && NoneReleased(rows) && Within(group, rows, limit)
  {
    if events == [] {
    } else {
      var n := |events| - 1;
      var rows := FablesRun(group, limit, events[..n]);
      FablesLimitHolds(group, limit, events[..n]);
      match events[n]
      case ReserveF(key, day, amount) =>
        if amount >= 0 && UsedByOthers(group, rows, key, day) + amount <= limit {
          PutWithin(group, rows, Res(key, day, amount, Reserved), limit);
        }
      case MarkConfirmed(key) => if IndexOf(rows, key).Some? { MarkKeepsLimit(group, rows, key, limit); }
    }
  }

  /** Marking a reservation confirmed keeps the limit exactly when the row was not released or still fits. */
  lemma MarkKeepsLimit(group: Grouping, rows: seq<Res>, key: Key, limit: int)
    requires Valid(rows) && Within(group, rows, limit) && IndexOf(rows, key).Some?
    ensures var row := rows[IndexOf(rows, key).value]; var marked := MarkFables(rows, key, Confirmed).value;
      && Valid(marked)
      && (Within(group, marked, limit) <==> !row.state.Released? || Used(group, rows, group(key), row.day) + row.amount <= limit)
  {
    var i := IndexOf(rows, key).value;
    var row := rows[i];
    var marked := rows[i := row.(state := Confirmed)];
    forall g, day ensures Used(group, marked, g, day) == Used(group, rows, g, day)
      + if row.state.Released? && group(key) == g && row.day == day then row.amount else 0
    {
      UsedAfterReplace(group, rows, i, row.(state := Confirmed), g, day);
    }
    if Within(group, marked, limit) {
      assert Used(group, marked, group(key), row.day) <= limit;
    } else {
      var g, day :| Used(group, marked, g, day) > limit;
      assert Used(group, rows, g, day) <= limit;
    }
  }

  /** The missing guard is observable: release, let another job use the room, then mark the first one confirmed. */
  lemma UnguardedMarkCanExceedLimit(rows: seq<Res>)
    requires rows == [Res((1, 0), 0, 60, Released), Res((2, 0), 0, 50, Reserved)]
    ensures var group: Grouping := (k: Key) => 0;
      && Valid(rows) && Within(group, rows, 100)
      && MarkFables(rows, (1, 0), Confirmed).Ok? && Used(group, MarkFables(rows, (1, 0), Confirmed).value, 0, 0) == 110
  {
    var group: Grouping := (k: Key) => 0;
    assert rows[..1] == [rows[0]] && rows[..1][..0] == [];
    forall g, day ensures Used(group, rows, g, day) <= 100 {
      assert Used(group, rows[..1], g, day) == 0;
    }
    assert group((1, 0)) == 0 && group((2, 0)) == 0;
    assert !Counts(group, rows[0], 0, 0) && Counts(group, rows[1], 0, 0);
    assert Used(group, rows[..1][..0], 0, 0) == 0;
    assert Used(group, rows[..1], 0, 0) == 0;
    assert Used(group, rows, 0, 0) == Used(group, rows[..1], 0, 0) + rows[1].amount;
    assert rows[0].key == (1, 0);
    assert IndexOf(rows, (1, 0)) == Some(0);
    UsedAfterReplace(group, rows, 0, rows[0].(state := Confirmed), 0, 0);
  }

  // ---- The ordinary reservation as the table operation it is ----

  class DailyTurnover {
    const group: Grouping
    var rows: seq<Res>

    constructor (group: Grouping)
      ensures this.group == group && rows == []
    {
      this.group, rows := group, [];
    }

    /** One pass over the group's rows of the day, as the SQL sum and the reduce do. */
    method SumOthers(key: Key, day: int) returns (used: int)
      requires UniqueKeys(rows)
      ensures used == UsedByOthers(group, rows, key, day)
    {
      used := 0;
      ghost var own := 0;
      ghost var at := IndexOf(rows, key);
      for i := 0 to |rows|
        invariant used + own == Used(group, rows[..i], group(key), day)
        invariant own == if at.Some? && at.value < i then Weight(group, rows[at.value], group(key), day) else 0
      {
        assert rows[..i + 1][..i] == rows[..i];
        if Counts(group, rows[i], group(key), day) {
          if rows[i].key == key {
            own := rows[i].amount;
          } else {
            used := used + rows[i].amount;
          }
        }
      }
      assert rows[..|rows|] == rows;
    }

    method Reserve(key: Key, day: int, amount: int, limit: int) returns (r: Result<()>)
      requires Valid(rows)
      modifies `rows
      ensures var spec := ReserveDaily(group, old(rows), key, day, amount, limit);
        if spec.Ok? then r.Ok? && rows == spec.value else r == Err(spec.code) && rows == old(rows)
    {
      if amount < 0 || limit < 0 { return Err("E_DAILY_LIMIT"); }
      if amount == 0 { return Ok(()); }
      var i := IndexOf(rows, key);
      if i.Some? {
        var existing := rows[i.value];
        if existing.state.Released? { return Err("E_DAILY_LIMIT"); }
        if existing.state.Confirmed? {
          if existing.day != day || existing.amount != amount { return Err("E_DAILY_LIMIT"); }
          return Ok(());
        }
      }
      var used := SumOthers(key, day);
      if used + amount > limit { return Err("E_DAILY_LIMIT"); }
      rows := Put(rows, Res(key, day, amount, Reserved));
      return Ok(());
    }
  }
}
