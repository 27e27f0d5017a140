/**
 * When the Fables monitor may start a cycle: executor/fablesTrigger.ts, the monitor rows of
 * executor/fablesMonitor.ts and executor/fablesStore.ts, and the resets of executor/fablesJobs.ts.
 */
module FablesTrigger {
  import opened Basics

  datatype Side = Lower | In | Upper

  datatype Config = Config(revision: nat, tickLower: int, tickUpper: int, confirmationSeconds: nat)

  datatype Row = Row(revision: nat, outSide: Option<Side>, outSince: Option<int>, cooldownUntil: Option<int>)

  datatype Verdict = Monitoring | Confirming | Ready | Paused

  /** The range is half open, as ticks are. */
  function RangeSide(tick: int, lower: int, upper: int): Side {
    if tick < lower then Lower else if tick >= upper then Upper else In
  }

  /** Only the tick, the time and the stored row of the same revision decide. */
  function Evaluate(c: Config, prior: Option<Row>, tick: int, now: int, paused: bool): (Verdict, Row) {
    var side := RangeSide(tick, c.tickLower, c.tickUpper);
    var same := prior.Some? && prior.value.revision == c.revision;
    var base := Row(c.revision, None, None, if same then prior.value.cooldownUntil else None);
    if paused then (Paused, base)
    else if side.In? then (Monitoring, base)
    else
      var outSince := if same && prior.value.outSide == Some(side) && prior.value.outSince.Some? then prior.value.outSince.value else now;
      var row := base.(outSide := Some(side), outSince := Some(outSince));
      if (base.cooldownUntil.Some? && now < base.cooldownUntil.value) || now - outSince < c.confirmationSeconds then (Confirming, row)
      else (Ready, row)
  }

  /** Everything that writes or deletes a monitor row. */
  datatype Event =
    | Evaluated(config: Config, tick: int, now: int, paused: bool)   // a successful read, with the pass's own copy of the config
    | ReadFailed(revision: nat)
    | Upserted                                                        // the operator saved a new revision: the row is deleted
    | CycleCompleted(revision: nat, cooldownUntil: int)
    | JobCancelled(revision: nat)
    | JobFailed(revision: nat, cooldownUntil: int)

  function Write(prior: Option<Row>, e: Event): Option<Row> {
    match e
    case Evaluated(c, tick, now, paused) => Some(Evaluate(c, prior, tick, now, paused).1)
    case ReadFailed(revision) => Some(Row(revision, None, None, None))
    case Upserted => None
    case CycleCompleted(revision, until) => Some(Row(revision, None, None, Some(until)))
    case JobCancelled(revision) => Some(Row(revision, None, None, None))
    case JobFailed(revision, until) => Some(Row(revision, None, None, Some(until)))
  }

  function RowAfter(events: seq<Event>): Option<Row> {
    if events == [] then None else Write(RowAfter(events[..|events| - 1]), events[|events| - 1])
  }

  // ---- What confirmation means ----

  /** A successful, unpaused evaluation of this revision that found the price out on this side. */
  predicate SeenOut(e: Event, revision: nat, side: Side) {
    && e.Evaluated? && e.config.revision == revision && !e.paused && !side.In?
    && RangeSide(e.tick, e.config.tickLower, e.config.tickUpper) == side
  }

  /** The time of the first evaluation in the unbroken run of such sightings at the end of the history. */
  function StreakStart(events: seq<Event>, revision: nat, side: Side): Option<int> {
    if events == [] then None
    else
      var last := events[|events| - 1];
      if !SeenOut(last, revision, side) then None
      else
        var earlier := StreakStart(events[..|events| - 1], revision, side);
        if earlier.Some? then earlier else Some(last.now)
  }

  /** The streak is a suffix of nothing but sightings, begun by the one whose time it carries. */
  predicate StreakFrom(events: seq<Event>, k: nat, revision: nat, side: Side, since: int) {
    && k < |events|
    && (forall i :: k <= i < |events| ==> SeenOut(events[i], revision, side))
    && events[k].now == since
    && (k > 0 ==> !SeenOut(events[k - 1], revision, side))
  }

  lemma {:induction false} StreakIsSuffix(events: seq<Event>, revision: nat, side: Side)
    ensures var s := StreakStart(events, revision, side);
      if s.Some? then exists k: nat :: StreakFrom(events, k, revision, side, s.value)
      else events == [] || !SeenOut(events[|events| - 1], revision, side)
  {
    if events != [] {
      var n := |events| - 1;
      StreakIsSuffix(events[..n], revision, side);
      if SeenOut(events[n], revision, side) {
        var earlier := StreakStart(events[..n], revision, side);
        if earlier.Some? {
          var k: nat :| StreakFrom(events[..n], k, revision, side, earlier.value);
          forall i | k <= i < |events| ensures SeenOut(events[i], revision, side) { if i < n { assert events[..n][i] == events[i]; } }
          assert StreakFrom(events, k, revision, side, earlier.value);
        } else {
          assert n > 0 ==> events[..n][n - 1] == events[n - 1];
          assert StreakFrom(events, n, revision, side, events[n].now);
        }
      }
    }
  }

  /** The stored row remembers exactly the streak at the end of the history. */
  lemma {:induction false} RowRemembersStreak(events: seq<Event>, revision: nat, side: Side)
    requires !side.In?
    ensures var row := RowAfter(events);
      (if row.Some? && row.value.revision == revision && row.value.outSide == Some(side) then row.value.outSince else None)
        == StreakStart(events, revision, side)
    ensures var row := RowAfter(events); row.Some? ==> (row.value.outSide.Some? <==> row.value.outSince.Some?)
  {
    if events != [] { RowRemembersStreak(events[..|events| - 1], revision, side); }
  }

  predicate CooledDown(row: Option<Row>, revision: nat, now: int) {
    row.Some? && row.value.revision == revision && row.value.cooldownUntil.Some? ==> now >= row.value.cooldownUntil.value
  }

  /**
   * Over every history of evaluations, failed reads, saves, completions and closings: an
   * evaluation is ready exactly when it ends an unbroken run of successful, unpaused sightings of
   * its own revision on one side whose first is confirmationSeconds old, and no cooldown runs.
   */
  lemma ReadyMeansConfirmed(history: seq<Event>, e: Event)
    requires e.Evaluated?
    ensures var side := RangeSide(e.tick, e.config.tickLower, e.config.tickUpper);
      var since := StreakStart(history + [e], e.config.revision, side);
      Evaluate(e.config, RowAfter(history), e.tick, e.now, e.paused).0.Ready? <==>
        since.Some? && e.now - since.value >= e.config.confirmationSeconds
        && CooledDown(RowAfter(history), e.config.revision, e.now)
  {
    var side := RangeSide(e.tick, e.config.tickLower, e.config.tickUpper);
    assert (history + [e])[..|history|] == history;
    if !side.In? { RowRemembersStreak(history, e.config.revision, side); }
  }

  /** Every reset — in range, paused, failed read, save, completion, cancellation, failure — makes confirmation start over. */
  lemma ResetsRestart(history: seq<Event>, reset: Event, e: Event)
    requires e.Evaluated? && e.config.confirmationSeconds > 0
    requires !SeenOut(reset, e.config.revision, RangeSide(e.tick, e.config.tickLower, e.config.tickUpper))
    ensures !Evaluate(e.config, RowAfter(history + [reset]), e.tick, e.now, e.paused).0.Ready?
  {
    ReadyMeansConfirmed(history + [reset], e);
    var all := history + [reset] + [e];
    assert all[..|all| - 1] == history + [reset];
    assert (history + [reset])[|history|] == reset;
  }

  /** A completed cycle or a failed job writes the cooldown of its revision. */
  predicate StartsCooldown(e: Event, revision: nat, until: int) {
    (e.CycleCompleted? || e.JobFailed?) && e.revision == revision && e.cooldownUntil == until
  }

  predicate EvaluatedAt(e: Event, revision: nat) {
    e.Evaluated? && e.config.revision == revision
  }

  /** The cooldown was written at `k`, and nothing but evaluations of its revision has happened since. */
  predicate CooldownFrom(events: seq<Event>, k: nat, revision: nat, until: int) {
    k < |events| && StartsCooldown(events[k], revision, until) && forall i :: k < i < |events| ==> EvaluatedAt(events[i], revision)
  }

  predicate Carries(row: Option<Row>, revision: nat, until: int) {
    row.Some? && row.value.revision == revision && row.value.cooldownUntil == Some(until)
  }

  /**
   * Over every history the stored row carries a cooldown exactly when some completion or failure
   * wrote it and every later event was an evaluation of the same revision: a save, a failed read,
   * a cancellation, another revision's write or a newer cooldown each end it.
   */
  lemma {:induction false} CooldownCarriedIff(events: seq<Event>, revision: nat, until: int)
    ensures Carries(RowAfter(events), revision, until) <==> exists k: nat :: CooldownFrom(events, k, revision, until)
  {
    if events != [] {
      var n := |events| - 1;
      var init, last := events[..n], events[n];
      CooldownCarriedIff(init, revision, until);
      if Carries(RowAfter(events), revision, until) {
        if StartsCooldown(last, revision, until) {
          assert CooldownFrom(events, n, revision, until);
        } else {
          var k: nat :| CooldownFrom(init, k, revision, until);
          assert CooldownFrom(events, k, revision, until);
        }
      }
      if k: nat :| CooldownFrom(events, k, revision, until) {
        if k < n { assert CooldownFrom(init, k, revision, until); }
      }
    }
  }

  /** While a cooldown is carried no evaluation of its revision is ready before it ends. */
  lemma CooldownHolds(history: seq<Event>, k: nat, until: int, e: Event)
    requires e.Evaluated? && CooldownFrom(history, k, e.config.revision, until) && e.now < until
    ensures !Evaluate(e.config, RowAfter(history), e.tick, e.now, e.paused).0.Ready?
  {
    CooldownCarriedIff(history, e.config.revision, until);
  }

  /** A failed read clears the cooldown with the rest of the row: two evaluations later the trigger may be ready. */
  lemma FailedReadClearsCooldown(c: Config, completedUntil: int, t: int)
    requires t >= 0 && t + c.confirmationSeconds < completedUntil
    ensures var history := [CycleCompleted(c.revision, completedUntil), ReadFailed(c.revision), Evaluated(c, c.tickLower - 1, t, false)];
      Evaluate(c, RowAfter(history), c.tickLower - 1, t + c.confirmationSeconds, false).0.Ready?
  {
    var history := [CycleCompleted(c.revision, completedUntil), ReadFailed(c.revision), Evaluated(c, c.tickLower - 1, t, false)];
    var e := Evaluated(c, c.tickLower - 1, t + c.confirmationSeconds, false);
    forall until ensures !Carries(RowAfter(history), c.revision, until) {
      CooldownCarriedIff(history, c.revision, until);
      assert !EvaluatedAt(history[1], c.revision) && !EvaluatedAt(history[0], c.revision);
    }
    var all := history + [e];
    assert all[..3] == history && history[..2] == [history[0], history[1]];
    assert StreakStart(history[..2], c.revision, Lower).None?;
    assert StreakStart(history, c.revision, Lower) == Some(t);
    ReadyMeansConfirmed(history, e);
  }
}
