/** Retry arithmetic, and what it says about every run: the times at which one row fails spread out. */
module Backoff {
  import opened Prelude
  import opened Outbox
  import opened Serial

  /** The times at which committed dispatches handled the row. */
  ghost function Passes(log: seq<Commit>, id: RowId): seq<Time> {
    if log == [] then []
    else Passes(log[..|log| - 1], id) + PassesIn(log[|log| - 1], id)
  }

  ghost function PassesIn(c: Commit, id: RowId): seq<Time> {
    if c.Dispatched? && id in c.ids then [c.now] else []
  }

  /** The least time n failures take up, in closed form. */
  function Spread(n: nat): nat {
    if n <= 8 then Pow2(n + 1) - 2 else 510 + 256 * (n - 8)
  }

  lemma DelayRange(a: nat, b: nat)
    requires 1 <= a <= b
    ensures 2 <= Delay(a) <= Delay(b) <= 256
    ensures Delay(a) == Pow2(Min(a, 8))
  {
    Pow2Grows(1, Min(a, 8));
    Pow2Grows(Min(a, 8), Min(b, 8));
    Pow2Grows(Min(b, 8), 8);
    assert Pow2(8) == 256;
  }

  lemma {:induction false} Pow2Grows(a: nat, b: nat)
    requires a <= b
    ensures Pow2(a) <= Pow2(b)
  {
    if a < b { Pow2Grows(a, b - 1); }
  }

  lemma SpreadStep(n: nat)
    ensures Spread(n + 1) == Spread(n) + Delay(n + 1)
  {
    assert Pow2(8) == 256 && Pow2(9) == 512;
    DelayRange(n + 1, n + 1);
  }

  /** What one more failure adds to a row that has failed at `times`. */
  ghost predicate Tracks(row: Row, times: seq<Time>) {
    && row.attempts == |times|
    && (row.status == FAILED <==> times != [])
    && (times != [] ==> row.nextRetryAt == Some(times[|times| - 1] + Delay(|times|)))
  }

  ghost predicate Gaps(times: seq<Time>) {
    forall k :: 0 < k < |times| ==> times[k - 1] + Delay(k) <= times[k]
  }

  lemma OneMoreFailure(row: Row, times: seq<Time>, now: Time)
    requires VerdictOf(row).Reject? && WellFormed(row) && Tracks(row, times) && Gaps(times) && Eligible(row, now)
    ensures Tracks(Processed(row, now), times + [now]) && Gaps(times + [now])
  {
  }

  lemma FailureStep(db: Db, c: Commit, id: RowId, times: seq<Time>)
    requires Consistent(db) && LegalCommit(db, c)
    requires id < |db.rows| && VerdictOf(db.rows[id]).Reject? && Tracks(db.rows[id], times) && Gaps(times)
    ensures VerdictOf(Redo(db, c).rows[id]).Reject?
    ensures Tracks(Redo(db, c).rows[id], times + PassesIn(c, id)) && Gaps(times + PassesIn(c, id))
  {
    if c.Dispatched? {
      BatchRows(db, c.ids, c.now);
    }
    if c.Dispatched? && id in c.ids {
      OneMoreFailure(db.rows[id], times, c.now);
    } else {
      assert times + PassesIn(c, id) == times;
    }
  }

  lemma VerdictStays(db: Db, c: Commit, id: RowId)
    requires LegalCommit(db, c) && id < |db.rows|
    ensures id < |Redo(db, c).rows| && VerdictOf(Redo(db, c).rows[id]) == VerdictOf(db.rows[id])
  {
    if c.Dispatched? {
      BatchRows(db, c.ids, c.now);
    }
  }

  /** A row whose text is rejected: `attempts` counts its committed failures, and it waits its delay. */
  lemma {:induction false} FailuresSpread(log: seq<Commit>, id: RowId)
    requires Legal(log) && id < |Replay(log).rows| && VerdictOf(Replay(log).rows[id]).Reject?
    ensures Tracks(Replay(log).rows[id], Passes(log, id)) && Gaps(Passes(log, id))
  {
    var before, c := log[..|log| - 1], log[|log| - 1];
    if id < |Replay(before).rows| {
      ReplayConsistent(before);
      VerdictStays(Replay(before), c, id);
      FailuresSpread(before, id);
      FailureStep(Replay(before), c, id, Passes(before, id));
    } else {
      NoPassBeforeInsert(before, id);
    }
  }

  lemma {:induction false} NoPassBeforeInsert(log: seq<Commit>, id: RowId)
    requires Legal(log) && |Replay(log).rows| <= id
    ensures Passes(log, id) == []
  {
    if log != [] { NoPassBeforeInsert(log[..|log| - 1], id); }
  }

  lemma {:induction false} GapsAddUp(times: seq<Time>, i: nat, j: nat)
    requires i <= j < |times|
    requires Gaps(times)
    ensures times[i] + Spread(j - i) <= times[j]
  {
    if i < j {
      GapsAddUp(times, i, j - 1);
      SpreadStep(j - i - 1);
      DelayRange(j - i, j);
    }
  }

  /** After n failures the next retry is at least Spread(n) after the first, and any k + 1 failures take
      at least Spread(k) seconds: a window of length w holds k + 1 of them only if Spread(k) <= w. */
  lemma BackoffBound(log: seq<Commit>, id: RowId)
    requires Legal(log) && id < |Replay(log).rows| && VerdictOf(Replay(log).rows[id]).Reject?
    ensures var row, times := Replay(log).rows[id], Passes(log, id);
      && (times != [] ==> row.nextRetryAt.Some? && times[0] + Spread(|times|) <= row.nextRetryAt.value)
      && (forall i, j :: 0 <= i <= j < |times| ==> times[i] + Spread(j - i) <= times[j])
  {
    var times := Passes(log, id);
    FailuresSpread(log, id);
    forall i, j | 0 <= i <= j < |times| ensures times[i] + Spread(j - i) <= times[j] {
      GapsAddUp(times, i, j);
    }
    if times != [] {
      SpreadStep(|times| - 1);
    }
  }

  /** A deliverable row is handled once, and then it is SENT: `attempts` never leaves 0. */
  lemma {:induction false} DeliverableOnce(log: seq<Commit>, id: RowId)
    requires Legal(log) && id < |Replay(log).rows| && VerdictOf(Replay(log).rows[id]).Deliver?
    ensures var row := Replay(log).rows[id];
      && row.attempts == 0
      && row.status != FAILED
      && |Passes(log, id)| == if row.status == SENT then 1 else 0
  {
    var before := log[..|log| - 1];
    var c := log[|log| - 1];
    ReplayConsistent(before);
    if id < |Replay(before).rows| {
      if c.Dispatched? {
        BatchRows(Replay(before), c.ids, c.now);
      }
      DeliverableOnce(before, id);
    } else {
      NoPassBeforeInsert(before, id);
    }
  }
}
