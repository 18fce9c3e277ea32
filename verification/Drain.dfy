/** A lone dispatcher at a fixed clock: how it empties the outbox, and exactly when it can. */
module Drain {
  import opened Prelude
  import opened Outbox
  import opened Serial
  import opened Claims
  import opened Workers

  /* ---------------- Rounds on the tables ---------------- */

  /** Committed dispatches of one lone dispatcher, one after the other: each claims what is then open, and commits
      because all of it flushes. */
  ghost predicate Rounds(db: Db, users: set<Id>, now: Time, limit: nat, batches: seq<seq<RowId>>)
    decreases |batches|, 0
  {
    batches != [] ==>
      var before, last := batches[..|batches| - 1], batches[|batches| - 1];
      && Rounds(db, users, now, limit, before)
      && last != []
      && Round(AfterRounds(db, users, now, limit, before), users, now, limit, last)
  }

  ghost predicate Round(db: Db, users: set<Id>, now: Time, limit: nat, ids: seq<RowId>) {
    IsClaim(db.rows, {}, now, limit, ids) && InRange(db, ids) && AllFlush(db, users, ids)
  }

  ghost function AfterRounds(db: Db, users: set<Id>, now: Time, limit: nat, batches: seq<seq<RowId>>): Db
    requires Rounds(db, users, now, limit, batches)
    decreases |batches|, 1
  {
    if batches == [] then db
    else RunBatch(AfterRounds(db, users, now, limit, batches[..|batches| - 1]), batches[|batches| - 1], now)
  }

  function Flat(batches: seq<seq<RowId>>): seq<RowId> {
    if batches == [] then [] else Flat(batches[..|batches| - 1]) + batches[|batches| - 1]
  }

  /** `flat` are the oldest of the rows open in `db`, each once, and the others are still open in `after`. */
  ghost predicate Handled(db: Db, now: Time, flat: seq<RowId>, after: Db) {
    && InRange(db, flat) && NoDup(flat) && Oldest(db.rows, flat)
    && Elements(flat) <= Open(db.rows, {}, now)
    && Open(after.rows, {}, now) == Open(db.rows, {}, now) - Elements(flat)
    && |after.rows| == |db.rows|
    && (forall r: RowId :: r < |db.rows| ==> after.rows[r].createdAt == db.rows[r].createdAt)
    && (forall i, r :: 0 <= i < |flat| && r in Open(after.rows, {}, now) ==> db.rows[flat[i]].createdAt <= db.rows[r].createdAt)
  }

  lemma HandledIsClosed(row: Row, now: Time)
    ensures !Eligible(Processed(row, now), now)
  {
  }

  /** A batch closes exactly its own rows. */
  lemma BatchCloses(db: Db, now: Time, limit: nat, ids: seq<RowId>)
    requires IsClaim(db.rows, {}, now, limit, ids)
    ensures InRange(db, ids)
    ensures Open(RunBatch(db, ids, now).rows, {}, now) == Open(db.rows, {}, now) - Elements(ids)
    ensures forall r: RowId :: r < |db.rows| ==> RunBatch(db, ids, now).rows[r].createdAt == db.rows[r].createdAt
  {
    ClaimFacts(db.rows, now, limit, ids);
    BatchRows(db, ids, now);
    hide IsClaim, Eligible, Oldest, RunBatch;
    var open, after := Open(db.rows, {}, now), RunBatch(db, ids, now);
    forall r: RowId ensures r in Open(after.rows, {}, now) <==> r in open && r !in Elements(ids) {
      if r < |db.rows| && r in ids { HandledIsClosed(db.rows[r], now); }
    }
    assert Open(after.rows, {}, now) == open - Elements(ids);
  }

  /** Two lists of rows, the second nowhere older than the first. */
  lemma Sequel(rows: seq<Row>, a: seq<RowId>, b: seq<RowId>)
    requires forall i :: 0 <= i < |a| ==> a[i] < |rows|
    requires forall i :: 0 <= i < |b| ==> b[i] < |rows|
    requires NoDup(a) && NoDup(b) && Oldest(rows, a) && Oldest(rows, b)
    requires forall i, k :: 0 <= i < |a| && 0 <= k < |b| ==> a[i] != b[k] && rows[a[i]].createdAt <= rows[b[k]].createdAt
    ensures forall i :: 0 <= i < |a + b| ==> (a + b)[i] < |rows|
    ensures NoDup(a + b) && Oldest(rows, a + b)
  {
  }

  /** `flat` are the oldest of the rows `open`, each once; `left` are the others. */
  ghost predicate Foremost(rows: seq<Row>, open: set<RowId>, flat: seq<RowId>, left: set<RowId>)
    requires forall r :: r in open ==> r < |rows|
  {
    && Elements(flat) <= open && left == open - Elements(flat)
    && (forall i :: 0 <= i < |flat| ==> flat[i] in open)
    && NoDup(flat) && Oldest(rows, flat)
    && (forall i, r :: 0 <= i < |flat| && r in left ==> rows[flat[i]].createdAt <= rows[r].createdAt)
  }

  lemma Append(rows: seq<Row>, open: set<RowId>, flat: seq<RowId>, left: set<RowId>, ids: seq<RowId>, rest: set<RowId>)
    requires forall r :: r in open ==> r < |rows|
    requires Foremost(rows, open, flat, left) && Foremost(rows, left, ids, rest)
    ensures Foremost(rows, open, flat + ids, rest)
  {
    assert Elements(flat + ids) == Elements(flat) + Elements(ids);
    forall i | 0 <= i < |flat| ensures flat[i] in Elements(flat) {}
    Sequel(rows, flat, ids);
    hide Oldest, Elements;
    forall i, r | 0 <= i < |flat + ids| && r in rest ensures rows[(flat + ids)[i]].createdAt <= rows[r].createdAt {
      assert (flat + ids)[i] == if i < |flat| then flat[i] else ids[i - |flat|];
    }
  }

  lemma HandledForemost(db: Db, now: Time, flat: seq<RowId>, after: Db)
    requires |after.rows| == |db.rows|
    requires forall r: RowId :: r < |db.rows| ==> after.rows[r].createdAt == db.rows[r].createdAt
    ensures Handled(db, now, flat, after) <==> Foremost(db.rows, Open(db.rows, {}, now), flat, Open(after.rows, {}, now))
  {
    assert forall i :: 0 <= i < |flat| ==> flat[i] in Elements(flat);
    assert Elements(flat) <= Open(db.rows, {}, now) ==> forall i :: 0 <= i < |flat| ==> flat[i] in Open(db.rows, {}, now);
  }

  lemma ClaimForemost(db: Db, mid: Db, now: Time, limit: nat, ids: seq<RowId>)
    requires |mid.rows| == |db.rows|
    requires forall r: RowId :: r < |db.rows| ==> mid.rows[r].createdAt == db.rows[r].createdAt
    requires IsClaim(mid.rows, {}, now, limit, ids)
    ensures forall r :: r in Open(mid.rows, {}, now) ==> r < |db.rows|
    ensures Foremost(db.rows, Open(mid.rows, {}, now), ids, Open(mid.rows, {}, now) - Elements(ids))
    ensures |ids| == Min(limit, |Open(mid.rows, {}, now)|)
  {
    ClaimFacts(mid.rows, now, limit, ids);
  }

  lemma OneMoreBatch(db: Db, now: Time, limit: nat, flat: seq<RowId>, mid: Db, ids: seq<RowId>)
    requires Handled(db, now, flat, mid) && IsClaim(mid.rows, {}, now, limit, ids) && InRange(mid, ids)
    ensures Handled(db, now, flat + ids, RunBatch(mid, ids, now))
    ensures |flat + ids| == |flat| + Min(limit, |Open(mid.rows, {}, now)|)
  {
    BatchCloses(mid, now, limit, ids);
    ClaimForemost(db, mid, now, limit, ids);
    HandledForemost(db, now, flat, mid);
    HandledForemost(db, now, flat + ids, RunBatch(mid, ids, now));
    hide IsClaim, RunBatch, Foremost, Handled, Eligible;
    assert |RunBatch(mid, ids, now).rows| == |db.rows|;
    Append(db.rows, Open(db.rows, {}, now), flat, Open(mid.rows, {}, now), ids, Open(mid.rows, {}, now) - Elements(ids));
  }

  /** k rounds handle min(k * limit, n) of n open rows, and each round found something to do. */
  lemma {:induction false} RoundsHandle(db: Db, users: set<Id>, now: Time, limit: nat, batches: seq<seq<RowId>>)
    requires limit > 0 && Rounds(db, users, now, limit, batches)
    ensures Handled(db, now, Flat(batches), AfterRounds(db, users, now, limit, batches))
    ensures |Flat(batches)| == Min(|batches| * limit, |Open(db.rows, {}, now)|)
    ensures batches != [] ==> (|batches| - 1) * limit < |Open(db.rows, {}, now)|
    decreases |batches|
  {
    hide Handled, RunBatch, IsClaim, Open, AllFlush;
    if batches == [] {
      NothingHandled(db, now);
    } else {
      var before, last := batches[..|batches| - 1], batches[|batches| - 1];
      var mid := AfterRounds(db, users, now, limit, before);
      RoundsHandle(db, users, now, limit, before);
      OneMoreBatch(db, now, limit, Flat(before), mid, last);
      StillOpen(db, now, Flat(before), mid);
      SomeOpen(mid, now, limit, last);
      Count(|batches| - 1, limit, |Open(db.rows, {}, now)|);
    }
  }

  lemma NothingHandled(db: Db, now: Time)
    ensures Handled(db, now, [], db)
  {
  }

  lemma StillOpen(db: Db, now: Time, flat: seq<RowId>, mid: Db)
    requires Handled(db, now, flat, mid)
    ensures |Open(mid.rows, {}, now)| == |Open(db.rows, {}, now)| - |flat|
  {
    NoDupSize(flat);
    hide Open;
    assert |Open(db.rows, {}, now) - Elements(flat)| == |Open(db.rows, {}, now)| - |Elements(flat)|;
  }

  lemma SomeOpen(db: Db, now: Time, limit: nat, ids: seq<RowId>)
    requires IsClaim(db.rows, {}, now, limit, ids) && ids != []
    ensures |Open(db.rows, {}, now)| > 0
  {
    assert ids[0] in Open(db.rows, {}, now);
  }

  lemma Count(k: nat, limit: nat, n: nat)
    requires limit > 0 && Min(k * limit, n) < n
    ensures k * limit < n
    ensures Min(k * limit, n) + Min(limit, n - Min(k * limit, n)) == Min((k + 1) * limit, n)
  {
    assert (k + 1) * limit == k * limit + limit;
  }

  /* ---------------- The dispatcher alone ---------------- */

  /** A step of `w` itself, claiming at most `limit` rows. */
  predicate OwnStep(step: Step, w: WorkerId, limit: nat) {
    match step
    case Claim(v, l, _) => v == w && l == limit
    case Stamp(v) => v == w
    case Process(v) => v == w
    case Publish(v) => v == w
    case Abort(v) => v == w
    case _ => false
  }

  ghost predicate OwnRun(s: Sys, w: WorkerId, limit: nat, steps: seq<Step>) {
    Valid(s, steps) && forall k :: 0 <= k < |steps| ==> OwnStep(steps[k], w, limit)
  }

  /** Nobody else is at work, and what `w` holds is still an answer to the claim query. */
  ghost predicate Lone(s: Sys, w: WorkerId, limit: nat) {
    && Inv(s)
    && (forall v :: v != w ==> s.WorkerAt(v).Idle?)
    && var k := s.WorkerAt(w);
       && (!k.Idle? ==> k.ids != [] && IsClaim(s.db.rows, {}, s.clock, limit, k.ids))
       && (k.Working? ==> k.now == s.clock)
  }

  lemma LoneClaim(s: Sys, w: WorkerId, limit: nat, ids: seq<RowId>)
    requires Lone(s, w, limit) && Enabled(s, Claim(w, limit, ids))
    ensures IsClaim(s.db.rows, {}, s.clock, limit, ids)
  {
    NothingLocked(s);
  }

  /** A publish of `w` is a round; its other steps commit nothing. */
  lemma LoneStep(s: Sys, w: WorkerId, limit: nat, step: Step)
    requires Lone(s, w, limit) && Enabled(s, step) && OwnStep(step, w, limit)
    ensures var t := Next(s, step);
      && Lone(t, w, limit) && t.clock == s.clock && t.users == s.users
      && if step.Publish? then
           var ids := s.Held(w);
           && ids != [] && Round(s.db, s.users, s.clock, limit, ids)
           && t.db == RunBatch(s.db, ids, s.clock) && Committed(s, step) == [Dispatched(ids, s.clock)]
         else t.db == s.db && Committed(s, step) == []
  {
    InvKept(s, step);
    match step
    case Claim(_, _, ids) => LoneClaim(s, w, limit, ids); LoneAfter(s, w, limit, step);
    case Publish(_) => PublishStep(s, w); PublishOnlyIfAllFlush(s, w); LoneAfter(s, w, limit, step);
    case _ => LoneAfter(s, w, limit, step);
    hide Inv, IsClaim;
  }

  lemma LoneAfter(s: Sys, w: WorkerId, limit: nat, step: Step)
    requires Lone(s, w, limit) && Enabled(s, step) && OwnStep(step, w, limit) && Inv(Next(s, step))
    requires step.Claim? ==> IsClaim(s.db.rows, {}, s.clock, limit, step.ids)
    ensures Lone(Next(s, step), w, limit)
  {
    hide Inv, IsClaim;
    assert forall v :: v != w ==> Next(s, step).WorkerAt(v) == s.WorkerAt(v);
  }

  function Dispatches(batches: seq<seq<RowId>>, now: Time): seq<Commit> {
    if batches == [] then [] else Dispatches(batches[..|batches| - 1], now) + [Dispatched(batches[|batches| - 1], now)]
  }

  lemma {:induction false} DispatchesSize(batches: seq<seq<RowId>>, now: Time)
    ensures |Dispatches(batches, now)| == |batches|
  {
    if batches != [] { DispatchesSize(batches[..|batches| - 1], now); }
  }

  ghost predicate Progressed(s: Sys, w: WorkerId, limit: nat, t: Sys, log: seq<Commit>, batches: seq<seq<RowId>>) {
    && Lone(t, w, limit) && t.clock == s.clock && t.users == s.users
    && Rounds(s.db, s.users, s.clock, limit, batches)
    && t.db == AfterRounds(s.db, s.users, s.clock, limit, batches)
    && log == Dispatches(batches, s.clock)
  }

  lemma ProgressStep(s: Sys, w: WorkerId, limit: nat, t: Sys, log: seq<Commit>, batches: seq<seq<RowId>>, step: Step) returns (more: seq<seq<RowId>>)
    requires Progressed(s, w, limit, t, log, batches) && Enabled(t, step) && OwnStep(step, w, limit)
    ensures Progressed(s, w, limit, Next(t, step), log + Committed(t, step), more)
  {
    hide Lone, Enabled, Next, Committed, RunBatch, Round;
    LoneStep(t, w, limit, step);
    if step.Publish? {
      more := batches + [t.Held(w)];
      assert more[..|more| - 1] == batches;
    } else {
      more := batches;
      assert log + [] == log;
    }
  }

  /** Whatever a lone dispatcher does, aborts included, what it commits is a series of rounds. */
  lemma {:induction false} EveryRunIsRounds(s: Sys, w: WorkerId, limit: nat, steps: seq<Step>) returns (batches: seq<seq<RowId>>)
    requires Inv(s) && AllIdle(s) && OwnRun(s, w, limit, steps)
    ensures Progressed(s, w, limit, Run(s, steps), Log(s, steps), batches)
    decreases |steps|
  {
    hide Progressed, Enabled, Next, Committed, Inv;
    if steps == [] {
      batches := [];
      NoProgress(s, w, limit);
    } else {
      var before := steps[..|steps| - 1];
      batches := EveryRunIsRounds(s, w, limit, before);
      batches := ProgressStep(s, w, limit, Run(s, before), Log(s, before), batches, steps[|steps| - 1]);
    }
  }

  lemma NoProgress(s: Sys, w: WorkerId, limit: nat)
    requires Inv(s) && AllIdle(s)
    ensures Progressed(s, w, limit, s, [], [])
  {
  }

  /* ---------------- Main results ---------------- */

  /** k == ceil(n / limit), for limit > 0. */
  ghost predicate IsCeiling(k: nat, n: nat, limit: nat) {
    if n == 0 then k == 0 else (k - 1) * limit < n <= k * limit
  }

  ghost predicate Emptied(s: Sys, w: WorkerId, limit: nat, steps: seq<Step>) {
    OwnRun(s, w, limit, steps) && Open(Run(s, steps).db.rows, {}, s.clock) == {}
  }

  /** In every run of a lone dispatcher at a fixed clock, however often it aborts: what it has committed are the oldest
      open rows, oldest first and each once, and no others; each commit but the last took `limit` rows; and the outbox
      is empty if and only if it has committed ceil(n / limit) times. */
  lemma DrainTheorem(s: Sys, w: WorkerId, limit: nat, steps: seq<Step>) returns (batches: seq<seq<RowId>>)
    requires Inv(s) && AllIdle(s) && limit > 0 && OwnRun(s, w, limit, steps)
    ensures Log(s, steps) == Dispatches(batches, s.clock) && |Log(s, steps)| == |batches|
    ensures Handled(s.db, s.clock, Flat(batches), Run(s, steps).db)
    ensures |Flat(batches)| == Min(|batches| * limit, |Open(s.db.rows, {}, s.clock)|)
    ensures Emptied(s, w, limit, steps) <==> IsCeiling(|batches|, |Open(s.db.rows, {}, s.clock)|, limit)
  {
    batches := EveryRunIsRounds(s, w, limit, steps);
    RoundsHandle(s.db, s.users, s.clock, limit, batches);
    DispatchesSize(batches, s.clock);
    StillOpen(s.db, s.clock, Flat(batches), Run(s, steps).db);
    hide Inv, Handled, Rounds, AfterRounds, Lone, Run, Valid, Log, Open, Flat, Dispatches, IsCeiling, Min;
    EmptyAtCeiling(|batches|, limit, |Open(s.db.rows, {}, s.clock)|, Open(Run(s, steps).db.rows, {}, s.clock));
  }

  lemma EmptyAtCeiling(k: nat, limit: nat, n: nat, left: set<RowId>)
    requires limit > 0 && |left| == n - Min(k * limit, n) && (k > 0 ==> (k - 1) * limit < n)
    ensures left == {} <==> IsCeiling(k, n, limit)
  {
    assert k * limit == (k - 1) * limit + limit;
    assert left == {} <==> |left| == 0;
  }

  /** A dispatch whose claimed rows all flush closes exactly those, min(limit, n) of n open rows. One with a row that
      does not flush closes nothing: see `UnflushableStays`. */
  lemma DispatchCloses(s: Sys, w: WorkerId, limit: nat, ids: seq<RowId>)
    requires Inv(s) && AllIdle(s) && IsClaim(s.db.rows, {}, s.clock, limit, ids) && ids != []
    requires forall i :: 0 <= i < |ids| ==> Flushes(s.users, VerdictOf(s.db.rows[ids[i]]))
    ensures var steps := Opening(w, limit, ids, |ids|) + [Publish(w)];
      && OwnRun(s, w, limit, steps) && AllIdle(Run(s, steps)) && Inv(Run(s, steps))
      && Run(s, steps).clock == s.clock && Run(s, steps).users == s.users
      && Run(s, steps).db == RunBatch(s.db, ids, s.clock)
      && Open(Run(s, steps).db.rows, {}, s.clock) == Open(s.db.rows, {}, s.clock) - Elements(ids)
      && |Open(Run(s, steps).db.rows, {}, s.clock)| == |Open(s.db.rows, {}, s.clock)| - Min(limit, |Open(s.db.rows, {}, s.clock)|)
  {
    NothingLocked(s);
    DispatchRuns(s, w, limit, ids);
    OpeningOwn(w, limit, ids, |ids|);
    var steps := Opening(w, limit, ids, |ids|) + [Publish(w)];
    BatchCloses(s.db, s.clock, limit, ids);
    ClaimFacts(s.db.rows, s.clock, limit, ids);
    hide IsClaim, RunBatch, Open, Flushes, VerdictOf, Next, Enabled;
    assert OwnRun(s, w, limit, steps);
    LoneForever(s, w, limit, steps);
    var open := Open(s.db.rows, {}, s.clock);
    assert |open - Elements(ids)| == |open| - |Elements(ids)|;
  }

  lemma {:induction false} OpeningOwn(w: WorkerId, limit: nat, ids: seq<RowId>, n: nat)
    ensures forall k :: 0 <= k < |Opening(w, limit, ids, n)| ==> OwnStep(Opening(w, limit, ids, n)[k], w, limit)
  {
    if n > 0 { OpeningOwn(w, limit, ids, n - 1); }
  }

  lemma LoneForever(s: Sys, w: WorkerId, limit: nat, steps: seq<Step>)
    requires Inv(s) && AllIdle(s) && OwnRun(s, w, limit, steps)
    ensures Lone(Run(s, steps), w, limit) && Run(s, steps).clock == s.clock && Run(s, steps).users == s.users
  {
    var batches := EveryRunIsRounds(s, w, limit, steps);
    hide Rounds, AfterRounds, Lone;
  }

  ghost predicate AllOpenFlush(s: Sys) {
    forall id :: id in Open(s.db.rows, {}, s.clock) ==> Flushes(s.users, VerdictOf(s.db.rows[id]))
  }

  lemma OneRound(s: Sys, w: WorkerId, limit: nat) returns (steps: seq<Step>)
    requires Inv(s) && AllIdle(s) && limit > 0 && AllOpenFlush(s) && Open(s.db.rows, {}, s.clock) != {}
    ensures OwnRun(s, w, limit, steps)
    ensures var t := Run(s, steps);
      && Inv(t) && AllIdle(t) && AllOpenFlush(t) && t.clock == s.clock
      && |Open(t.db.rows, {}, s.clock)| < |Open(s.db.rows, {}, s.clock)|
  {
    var ids := ClaimBatch(s.db.rows, {}, s.clock, limit);
    ClaimFacts(s.db.rows, s.clock, limit, ids);
    DispatchCloses(s, w, limit, ids);
    steps := Opening(w, limit, ids, |ids|) + [Publish(w)];
    OthersFlush(s, Run(s, steps), ids);
    hide IsClaim, Flushes, VerdictOf, Inv, RunBatch, Opening, Valid, Run;
  }

  /** If every open row flushes, a lone dispatcher can empty the outbox. */
  lemma {:induction false} CanDrain(s: Sys, w: WorkerId, limit: nat) returns (steps: seq<Step>)
    requires Inv(s) && AllIdle(s) && limit > 0 && AllOpenFlush(s)
    ensures Emptied(s, w, limit, steps)
    decreases |Open(s.db.rows, {}, s.clock)|
  {
    hide Inv, AllIdle, AllOpenFlush, Enabled, Next;
    if Open(s.db.rows, {}, s.clock) == {} {
      steps := [];
    } else {
      var first := OneRound(s, w, limit);
      var rest := CanDrain(Run(s, first), w, limit);
      RunConcat(s, first, rest);
      steps := first + rest;
    }
  }

  lemma OthersFlush(s: Sys, t: Sys, ids: seq<RowId>)
    requires InRange(s.db, ids) && NoDup(ids) && t.db == RunBatch(s.db, ids, s.clock) && t.users == s.users
    requires Open(t.db.rows, {}, s.clock) <= Open(s.db.rows, {}, s.clock)
    requires AllOpenFlush(s) && t.clock == s.clock
    ensures AllOpenFlush(t)
  {
    BatchRows(s.db, ids, s.clock);
    hide RunBatch, Flushes, Judge;
    forall id | id in Open(t.db.rows, {}, s.clock) ensures Flushes(t.users, VerdictOf(t.db.rows[id])) {
      assert id in Open(s.db.rows, {}, s.clock);
      assert VerdictOf(t.db.rows[id]) == VerdictOf(s.db.rows[id]);
    }
  }

  lemma UsersGrow(s: Sys, step: Step)
    requires Enabled(s, step)
    ensures s.users <= Next(s, step).users
  {
  }

  /** A row that cannot be flushed stays as it is through every run, of any number of dispatchers and with any enqueues,
      at whose end it still cannot: whoever claims it rolls back. Only registering its assignee can change that. */
  lemma {:induction false} UnflushableStays(s: Sys, steps: seq<Step>, id: RowId)
    requires Inv(s) && Valid(s, steps) && id < |s.db.rows|
    requires !Flushes(Run(s, steps).users, VerdictOf(s.db.rows[id]))
    ensures Inv(Run(s, steps)) && id < |Run(s, steps).db.rows| && Run(s, steps).db.rows[id] == s.db.rows[id]
    decreases |steps|
  {
    hide Inv, Enabled, Next, VerdictOf;
    if steps != [] {
      var before, step := steps[..|steps| - 1], steps[|steps| - 1];
      var t := Run(s, before);
      UsersGrow(t, step);
      UnflushableStays(s, before, id);
      InvKept(t, step);
      if step.Publish? { PublishOnlyIfAllFlush(t, step.worker); }
      UnpublishedStays(t, step, id);
    }
  }

  /** A lone dispatcher at a fixed clock can empty the outbox if and only if every open row flushes. */
  lemma DrainsExactlyIf(s: Sys, w: WorkerId, limit: nat)
    requires Inv(s) && AllIdle(s) && limit > 0
    ensures (exists steps :: Emptied(s, w, limit, steps)) <==> AllOpenFlush(s)
  {
    if AllOpenFlush(s) {
      var steps := CanDrain(s, w, limit);
    } else {
      var id :| id in Open(s.db.rows, {}, s.clock) && !Flushes(s.users, VerdictOf(s.db.rows[id]));
      forall steps ensures !Emptied(s, w, limit, steps) {
        if OwnRun(s, w, limit, steps) {
          LoneForever(s, w, limit, steps);
          UnflushableStays(s, steps, id);
          assert id in Open(Run(s, steps).db.rows, {}, s.clock);
        }
      }
    }
  }
}
