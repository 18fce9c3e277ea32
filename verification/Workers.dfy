/** Any number of dispatchers over one outbox, interleaved statement by statement. */
module Workers {
  import opened Prelude
  import opened Outbox
  import opened Serial

  type WorkerId = nat

  /** One dispatcher's transaction. It works on the copies it loaded when it claimed the rows; `done` holds its
      unpublished row versions and `sends` its unpublished notifications. */
  datatype Worker =
    | Idle
    | Holding(ids: seq<RowId>, loaded: seq<Row>, since: Time)
    | Working(ids: seq<RowId>, loaded: seq<Row>, since: Time, now: Time, done: seq<Row>, sends: seq<Note>)

  datatype Sys = Sys(db: Db, users: set<Id>, clock: Time, workers: map<WorkerId, Worker>, locks: map<RowId, WorkerId>) {
    function WorkerAt(w: WorkerId): Worker {
      if w in workers then workers[w] else Idle
    }

    function Held(w: WorkerId): seq<RowId> {
      if WorkerAt(w).Idle? then [] else WorkerAt(w).ids
    }

    predicate Holds(w: WorkerId, id: RowId) {
      id in Held(w)
    }

    function Release(w: WorkerId): Sys {
      this.(workers := workers[w := Idle], locks := map id | id in locks && locks[id] != w :: locks[id])
    }
  }

  datatype Step =
    | Enqueue(eventType: EventType, payload: Payload)
    | Register(user: Id)
    | Tick(seconds: nat)
    | Claim(worker: WorkerId, limit: nat, ids: seq<RowId>)
    | Stamp(worker: WorkerId)
    | Process(worker: WorkerId)
    | Publish(worker: WorkerId)
    | Abort(worker: WorkerId)

  function Start(now: Time): Sys {
    Sys(Db([], []), {}, now, map[], map[])
  }

  /** A failing flush leaves the session unusable, so a worker at such a row can only abort. */
  ghost predicate Enabled(s: Sys, step: Step) {
    match step
    case Enqueue(_, _) => true
    case Register(_) => true
    case Tick(_) => true
    case Claim(w, limit, ids) => s.WorkerAt(w).Idle? && IsClaim(s.db.rows, s.locks.Keys, s.clock, limit, ids)
    case Stamp(w) => s.WorkerAt(w).Holding?
    case Process(w) =>
      var k := s.WorkerAt(w);
      && k.Working? && |k.done| < |k.ids| && |k.loaded| == |k.ids|
      && Flushes(s.users, VerdictOf(k.loaded[|k.done|]))
    case Publish(w) => s.WorkerAt(w).Working? && |s.WorkerAt(w).done| == |s.WorkerAt(w).ids| && InRange(s.db, s.WorkerAt(w).ids)
    case Abort(w) => !s.WorkerAt(w).Idle?
  }

  ghost function Next(s: Sys, step: Step): Sys
    requires Enabled(s, step)
  {
    match step
    case Enqueue(eventType, payload) => s.(db := s.db.(rows := s.db.rows + [NewRow(eventType, payload, s.clock)]))
    case Register(user) => s.(users := s.users + {user})
    case Tick(seconds) => s.(clock := s.clock + seconds)
    case Claim(w, limit, ids) =>
      if ids == [] then s
      else
        s.(workers := s.workers[w := Holding(ids, Load(s.db.rows, ids), s.clock)],
           locks := s.locks + map id | id in Elements(ids) :: w)
    case Stamp(w) =>
      var k := s.WorkerAt(w);
      s.(workers := s.workers[w := Working(k.ids, k.loaded, k.since, s.clock, [], [])])
    case Process(w) =>
      var k := s.WorkerAt(w);
      var at := |k.done|;
      s.(workers := s.workers[w := k.(done := k.done + [Processed(k.loaded[at], k.now)],
                                      sends := k.sends + Sends(k.ids[at], k.loaded[at]))])
    case Publish(w) =>
      var k := s.WorkerAt(w);
      s.(db := Db(WriteBack(s.db.rows, k.ids, k.done), s.db.notes + k.sends)).Release(w)
    case Abort(w) => s.Release(w)
  }

  function Load(rows: seq<Row>, ids: seq<RowId>): (loaded: seq<Row>)
    requires forall i :: 0 <= i < |ids| ==> ids[i] < |rows|
    ensures |loaded| == |ids| && forall i :: 0 <= i < |ids| ==> loaded[i] == rows[ids[i]]
  {
    seq(|ids|, i requires 0 <= i < |ids| => rows[ids[i]])
  }

  function WriteBack(rows: seq<Row>, ids: seq<RowId>, versions: seq<Row>): (after: seq<Row>)
    requires |ids| == |versions| && forall i :: 0 <= i < |ids| ==> ids[i] < |rows|
    ensures |after| == |rows|
  {
    if ids == [] then rows
    else
      var last := |ids| - 1;
      WriteBack(rows, ids[..last], versions[..last])[ids[last] := versions[last]]
  }

  function SendsOf(ids: seq<RowId>, loaded: seq<Row>): seq<Note>
    requires |ids| == |loaded|
  {
    if ids == [] then []
    else
      var last := |ids| - 1;
      SendsOf(ids[..last], loaded[..last]) + Sends(ids[last], loaded[last])
  }

  /* ---------------- Runs ---------------- */

  ghost predicate Valid(s: Sys, steps: seq<Step>)
    decreases |steps|, 0
  {
    steps != [] ==> Valid(s, steps[..|steps| - 1]) && Enabled(Run(s, steps[..|steps| - 1]), steps[|steps| - 1])
  }

  ghost function Run(s: Sys, steps: seq<Step>): Sys
    requires Valid(s, steps)
    decreases |steps|, 1
  {
    if steps == [] then s
    else Next(Run(s, steps[..|steps| - 1]), steps[|steps| - 1])
  }

  /** The transactions a run commits, in commit order. Claims, private work and aborted batches are not there. */
  ghost function Log(s: Sys, steps: seq<Step>): seq<Commit>
    requires Valid(s, steps)
  {
    if steps == [] then []
    else Log(s, steps[..|steps| - 1]) + Committed(Run(s, steps[..|steps| - 1]), steps[|steps| - 1])
  }

  ghost function Committed(s: Sys, step: Step): seq<Commit>
    requires Enabled(s, step)
  {
    match step
    case Enqueue(eventType, payload) => [Enqueued(NewRow(eventType, payload, s.clock))]
    case Publish(w) => [Dispatched(s.WorkerAt(w).ids, s.WorkerAt(w).now)]
    case _ => []
  }

  /* ---------------- What every step keeps ---------------- */

  /** A worker's private copies are what the table holds, and were eligible when it claimed them. */
  ghost predicate Copies(db: Db, ids: seq<RowId>, loaded: seq<Row>, since: Time) {
    && InRange(db, ids) && NoDup(ids) && loaded == Load(db.rows, ids)
    && forall i :: 0 <= i < |ids| ==> Eligible(loaded[i], since)
  }

  /** Its private work is the loop body's on the rows so far, each of which passed the flush. */
  ghost predicate Progress(users: set<Id>, ids: seq<RowId>, loaded: seq<Row>, now: Time, done: seq<Row>, sends: seq<Note>) {
    && |done| <= |ids| == |loaded|
    && (forall i :: 0 <= i < |done| ==> done[i] == Processed(loaded[i], now) && Flushes(users, VerdictOf(loaded[i])))
    && sends == SendsOf(ids[..|done|], loaded[..|done|])
  }

  ghost predicate InStep(s: Sys, k: Worker) {
    match k
    case Idle => true
    case Holding(ids, loaded, since) => since <= s.clock && Copies(s.db, ids, loaded, since)
    case Working(ids, loaded, since, now, done, sends) =>
      && since <= now <= s.clock
      && Copies(s.db, ids, loaded, since)
      && Progress(s.users, ids, loaded, now, done, sends)
  }

  ghost predicate Locking(s: Sys) {
    forall w, id :: s.Holds(w, id) <==> id in s.locks && s.locks[id] == w
  }

  ghost predicate Inv(s: Sys) {
    Locking(s) && forall w :: InStep(s, s.WorkerAt(w))
  }

  /** No row is held by two workers. */
  lemma OneHolder(s: Sys, v: WorkerId, w: WorkerId, id: RowId)
    requires Inv(s) && s.Holds(v, id) && s.Holds(w, id)
    ensures v == w
  {
  }

  ghost predicate AllIdle(s: Sys) {
    forall v :: s.WorkerAt(v).Idle?
  }

  lemma NothingLocked(s: Sys)
    requires Inv(s) && AllIdle(s)
    ensures s.locks.Keys == {}
  {
    assert forall id :: id in s.locks ==> s.Holds(s.locks[id], id);
  }

  /** Publishing private row versions is the batch handled row by row on the tables. */
  lemma {:induction false} PublishIsBatch(db: Db, ids: seq<RowId>, versions: seq<Row>, now: Time)
    requires InRange(db, ids) && NoDup(ids) && |versions| == |ids|
    requires forall i :: 0 <= i < |ids| ==> versions[i] == Processed(db.rows[ids[i]], now)
    ensures RunBatch(db, ids, now) == Db(WriteBack(db.rows, ids, versions), db.notes + SendsOf(ids, Load(db.rows, ids)))
  {
    if ids != [] {
      var last := |ids| - 1;
      PublishIsBatch(db, ids[..last], versions[..last], now);
      BatchRows(db, ids[..last], now);
      assert ids[last] !in ids[..last];
      assert Load(db.rows, ids)[..last] == Load(db.rows, ids[..last]);
    }
  }

  lemma PublishStep(s: Sys, w: WorkerId)
    requires Inv(s) && Enabled(s, Publish(w))
    ensures var k := s.WorkerAt(w);
      && LegalCommit(s.db, Dispatched(k.ids, k.now))
      && Next(s, Publish(w)).db == RunBatch(s.db, k.ids, k.now)
  {
    var k := s.WorkerAt(w);
    assert InStep(s, k);
    assert k.ids[..|k.done|] == k.ids && k.loaded[..|k.done|] == k.loaded;
    PublishIsBatch(s.db, k.ids, k.done, k.now);
  }

  lemma ClaimLocking(s: Sys, w: WorkerId, limit: nat, ids: seq<RowId>)
    requires Inv(s) && Enabled(s, Claim(w, limit, ids))
    ensures Locking(Next(s, Claim(w, limit, ids)))
  {
    var t := Next(s, Claim(w, limit, ids));
    if ids != [] {
      forall v, id ensures t.Holds(v, id) <==> id in t.locks && t.locks[id] == v {
        assert s.Holds(v, id) <==> id in s.locks && s.locks[id] == v;
        if id in ids {
          assert id in Elements(ids) && id in Open(s.db.rows, s.locks.Keys, s.clock);
        }
      }
    }
  }

  lemma ReleaseLocking(s: Sys, t: Sys, w: WorkerId)
    requires Locking(s)
    requires t.workers == s.Release(w).workers && t.locks == s.Release(w).locks
    ensures Locking(t)
  {
    forall v, id ensures t.Holds(v, id) <==> id in t.locks && t.locks[id] == v {
      assert s.Holds(v, id) <==> id in s.locks && s.locks[id] == v;
    }
  }

  lemma LockingKept(s: Sys, step: Step)
    requires Inv(s) && Enabled(s, step)
    ensures Locking(Next(s, step))
  {
    var t := Next(s, step);
    match step
    case Claim(w, limit, ids) => ClaimLocking(s, w, limit, ids);
    case Publish(w) => ReleaseLocking(s, t, w);
    case Abort(w) => ReleaseLocking(s, t, w);
    case _ =>
      assert t.locks == s.locks;
      forall v, id ensures t.Holds(v, id) <==> s.Holds(v, id) {
        assert t.Held(v) == s.Held(v);
      }
  }

  /** Other workers' rows are left alone: they are locked by somebody else. */
  lemma OthersInStep(s: Sys, step: Step, v: WorkerId)
    requires Inv(s) && Enabled(s, step)
    requires Next(s, step).WorkerAt(v) == s.WorkerAt(v)
    ensures InStep(Next(s, step), s.WorkerAt(v))
  {
    var t, k := Next(s, step), s.WorkerAt(v);
    assert InStep(s, k);
    if step.Publish? && !k.Idle? {
      var w := step.worker;
      PublishStep(s, w);
      BatchRows(s.db, s.WorkerAt(w).ids, s.WorkerAt(w).now);
      forall i | 0 <= i < |k.ids| ensures t.db.rows[k.ids[i]] == s.db.rows[k.ids[i]] {
        assert s.Holds(v, k.ids[i]);
        if s.Holds(w, k.ids[i]) { OneHolder(s, v, w, k.ids[i]); }
      }
      assert k.loaded == Load(t.db.rows, k.ids);
    } else if step.Enqueue? && !k.Idle? {
      assert k.loaded == Load(t.db.rows, k.ids);
    }
  }

  lemma OneMoreRow(users: set<Id>, ids: seq<RowId>, loaded: seq<Row>, now: Time, done: seq<Row>, sends: seq<Note>)
    requires Progress(users, ids, loaded, now, done, sends) && |done| < |ids|
    requires Flushes(users, VerdictOf(loaded[|done|]))
    ensures Progress(users, ids, loaded, now, done + [Processed(loaded[|done|], now)], sends + Sends(ids[|done|], loaded[|done|]))
  {
    var at := |done|;
    assert ids[..at + 1][..at] == ids[..at] && loaded[..at + 1][..at] == loaded[..at];
  }

  lemma ProcessInStep(s: Sys, w: WorkerId)
    requires InStep(s, s.WorkerAt(w)) && Enabled(s, Process(w))
    ensures InStep(s, Next(s, Process(w)).WorkerAt(w))
  {
    var k := s.WorkerAt(w);
    OneMoreRow(s.users, k.ids, k.loaded, k.now, k.done, k.sends);
    hide Progress, Copies;
  }

  lemma OwnInStep(s: Sys, step: Step, w: WorkerId)
    requires Inv(s) && Enabled(s, step)
    requires Next(s, step).WorkerAt(w) != s.WorkerAt(w)
    ensures InStep(Next(s, step), Next(s, step).WorkerAt(w))
  {
    assert InStep(s, s.WorkerAt(w));
    match step
    case Process(_) => ProcessInStep(s, w);
    case Claim(_, _, _) =>
    case Stamp(_) =>
    case _ =>
  }

  lemma InvKept(s: Sys, step: Step)
    requires Inv(s) && Enabled(s, step)
    ensures Inv(Next(s, step))
  {
    LockingKept(s, step);
    forall w ensures InStep(Next(s, step), Next(s, step).WorkerAt(w)) {
      if Next(s, step).WorkerAt(w) == s.WorkerAt(w) {
        OthersInStep(s, step, w);
      } else {
        OwnInStep(s, step, w);
      }
    }
  }

  /* ---------------- Main results ---------------- */

  /** Concurrent dispatch is serialisable: the committed tables after any interleaving are those of the committed
      transactions run whole, one at a time, in commit order, each dispatch over rows eligible at its turn. */
  lemma {:induction false} Serialisable(now: Time, steps: seq<Step>)
    requires Valid(Start(now), steps)
    ensures Inv(Run(Start(now), steps))
    ensures Legal(Log(Start(now), steps))
    ensures Run(Start(now), steps).db == Replay(Log(Start(now), steps))
    decreases |steps|
  {
    if steps == [] {
      assert Inv(Start(now));
    } else {
      var before, step := steps[..|steps| - 1], steps[|steps| - 1];
      Serialisable(now, before);
      var s := Run(Start(now), before);
      InvKept(s, step);
      match step
      case Enqueue(eventType, payload) =>
        ReplayStep(Log(Start(now), before), Enqueued(NewRow(eventType, payload, s.clock)));
      case Publish(w) =>
        PublishStep(s, w);
        ReplayStep(Log(Start(now), before), Dispatched(s.WorkerAt(w).ids, s.WorkerAt(w).now));
      case _ =>
        assert Log(Start(now), steps) == Log(Start(now), before);
    }
  }

  /** In every reachable state: each SENT row has exactly its one notification and every other row none, every row
      is in a lawful state, and no two workers hold the same row. */
  lemma ExactlyOnceDelivery(now: Time, steps: seq<Step>)
    requires Valid(Start(now), steps)
    ensures Consistent(Run(Start(now), steps).db)
    ensures forall v, w, id :: Run(Start(now), steps).Holds(v, id) && Run(Start(now), steps).Holds(w, id) ==> v == w
  {
    Serialisable(now, steps);
    ReplayConsistent(Log(Start(now), steps));
  }

  /* ---------------- When a batch commits ---------------- */

  /** Only if: nothing is published unless every row of its batch passes the flush. */
  lemma PublishOnlyIfAllFlush(s: Sys, w: WorkerId)
    requires Inv(s) && Enabled(s, Publish(w))
    ensures forall i :: 0 <= i < |s.WorkerAt(w).ids| ==> Flushes(s.users, VerdictOf(s.db.rows[s.WorkerAt(w).ids[i]]))
  {
    assert InStep(s, s.WorkerAt(w));
  }

  lemma EmptyRun(s: Sys)
    ensures Valid(s, []) && Run(s, []) == s && Log(s, []) == []
  {
  }

  /** A run goes on from where another stopped, and what it commits is appended to the log. */
  lemma {:induction false} RunConcat(s: Sys, a: seq<Step>, b: seq<Step>)
    requires Valid(s, a) && Valid(Run(s, a), b)
    ensures Valid(s, a + b) && Run(s, a + b) == Run(Run(s, a), b)
    ensures Log(s, a + b) == Log(s, a) + Log(Run(s, a), b)
    decreases |b|
  {
    hide Enabled, Next, Committed;
    if b == [] {
      assert a + b == a;
    } else {
      RunConcat(s, a, b[..|b| - 1]);
      assert (a + b)[..|a + b| - 1] == a + b[..|b| - 1];
    }
  }

  /** Claim, stamp the clock, then handle the first n rows. */
  function Opening(w: WorkerId, limit: nat, ids: seq<RowId>, n: nat): seq<Step> {
    if n == 0 then [Claim(w, limit, ids), Stamp(w)] else Opening(w, limit, ids, n - 1) + [Process(w)]
  }

  lemma RunSnoc(s: Sys, steps: seq<Step>, step: Step)
    requires Valid(s, steps) && Enabled(Run(s, steps), step)
    ensures Valid(s, steps + [step]) && Run(s, steps + [step]) == Next(Run(s, steps), step)
  {
    assert (steps + [step])[..|steps + [step]| - 1] == steps;
  }

  /** Worker w has stamped the clock and handled the first n rows of its claim on s. */
  ghost predicate Underway(s: Sys, t: Sys, w: WorkerId, ids: seq<RowId>, n: nat) {
    var k := t.WorkerAt(w);
    && Inv(t) && t.db == s.db && t.users == s.users
    && k.Working? && k.ids == ids && |k.done| == n && k.now == s.clock
    && k.loaded == Load(s.db.rows, ids)
  }

  lemma ClaimThenStamp(s: Sys, w: WorkerId, limit: nat, ids: seq<RowId>)
    requires Inv(s) && Enabled(s, Claim(w, limit, ids)) && ids != []
    ensures var held := Next(s, Claim(w, limit, ids));
      Enabled(held, Stamp(w)) && Underway(s, Next(held, Stamp(w)), w, ids, 0)
  {
    var claim := Claim(w, limit, ids);
    InvKept(s, claim);
    InvKept(Next(s, claim), Stamp(w));
    hide Inv, IsClaim;
  }

  /** The time stamped is that of the clock after the claim, however long it has been. */
  lemma StampIsLater(s: Sys, w: WorkerId, limit: nat, ids: seq<RowId>, seconds: nat)
    requires Enabled(s, Claim(w, limit, ids)) && ids != []
    ensures var held := Next(Next(s, Claim(w, limit, ids)), Tick(seconds));
      && Enabled(held, Stamp(w))
      && Next(held, Stamp(w)).WorkerAt(w) == Working(ids, Load(s.db.rows, ids), s.clock, s.clock + seconds, [], [])
  {
    hide IsClaim;
  }

  lemma OpeningStarts(s: Sys, w: WorkerId, limit: nat, ids: seq<RowId>)
    requires Inv(s) && Enabled(s, Claim(w, limit, ids)) && ids != []
    ensures Valid(s, Opening(w, limit, ids, 0)) && Underway(s, Run(s, Opening(w, limit, ids, 0)), w, ids, 0)
  {
    hide Next, Inv, Enabled, Underway;
    var claim := Claim(w, limit, ids);
    ClaimThenStamp(s, w, limit, ids);
    RunSnoc(s, [], claim);
    assert [] + [claim] == [claim];
    RunSnoc(s, [claim], Stamp(w));
    assert [claim] + [Stamp(w)] == [claim, Stamp(w)];
  }

  lemma ProcessContinues(s: Sys, t: Sys, w: WorkerId, ids: seq<RowId>, n: nat)
    requires Underway(s, t, w, ids, n) && n < |ids|
    requires Flushes(s.users, VerdictOf(s.db.rows[ids[n]]))
    ensures Enabled(t, Process(w)) && Underway(s, Next(t, Process(w)), w, ids, n + 1)
  {
    InvKept(t, Process(w));
  }

  lemma {:induction false} OpeningRuns(s: Sys, w: WorkerId, limit: nat, ids: seq<RowId>, n: nat)
    requires Inv(s) && Enabled(s, Claim(w, limit, ids)) && ids != [] && n <= |ids|
    requires forall i :: 0 <= i < |ids| ==> Flushes(s.users, VerdictOf(s.db.rows[ids[i]]))
    ensures Valid(s, Opening(w, limit, ids, n)) && Underway(s, Run(s, Opening(w, limit, ids, n)), w, ids, n)
  {
    hide Underway, Next, Inv, Enabled, Flushes, VerdictOf;
    if n == 0 {
      OpeningStarts(s, w, limit, ids);
    } else {
      OpeningRuns(s, w, limit, ids, n - 1);
      ProcessContinues(s, Run(s, Opening(w, limit, ids, n - 1)), w, ids, n - 1);
      RunSnoc(s, Opening(w, limit, ids, n - 1), Process(w));
    }
  }

  /** If: a dispatch whose rows all pass the flush can run to the end, and then it is one serial batch.
      With `PublishOnlyIfAllFlush`, this is exactly when a claimed batch commits. */
  lemma DispatchRuns(s: Sys, w: WorkerId, limit: nat, ids: seq<RowId>)
    requires Inv(s) && Enabled(s, Claim(w, limit, ids)) && ids != []
    requires forall i :: 0 <= i < |ids| ==> Flushes(s.users, VerdictOf(s.db.rows[ids[i]]))
    ensures var steps := Opening(w, limit, ids, |ids|) + [Publish(w)];
      Valid(s, steps) && Run(s, steps).db == RunBatch(s.db, ids, s.clock) && Run(s, steps).WorkerAt(w).Idle?
  {
    OpeningRuns(s, w, limit, ids, |ids|);
    var t := Run(s, Opening(w, limit, ids, |ids|));
    assert InStep(t, t.WorkerAt(w));
    PublishStep(t, w);
    RunSnoc(s, Opening(w, limit, ids, |ids|), Publish(w));
  }

  lemma RunInv(now: Time, steps: seq<Step>)
    requires Valid(Start(now), steps)
    ensures Inv(Run(Start(now), steps))
  {
    Serialisable(now, steps);
  }

  /** A row nobody publishes stays as it is. */
  lemma UnpublishedStays(s: Sys, step: Step, id: RowId)
    requires Inv(s) && Enabled(s, step) && id < |s.db.rows|
    requires step.Publish? ==> id !in s.WorkerAt(step.worker).ids
    ensures id < |Next(s, step).db.rows| && Next(s, step).db.rows[id] == s.db.rows[id]
  {
    if step.Publish? {
      PublishStep(s, step.worker);
      BatchRows(s.db, s.WorkerAt(step.worker).ids, s.WorkerAt(step.worker).now);
    }
  }

  lemma RowCount(s: Sys, step: Step)
    requires Inv(s) && Enabled(s, step)
    ensures |Next(s, step).db.rows| == |s.db.rows| + if step.Enqueue? then 1 else 0
    ensures step.Enqueue? ==>
              Next(s, step).db.rows == s.db.rows + [Row(step.eventType, step.payload, PENDING, 0, None, None, s.clock, None)]
  {
  }

  /** Publishing changes a row's state, not its text, and so not the verdict on it. */
  lemma TextKept(s: Sys, step: Step, id: RowId)
    requires Inv(s) && Enabled(s, step) && id < |s.db.rows|
    ensures id < |Next(s, step).db.rows|
    ensures Next(s, step).db.rows[id].eventType == s.db.rows[id].eventType && Next(s, step).db.rows[id].payload == s.db.rows[id].payload
  {
    if step.Publish? {
      PublishStep(s, step.worker);
      BatchRows(s.db, s.WorkerAt(step.worker).ids, s.WorkerAt(step.worker).now);
    }
  }

  /** A deliverable row whose notification is over the column width is never SENT, never FAILED and never backs
      off, in any run: whoever claims it rolls the whole batch back. */
  lemma {:induction false} OversizedNeverSettles(now: Time, steps: seq<Step>, id: RowId)
    requires Valid(Start(now), steps) && id < |Run(Start(now), steps).db.rows|
    requires Oversized(Run(Start(now), steps).db.rows[id])
    ensures Run(Start(now), steps).db.rows[id].status == PENDING
    decreases |steps|
  {
    hide Next, Inv, Enabled, Judge;
    if steps != [] {
      var before, step := steps[..|steps| - 1], steps[|steps| - 1];
      var s := Run(Start(now), before);
      RunInv(now, before);
      RowCount(s, step);
      if id < |s.db.rows| {
        TextKept(s, step, id);
        OversizedNeverSettles(now, before, id);
        if step.Publish? {
          PublishOnlyIfAllFlush(s, step.worker);
        }
        UnpublishedStays(s, step, id);
      }
    }
  }

  lemma {:induction false} InvForever(s: Sys, steps: seq<Step>)
    requires Inv(s) && Valid(s, steps)
    ensures Inv(Run(s, steps))
  {
    hide Inv, Enabled, Next;
    if steps != [] {
      InvForever(s, steps[..|steps| - 1]);
      InvKept(Run(s, steps[..|steps| - 1]), steps[|steps| - 1]);
    }
  }
}
