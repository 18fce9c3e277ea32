/** A row nobody can ever deliver, near the head of the outbox, stops a lone dispatcher for good: exactly when. */
module Blocking {
  import opened Prelude
  import opened Outbox
  import opened Serial
  import opened Claims
  import opened Workers

  /** The unsent rows that can be handled and are no younger than row `id`. */
  function Ahead(rows: seq<Row>, id: RowId): set<RowId>
    requires id < |rows|
  {
    set r: RowId | r < |rows| && rows[r].status != SENT && !Oversized(rows[r]) && rows[r].createdAt <= rows[id].createdAt
  }

  /** An unsent oversized row with too few rows ahead of it to fill a batch. */
  predicate Blocker(rows: seq<Row>, id: RowId, limit: nat) {
    && id < |rows| && Oversized(rows[id])
    && rows[id].status == PENDING && rows[id].nextRetryAt.None?
    && |Ahead(rows, id)| < limit
  }

  ghost predicate HoldsOversized(s: Sys, w: WorkerId) {
    exists r: RowId :: s.Holds(w, r) && r < |s.db.rows| && Oversized(s.db.rows[r])
  }

  /** There is a blocker; nobody but `w` is at work, and if `w` is, then on a batch with an oversized row in it. */
  ghost predicate Blocked(s: Sys, w: WorkerId, id: RowId, limit: nat) {
    && Inv(s) && Blocker(s.db.rows, id, limit)
    && (forall v :: v != w ==> s.WorkerAt(v).Idle?)
    && (s.WorkerAt(w).Idle? || HoldsOversized(s, w))
  }

  /** A step of the surroundings, or of `w` claiming at least `limit` rows. */
  predicate Alone(step: Step, w: WorkerId, limit: nat) {
    match step
    case Enqueue(_, _) => true
    case Register(_) => true
    case Tick(_) => true
    case Claim(v, l, _) => v == w && l >= limit
    case _ => step.worker == w
  }

  /** Too few rows fit, so the claim reaches an oversized one. */
  lemma ClaimTakesOversized(rows: seq<Row>, now: Time, id: RowId, limit: nat, l: nat, ids: seq<RowId>)
    requires Blocker(rows, id, limit) && l >= limit && IsClaim(rows, {}, now, l, ids)
    ensures exists i :: 0 <= i < |ids| && ids[i] < |rows| && Oversized(rows[ids[i]])
  {
    ClaimFacts(rows, now, l, ids);
    var open := Open(rows, {}, now);
    assert id in open;
    if forall i :: 0 <= i < |ids| ==> !Oversized(rows[ids[i]]) {
      assert id !in ids;
      forall r | r in Elements(ids) ensures r in Ahead(rows, id) {
        var i :| 0 <= i < |ids| && ids[i] == r;
        assert ids[i] in open;
      }
      SubsetSize(Elements(ids), Ahead(rows, id));
      SubsetSize(Elements(ids), open);
    }
  }

  lemma CannotPublish(s: Sys, w: WorkerId, id: RowId, limit: nat)
    requires Blocked(s, w, id, limit)
    ensures !Enabled(s, Publish(w))
  {
    assert s.WorkerAt(w).Idle? || HoldsOversized(s, w);
    if Enabled(s, Publish(w)) { PublishOnlyIfAllFlush(s, w); }
  }

  /** The row was enqueued before the present second, so rows enqueued from now on are younger. */
  predicate Earlier(s: Sys, id: RowId) {
    id < |s.db.rows| && s.db.rows[id].createdAt < s.clock
  }

  lemma StaysBlocker(s: Sys, id: RowId, limit: nat, step: Step)
    requires Blocker(s.db.rows, id, limit) && Enabled(s, step) && !step.Publish? && (step.Enqueue? ==> Earlier(s, id))
    ensures Blocker(Next(s, step).db.rows, id, limit)
    ensures Earlier(s, id) ==> Earlier(Next(s, step), id)
    ensures Next(s, step).db.notes == s.db.notes && s.db.rows <= Next(s, step).db.rows
  {
    assert Ahead(Next(s, step).db.rows, id) == Ahead(s.db.rows, id);
    hide Oversized, IsClaim;
  }

  lemma ClaimHoldsOversized(s: Sys, w: WorkerId, id: RowId, limit: nat, step: Step)
    requires Blocked(s, w, id, limit) && Enabled(s, step) && Alone(step, w, limit) && step.Claim? && step.ids != []
    ensures HoldsOversized(Next(s, step), w)
  {
    NothingLocked(s);
    ClaimTakesOversized(s.db.rows, s.clock, id, limit, step.limit, step.ids);
    hide Inv, IsClaim, Blocker, Oversized;
    var i :| 0 <= i < |step.ids| && step.ids[i] < |s.db.rows| && Oversized(s.db.rows[step.ids[i]]);
    assert Next(s, step).Holds(w, step.ids[i]);
  }

  lemma StillHoldsOversized(s: Sys, w: WorkerId, step: Step)
    requires HoldsOversized(s, w) && Enabled(s, step) && !step.Publish?
    requires Next(s, step).Held(w) == s.Held(w)
    ensures HoldsOversized(Next(s, step), w)
  {
    hide IsClaim, Oversized;
    var r: RowId :| s.Holds(w, r) && r < |s.db.rows| && Oversized(s.db.rows[r]);
    assert Next(s, step).Holds(w, r);
  }

  lemma StaysHeld(s: Sys, w: WorkerId, id: RowId, limit: nat, step: Step)
    requires Blocked(s, w, id, limit) && Enabled(s, step) && Alone(step, w, limit) && !step.Publish?
    ensures forall v :: v != w ==> Next(s, step).WorkerAt(v).Idle?
    ensures Next(s, step).WorkerAt(w).Idle? || HoldsOversized(Next(s, step), w)
  {
    hide Inv, IsClaim, Blocker, HoldsOversized;
    var t := Next(s, step);
    assert forall v :: v != w ==> t.WorkerAt(v) == s.WorkerAt(v);
    if step.Claim? && step.ids != [] {
      ClaimHoldsOversized(s, w, id, limit, step);
    } else if !t.WorkerAt(w).Idle? {
      assert t.Held(w) == s.Held(w);
      StillHoldsOversized(s, w, step);
    }
  }

  lemma StaysBlocked(s: Sys, w: WorkerId, id: RowId, limit: nat, step: Step)
    requires Blocked(s, w, id, limit) && Enabled(s, step) && Alone(step, w, limit) && (step.Enqueue? ==> Earlier(s, id))
    ensures Blocked(Next(s, step), w, id, limit) && !step.Publish?
    ensures Earlier(s, id) ==> Earlier(Next(s, step), id)
    ensures Next(s, step).db.notes == s.db.notes
    ensures s.db.rows <= Next(s, step).db.rows
  {
    CannotPublish(s, w, id, limit);
    assert step.Publish? ==> step == Publish(w);
    InvKept(s, step);
    StaysBlocker(s, id, limit, step);
    StaysHeld(s, w, id, limit, step);
    hide Inv, IsClaim, Blocker, HoldsOversized, Next, Enabled, Earlier;
  }

  /** From then on a lone dispatcher that claims at least `limit` rows at a time never commits again, in any run of
      claims, aborts, registrations and time passing, and of enqueues in later seconds: no row changes and nothing is
      delivered. */
  lemma {:induction false} OversizedBlocksForGood(s: Sys, w: WorkerId, id: RowId, limit: nat, steps: seq<Step>)
    requires Blocked(s, w, id, limit) && Valid(s, steps)
    requires forall k :: 0 <= k < |steps| ==> Alone(steps[k], w, limit)
    requires Earlier(s, id) || forall k :: 0 <= k < |steps| ==> !steps[k].Enqueue?
    ensures Blocked(Run(s, steps), w, id, limit) && (Earlier(s, id) ==> Earlier(Run(s, steps), id))
    ensures forall k :: 0 <= k < |steps| ==> !steps[k].Publish?
    ensures Run(s, steps).db.notes == s.db.notes
    ensures s.db.rows <= Run(s, steps).db.rows
    decreases |steps|
  {
    hide Blocked, Enabled, Next, Alone, Earlier;
    if steps != [] {
      OversizedBlocksForGood(s, w, id, limit, steps[..|steps| - 1]);
      StaysBlocked(Run(s, steps[..|steps| - 1]), w, id, limit, steps[|steps| - 1]);
    }
  }

  /* ---------------- The converse ---------------- */

  predicate AtLimit(step: Step, w: WorkerId, limit: nat) {
    Alone(step, w, limit) && !step.Enqueue? && (step.Claim? ==> step.limit == limit)
  }

  /** A run in which the lone dispatcher, claiming `limit` rows at a time, commits a batch, with nothing enqueued. */
  ghost predicate Commits(s: Sys, w: WorkerId, limit: nat, steps: seq<Step>) {
    && Valid(s, steps)
    && (forall k :: 0 <= k < |steps| ==> AtLimit(steps[k], w, limit))
    && Publish(w) in steps
  }

  /** The steps that register every assignee of the first n rows. */
  function Registrations(rows: seq<Row>, n: nat): seq<Step>
    requires n <= |rows|
  {
    if n == 0 then []
    else Registrations(rows, n - 1) + match VerdictOf(rows[n - 1])
                                      case Deliver(user, _) => [Register(user)]
                                      case Reject(_) => []
  }

  lemma {:induction false} AllRegistered(s: Sys, n: nat)
    requires n <= |s.db.rows|
    ensures var steps := Registrations(s.db.rows, n);
      && Valid(s, steps)
      && (forall k :: 0 <= k < |steps| ==> steps[k].Register?)
      && Run(s, steps) == s.(users := Run(s, steps).users)
      && forall r: RowId :: r < n && VerdictOf(s.db.rows[r]).Deliver? ==> VerdictOf(s.db.rows[r]).user in Run(s, steps).users
  {
    hide Judge, Valid, Run, IsClaim;
    if n == 0 {
      EmptyRun(s);
    } else {
      AllRegistered(s, n - 1);
      match VerdictOf(s.db.rows[n - 1])
      case Deliver(user, _) => RunSnoc(s, Registrations(s.db.rows, n - 1), Register(user));
      case Reject(_) => assert Registrations(s.db.rows, n) == Registrations(s.db.rows, n - 1);
    }
  }

  function LatestRetry(rows: seq<Row>): (latest: Time)
    ensures forall r: RowId :: r < |rows| && rows[r].nextRetryAt.Some? ==> rows[r].nextRetryAt.value <= latest
  {
    if rows == [] then 0
    else
      var last := rows[|rows| - 1];
      var rest := LatestRetry(rows[..|rows| - 1]);
      if last.nextRetryAt.Some? && last.nextRetryAt.value > rest then last.nextRetryAt.value else rest
  }

  /** Everything unsent is due and everybody is registered. */
  ghost predicate Ready(s: Sys) {
    && Inv(s) && AllIdle(s)
    && (forall r: RowId :: r < |s.db.rows| && s.db.rows[r].status != SENT ==> Eligible(s.db.rows[r], s.clock))
    && (forall r: RowId :: r < |s.db.rows| && VerdictOf(s.db.rows[r]).Deliver? ==> VerdictOf(s.db.rows[r]).user in s.users)
  }

  /** Register everybody and wait for the last retry time. */
  lemma GetReady(s: Sys, w: WorkerId, limit: nat) returns (steps: seq<Step>)
    requires Inv(s) && AllIdle(s)
    ensures Valid(s, steps) && Ready(Run(s, steps))
    ensures forall k :: 0 <= k < |steps| ==> steps[k].Register? || steps[k].Tick?
    ensures Run(s, steps).db == s.db
  {
    hide Inv, Judge, Run, Valid, Registrations;
    AllRegistered(s, |s.db.rows|);
    var before := Registrations(s.db.rows, |s.db.rows|);
    var t := Run(s, before);
    var tick := Tick(LatestRetry(t.db.rows));
    RunSnoc(s, before, tick);
    steps := before + [tick];
    InvForever(s, steps);
    WaitedEnough(t);
    assert forall v :: Run(s, steps).WorkerAt(v) == s.WorkerAt(v);
  }

  lemma WaitedEnough(t: Sys)
    ensures var u := Next(t, Tick(LatestRetry(t.db.rows)));
      && u == t.(clock := u.clock)
      && forall r: RowId :: r < |u.db.rows| && u.db.rows[r].status != SENT ==> Eligible(u.db.rows[r], u.clock)
  {
  }

  /** When everything is due and nothing blocks, some claim holds no oversized row. */
  lemma GoodClaim(s: Sys, limit: nat) returns (ids: seq<RowId>)
    requires Ready(s) && limit > 0 && forall id :: !Blocker(s.db.rows, id, limit)
    requires forall r: RowId :: r < |s.db.rows| ==> WellFormed(s.db.rows[r])
    requires exists r: RowId :: r < |s.db.rows| && s.db.rows[r].status != SENT
    ensures IsClaim(s.db.rows, {}, s.clock, limit, ids) && ids != []
    ensures forall i :: 0 <= i < |ids| ==> ids[i] < |s.db.rows| && !Oversized(s.db.rows[ids[i]])
  {
    var rows := s.db.rows;
    var open := Open(rows, {}, s.clock);
    var oversized := set r | r in open && Oversized(rows[r]);
    var due: RowId :| due < |rows| && rows[due].status != SENT;
    assert due in open;
    if oversized == {} {
      ids := ClaimFromPart(rows, s.clock, limit, open);
      forall i | 0 <= i < |ids| ensures !Oversized(rows[ids[i]]) {
        assert ids[i] !in oversized;
      }
    } else {
      var first := OldestOf(rows, oversized);
      assert first in oversized && !Blocker(rows, first, limit);
      PartIsAhead(rows, s.clock, first, oversized);
      ids := ClaimFromPart(rows, s.clock, limit, Ahead(rows, first));
    }
  }

  lemma PartIsAhead(rows: seq<Row>, now: Time, first: RowId, oversized: set<RowId>)
    requires forall r: RowId :: r < |rows| && rows[r].status != SENT ==> Eligible(rows[r], now)
    requires oversized == set r | r in Open(rows, {}, now) && Oversized(rows[r])
    requires IsOldest(rows, oversized, first)
    ensures Ahead(rows, first) <= Open(rows, {}, now)
    ensures forall p, r :: p in Ahead(rows, first) && r in Open(rows, {}, now) - Ahead(rows, first) ==> rows[p].createdAt <= rows[r].createdAt
  {
    hide Oversized;
    forall p, r | p in Ahead(rows, first) && r in Open(rows, {}, now) - Ahead(rows, first) ensures rows[p].createdAt <= rows[r].createdAt {
      if Oversized(rows[r]) {
        assert r in oversized && Before(rows, first, r);
      }
    }
  }

  /** A ready dispatcher commits a claim without oversized rows. */
  lemma CommitClaim(t: Sys, w: WorkerId, limit: nat, ids: seq<RowId>)
    requires Ready(t) && IsClaim(t.db.rows, {}, t.clock, limit, ids) && ids != []
    requires forall i :: 0 <= i < |ids| ==> ids[i] < |t.db.rows| && !Oversized(t.db.rows[ids[i]])
    ensures Commits(t, w, limit, Opening(w, limit, ids, |ids|) + [Publish(w)])
  {
    forall i | 0 <= i < |ids| ensures Flushes(t.users, VerdictOf(t.db.rows[ids[i]])) {
      assert !Oversized(t.db.rows[ids[i]]);
    }
    NothingLocked(t);
    DispatchRuns(t, w, limit, ids);
    OpeningAlone(w, limit, ids, |ids|);
    var dispatch := Opening(w, limit, ids, |ids|) + [Publish(w)];
    hide Inv, IsClaim, Ready, Flushes, Run, Valid, Opening, AllIdle, Oversized;
    assert Publish(w) == dispatch[|dispatch| - 1];
  }

  /** With something to send and nothing blocking, some run commits. */
  lemma CanCommit(s: Sys, w: WorkerId, limit: nat) returns (steps: seq<Step>)
    requires Inv(s) && AllIdle(s) && limit > 0 && Consistent(s.db)
    requires exists r: RowId :: r < |s.db.rows| && s.db.rows[r].status != SENT
    requires forall id :: !Blocker(s.db.rows, id, limit)
    ensures Commits(s, w, limit, steps)
  {
    assert forall r: RowId :: r < |s.db.rows| ==> WellFormed(s.db.rows[r]);
    hide Inv, IsClaim, Blocker, Ready, Run, Valid, Opening, Consistent, AllIdle, WellFormed;
    var before := GetReady(s, w, limit);
    var t := Run(s, before);
    var ids := GoodClaim(t, limit);
    CommitClaim(t, w, limit, ids);
    CommitsLater(s, w, limit, before, Opening(w, limit, ids, |ids|) + [Publish(w)]);
    steps := before + (Opening(w, limit, ids, |ids|) + [Publish(w)]);
  }

  lemma CommitsLater(s: Sys, w: WorkerId, limit: nat, before: seq<Step>, dispatch: seq<Step>)
    requires Valid(s, before) && forall k :: 0 <= k < |before| ==> before[k].Register? || before[k].Tick?
    requires Commits(Run(s, before), w, limit, dispatch)
    ensures Commits(s, w, limit, before + dispatch)
  {
    hide Run, Valid, Alone, Log, Enabled, Next;
    RunConcat(s, before, dispatch);
    forall k | 0 <= k < |before + dispatch| ensures AtLimit((before + dispatch)[k], w, limit) {
      if k < |before| { WaitingAtLimit(before[k], w, limit); }
    }
    assert (before + dispatch)[|before|..] == dispatch;
    var i :| 0 <= i < |dispatch| && dispatch[i] == Publish(w);
    assert (before + dispatch)[|before| + i] == Publish(w);
  }

  lemma WaitingAtLimit(step: Step, w: WorkerId, limit: nat)
    requires step.Register? || step.Tick?
    ensures AtLimit(step, w, limit)
  {
  }

  lemma {:induction false} OpeningAlone(w: WorkerId, limit: nat, ids: seq<RowId>, n: nat)
    ensures forall k :: 0 <= k < |Opening(w, limit, ids, n)| ==> AtLimit(Opening(w, limit, ids, n)[k], w, limit)
  {
    if n > 0 { OpeningAlone(w, limit, ids, n - 1); }
  }

  /** While something is unsent, a lone dispatcher that claims `limit` rows at a time can still commit a batch, given
      time and registrations, if and only if no unsent oversized row has fewer than `limit` other unsent rows that fit
      and are no younger. */
  lemma CommitsExactlyIf(s: Sys, w: WorkerId, limit: nat)
    requires Inv(s) && AllIdle(s) && limit > 0 && Consistent(s.db)
    requires exists r: RowId :: r < |s.db.rows| && s.db.rows[r].status != SENT
    ensures (exists steps :: Commits(s, w, limit, steps)) <==> !(exists id :: Blocker(s.db.rows, id, limit))
  {
    if id :| Blocker(s.db.rows, id, limit) {
      assert Blocked(s, w, id, limit);
      forall steps ensures !Commits(s, w, limit, steps) {
        if Valid(s, steps) && forall k :: 0 <= k < |steps| ==> AtLimit(steps[k], w, limit) {
          OversizedBlocksForGood(s, w, id, limit, steps);
          assert Publish(w) !in steps;
        }
      }
    } else {
      var steps := CanCommit(s, w, limit);
    }
  }
}
