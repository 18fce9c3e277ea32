/** The outbox as one sequential program: whole transactions, one after the other.
    Every run of interleaved dispatchers is shown, in `Workers`, to be one of these. */
module Serial {
  import opened Prelude
  import opened Outbox

  datatype Db = Db(rows: seq<Row>, notes: seq<Note>)

  /** A committed transaction: an insert, or one dispatch of the rows `ids` stamped `now`. */
  datatype Commit = Enqueued(row: Row) | Dispatched(ids: seq<RowId>, now: Time)

  predicate InRange(db: Db, ids: seq<RowId>) {
    forall i :: 0 <= i < |ids| ==> ids[i] < |db.rows|
  }

  /** Every named row can be flushed. */
  ghost predicate AllFlush(db: Db, users: set<Id>, ids: seq<RowId>)
    requires InRange(db, ids)
  {
    forall i :: 0 <= i < |ids| ==> Flushes(users, VerdictOf(db.rows[ids[i]]))
  }

  /** One row handled in place. */
  function Handle(db: Db, id: RowId, now: Time): Db
    requires id < |db.rows|
  {
    Db(db.rows[id := Processed(db.rows[id], now)], db.notes + Sends(id, db.rows[id]))
  }

  /** The rows of a batch handled one after the other, directly on the tables. */
  function RunBatch(db: Db, ids: seq<RowId>, now: Time): (after: Db)
    requires InRange(db, ids)
    ensures |after.rows| == |db.rows|
    decreases |ids|
  {
    if ids == [] then db
    else
      var last := |ids| - 1;
      Handle(RunBatch(db, ids[..last], now), ids[last], now)
  }

  ghost predicate LegalCommit(db: Db, c: Commit) {
    match c
    case Enqueued(row) => row == NewRow(row.eventType, row.payload, row.createdAt)
    case Dispatched(ids, now) =>
      && InRange(db, ids)
      && NoDup(ids)
      && forall i :: 0 <= i < |ids| ==> Eligible(db.rows[ids[i]], now)
  }

  ghost function Redo(db: Db, c: Commit): Db
    requires LegalCommit(db, c)
  {
    match c
    case Enqueued(row) => db.(rows := db.rows + [row])
    case Dispatched(ids, now) => RunBatch(db, ids, now)
  }

  /** Each dispatch in the log is over distinct rows that are eligible when its turn comes. */
  ghost predicate Legal(log: seq<Commit>)
    decreases |log|, 0
  {
    log != [] ==>
      Legal(log[..|log| - 1]) && LegalCommit(Replay(log[..|log| - 1]), log[|log| - 1])
  }

  /** The tables after the logged transactions, run one at a time from an empty database. */
  ghost function Replay(log: seq<Commit>): Db
    requires Legal(log)
    decreases |log|, 1
  {
    if log == [] then Db([], [])
    else Redo(Replay(log[..|log| - 1]), log[|log| - 1])
  }

  lemma ReplayStep(log: seq<Commit>, c: Commit)
    requires Legal(log) && LegalCommit(Replay(log), c)
    ensures Legal(log + [c]) && Replay(log + [c]) == Redo(Replay(log), c)
  {
    assert (log + [c])[..|log + [c]| - 1] == log;
  }

  /** Handling a batch touches the named rows, each once, and no other. */
  lemma {:induction false} BatchRows(db: Db, ids: seq<RowId>, now: Time)
    requires InRange(db, ids) && NoDup(ids)
    ensures var after := RunBatch(db, ids, now);
      forall r: RowId :: r < |db.rows| ==>
        after.rows[r] == if r in ids then Processed(db.rows[r], now) else db.rows[r]
  {
    if ids != [] {
      var last := |ids| - 1;
      BatchRows(db, ids[..last], now);
      assert ids == ids[..last] + [ids[last]];
      assert ids[last] !in ids[..last];
    }
  }

  /* ---------------- Exactly once ---------------- */

  /** The notifications made from one row, in order. */
  function NotesFrom(notes: seq<Note>, id: RowId): seq<Note> {
    if notes == [] then []
    else
      var last := |notes| - 1;
      NotesFrom(notes[..last], id) + if notes[last].origin == id then [notes[last]] else []
  }

  lemma {:induction false} NotesFromConcat(a: seq<Note>, b: seq<Note>, id: RowId)
    ensures NotesFrom(a + b, id) == NotesFrom(a, id) + NotesFrom(b, id)
  {
    if b == [] {
      assert a + b == a;
    } else {
      var last := |b| - 1;
      assert (a + b)[..|a + b| - 1] == a + b[..last];
      NotesFromConcat(a, b[..last], id);
    }
  }

  /** Committed notifications and SENT rows are in bijection: a SENT row has exactly the one notification its
      event calls for, any other row has none, and no notification lacks its row. */
  ghost predicate ExactlyOnce(db: Db) {
    && (forall id: RowId :: id < |db.rows| ==>
          NotesFrom(db.notes, id) == if db.rows[id].status == SENT then Sends(id, db.rows[id]) else [])
    && (forall id: RowId :: id >= |db.rows| ==> NotesFrom(db.notes, id) == [])
    && (forall k :: 0 <= k < |db.notes| ==> db.notes[k].origin < |db.rows|)
  }

  /* ---------------- The life of a row ---------------- */

  ghost predicate WellFormed(row: Row) {
    match row.status
    case PENDING => row.attempts == 0 && row.lastError.None? && row.nextRetryAt.None? && row.sentAt.None?
    case FAILED =>
      && row.attempts >= 1 && row.nextRetryAt.Some? && row.sentAt.None?
      && row.lastError.Some? && |row.lastError.value| <= MAX_ERROR
      && VerdictOf(row).Reject?
    case SENT =>
      && row.sentAt.Some? && row.lastError.None? && row.nextRetryAt.None?
      && row.attempts == 0 && VerdictOf(row).Deliver?
  }

  ghost predicate Consistent(db: Db) {
    ExactlyOnce(db) && forall id: RowId :: id < |db.rows| ==> WellFormed(db.rows[id])
  }

  lemma ProcessedWellFormed(row: Row, now: Time)
    requires WellFormed(row) && Eligible(row, now)
    ensures WellFormed(Processed(row, now))
    ensures Processed(row, now).status == SENT <==> VerdictOf(row).Deliver?
  {
  }

  lemma HandleConsistent(db: Db, id: RowId, now: Time)
    requires Consistent(db) && id < |db.rows| && Eligible(db.rows[id], now)
    ensures Consistent(Handle(db, id, now))
  {
    var row := db.rows[id];
    ProcessedWellFormed(row, now);
    forall r: RowId
      ensures NotesFrom(Sends(id, row), r) == if r == id then Sends(id, row) else []
    {
      var sends := Sends(id, row);
      if sends != [] {
        assert sends[..0] == [];
        assert NotesFrom(sends[..0], r) == [];
      }
    }
    var after := Handle(db, id, now);
    forall r: RowId
      ensures NotesFrom(after.notes, r) == NotesFrom(db.notes, r) + if r == id then Sends(id, row) else []
    {
      NotesFromConcat(db.notes, Sends(id, row), r);
    }
  }

  lemma {:induction false} BatchConsistent(db: Db, ids: seq<RowId>, now: Time)
    requires Consistent(db) && InRange(db, ids) && NoDup(ids)
    requires forall i :: 0 <= i < |ids| ==> Eligible(db.rows[ids[i]], now)
    ensures Consistent(RunBatch(db, ids, now))
  {
    if ids != [] {
      var last := |ids| - 1;
      BatchConsistent(db, ids[..last], now);
      BatchRows(db, ids[..last], now);
      assert ids[last] !in ids[..last];
      HandleConsistent(RunBatch(db, ids[..last], now), ids[last], now);
    }
  }

  lemma EnqueueConsistent(db: Db, row: Row)
    requires Consistent(db) && LegalCommit(db, Enqueued(row))
    ensures Consistent(Redo(db, Enqueued(row)))
  {
  }

  lemma {:induction false} ReplayConsistent(log: seq<Commit>)
    requires Legal(log)
    ensures Consistent(Replay(log))
  {
    hide Consistent;
    if log == [] {
      assert Consistent(Db([], [])) by { EmptyConsistent(); }
    } else {
      var before := log[..|log| - 1];
      ReplayConsistent(before);
      match log[|log| - 1]
      case Enqueued(row) => EnqueueConsistent(Replay(before), row);
      case Dispatched(ids, now) => BatchConsistent(Replay(before), ids, now);
    }
  }

  lemma EmptyConsistent()
    ensures Consistent(Db([], []))
  {
  }

  /** How a row may change from one moment to a later one: its text never changes, SENT is final and
      `attempts` never falls. */
  ghost predicate Follows(before: Row, after: Row) {
    && after.eventType == before.eventType && after.payload == before.payload && after.createdAt == before.createdAt
    && before.attempts <= after.attempts
    && (before.status == SENT ==> after == before)
    && (after.status == PENDING ==> before == after)
  }

  lemma {:induction false} RowsOnlyAdvance(log: seq<Commit>, k: nat)
    requires Legal(log) && k <= |log|
    ensures Legal(log[..k])
    ensures |Replay(log[..k]).rows| <= |Replay(log).rows|
    ensures forall id: RowId :: id < |Replay(log[..k]).rows| ==>
              Follows(Replay(log[..k]).rows[id], Replay(log).rows[id])
  {
    if k == |log| {
      assert log[..k] == log;
      ReplayConsistent(log);
    } else {
      var before := log[..|log| - 1];
      RowsOnlyAdvance(before, k);
      assert before[..k] == log[..k];
      ReplayConsistent(before);
      if log[|log| - 1].Dispatched? {
        BatchRows(Replay(before), log[|log| - 1].ids, log[|log| - 1].now);
      }
    }
  }
}
