/** The life of an outbox row, told from its text and from the times at which committed dispatches handled it. */
module RowLives {
  import opened Prelude
  import opened Outbox
  import opened Serial
  import opened Backoff
  import Workers

  /** The text is an assignment to somebody. */
  predicate Deliverable(row: Row) {
    row.eventType == TaskAssigned && row.payload.Object? && row.payload.event.assignedTo.Assigned?
  }

  /** The error any other text raises, the first that applies: the JSON decoder's, then the two of the service, then a
      missing key's, then the UUID parser's. */
  predicate Raises(row: Row, error: string) {
    match row.payload
    case Malformed(why) => error == why
    case NotAnObject => error == "Outbox payload must be a JSON object"
    case Object(event) =>
      match row.eventType
      case OtherType(name) => error == "Unsupported outbox event type: " + name
      case TaskAssigned =>
        match event.assignedTo
        case Missing => error == "'assigned_to'"
        case Unparsable(why) => error == why
        case Assigned(_) => false
  }

  /** `kept` is `whole`, cut to its first 1000 characters. */
  predicate Cut(kept: string, whole: string) {
    kept <= whole && |kept| == if |whole| <= 1000 then |whole| else 1000
  }

  /** 2, 4, 8, ... seconds, up to 256. */
  predicate Waits(attempts: nat, seconds: nat) {
    match attempts
    case 1 => seconds == 2
    case 2 => seconds == 4
    case 3 => seconds == 8
    case 4 => seconds == 16
    case 5 => seconds == 32
    case 6 => seconds == 64
    case 7 => seconds == 128
    case _ => attempts >= 8 && seconds == 256
  }

  lemma DelayWaits(attempts: nat)
    requires attempts >= 1
    ensures Waits(attempts, Delay(attempts))
  {
    assert Pow2(1) == 2 && Pow2(2) == 4 && Pow2(3) == 8 && Pow2(4) == 16;
    assert Pow2(5) == 32 && Pow2(6) == 64 && Pow2(7) == 128 && Pow2(8) == 256;
  }

  /** A row that dispatches handled at `times`, and the notifications made from it. */
  ghost predicate Lives(row: Row, times: seq<Time>, id: RowId, notes: seq<Note>) {
    if times == [] then
      && row.status == PENDING && row.attempts == 0 && row.lastError.None? && row.nextRetryAt.None? && row.sentAt.None?
      && notes == []
    else if Deliverable(row) then
      && |times| == 1
      && row.status == SENT && row.sentAt == Some(times[0])
      && row.attempts == 0 && row.lastError.None? && row.nextRetryAt.None?
      && notes == [Note(id, row.payload.event.assignedTo.user, row.payload.event)]
    else
      && row.status == FAILED && row.sentAt.None? && row.attempts == |times|
      && row.lastError.Some? && (exists error :: Raises(row, error) && Cut(row.lastError.value, error))
      && row.nextRetryAt.Some? && (exists wait: nat :: Waits(|times|, wait) && row.nextRetryAt.value == times[|times| - 1] + wait)
      && notes == []
  }

  lemma VerdictTold(row: Row)
    ensures Deliverable(row) <==> VerdictOf(row).Deliver?
    ensures Deliverable(row) ==> VerdictOf(row) == Deliver(row.payload.event.assignedTo.user, row.payload.event)
    ensures VerdictOf(row).Reject? ==> Raises(row, VerdictOf(row).error)
  {
  }

  /** One more pass over a row that is due. */
  lemma OnePass(row: Row, times: seq<Time>, id: RowId, notes: seq<Note>, now: Time)
    requires Lives(row, times, id, notes) && Eligible(row, now)
    ensures Lives(Processed(row, now), times + [now], id, notes + Sends(id, row))
  {
    var after := Processed(row, now);
    VerdictTold(row);
    if Deliverable(row) {
      assert times == [];
    } else {
      var error := VerdictOf(row).error;
      assert Raises(after, error) && Cut(after.lastError.value, error);
      DelayWaits(row.attempts + 1);
      assert Waits(|times + [now]|, Delay(row.attempts + 1));
    }
  }

  lemma LifeStep(db: Db, c: Commit, id: RowId, times: seq<Time>)
    requires LegalCommit(db, c) && id < |db.rows| && Lives(db.rows[id], times, id, NotesFrom(db.notes, id))
    ensures id < |Redo(db, c).rows|
    ensures Lives(Redo(db, c).rows[id], times + PassesIn(c, id), id, NotesFrom(Redo(db, c).notes, id))
  {
    if c.Dispatched? {
      BatchRows(db, c.ids, c.now);
      BatchNotes(db, c.ids, c.now, id);
      if id in c.ids {
        OnePass(db.rows[id], times, id, NotesFrom(db.notes, id), c.now);
      } else {
        assert times + [] == times;
      }
      hide Lives, RunBatch, Processed;
    } else {
      assert times + [] == times;
    }
  }

  lemma HandleNotes(db: Db, last: RowId, now: Time, id: RowId)
    requires last < |db.rows|
    ensures NotesFrom(Handle(db, last, now).notes, id) == if id == last then NotesFrom(db.notes, id) + Sends(last, db.rows[last]) else NotesFrom(db.notes, id)
  {
    NotesFromConcat(db.notes, Sends(last, db.rows[last]), id);
    OwnNotes(last, db.rows[last], id);
    hide NotesFrom, Sends, Processed;
    assert NotesFrom(db.notes, id) + [] == NotesFrom(db.notes, id);
  }

  lemma BatchNotesStep(db: Db, ids: seq<RowId>, now: Time, id: RowId)
    requires InRange(db, ids) && NoDup(ids) && id < |db.rows| && ids != []
    ensures var before, last := ids[..|ids| - 1], ids[|ids| - 1];
      && (id in ids <==> id in before || id == last) && last !in before
      && NotesFrom(RunBatch(db, ids, now).notes, id)
         == if id == last then NotesFrom(RunBatch(db, before, now).notes, id) + Sends(id, db.rows[id])
            else NotesFrom(RunBatch(db, before, now).notes, id)
  {
    hide NotesFrom, Sends, Processed, Handle;
    var before, last := ids[..|ids| - 1], ids[|ids| - 1];
    assert ids == before + [last];
    BatchRows(db, before, now);
    HandleNotes(RunBatch(db, before, now), last, now, id);
    assert RunBatch(db, ids, now) == Handle(RunBatch(db, before, now), last, now);
  }

  /** A batch adds the notification of each of its rows, and of no other. */
  lemma {:induction false} BatchNotes(db: Db, ids: seq<RowId>, now: Time, id: RowId)
    requires InRange(db, ids) && NoDup(ids) && id < |db.rows|
    ensures NotesFrom(RunBatch(db, ids, now).notes, id) == if id in ids then NotesFrom(db.notes, id) + Sends(id, db.rows[id]) else NotesFrom(db.notes, id)
  {
    hide NotesFrom, Sends, Processed, Handle;
    if ids == [] {
      assert RunBatch(db, [], now) == db;
    } else {
      BatchNotes(db, ids[..|ids| - 1], now, id);
      BatchNotesStep(db, ids, now, id);
      hide RunBatch;
    }
  }

  lemma OwnNotes(id: RowId, row: Row, other: RowId)
    ensures NotesFrom(Sends(id, row), other) == if other == id then Sends(id, row) else []
  {
    var sends := Sends(id, row);
    if sends != [] {
      assert sends[..0] == [];
      assert NotesFrom(sends[..0], other) == [];
    }
  }

  lemma NewLife(db: Db, row: Row)
    requires Consistent(db) && LegalCommit(db, Enqueued(row))
    ensures Lives(row, [], |db.rows|, NotesFrom(db.notes, |db.rows|))
  {
  }

  /** In every serial run, and so in every run of any dispatchers: a row never handled is as it was inserted; one whose
      text is an assignment was handled once, is SENT since that very moment, and has its one notification; any other
      was rejected at each of its times, keeps the first 1000 characters of its error, and is due again after the wait
      its number of failures calls for. */
  lemma {:induction false} LifeOfARow(log: seq<Commit>, id: RowId)
    requires Legal(log) && id < |Replay(log).rows|
    ensures Lives(Replay(log).rows[id], Passes(log, id), id, NotesFrom(Replay(log).notes, id))
  {
    hide Lives;
    var before, c := log[..|log| - 1], log[|log| - 1];
    ReplayConsistent(before);
    if id < |Replay(before).rows| {
      LifeOfARow(before, id);
      LifeStep(Replay(before), c, id, Passes(before, id));
    } else {
      assert c.Enqueued? && id == |Replay(before).rows|;
      NoPassBeforeInsert(before, id);
      assert Passes(log, id) == [];
      NewLife(Replay(before), c.row);
    }
  }

  /** When a row is open: never handled, or rejected and its wait over. */
  lemma OpenExactly(log: seq<Commit>, id: RowId, now: Time)
    requires Legal(log) && id < |Replay(log).rows|
    ensures var row, times := Replay(log).rows[id], Passes(log, id);
      (id in Open(Replay(log).rows, {}, now)) <==>
      (times == [] || (!Deliverable(row) && exists wait: nat :: Waits(|times|, wait) && times[|times| - 1] + wait <= now))
  {
    LifeOfARow(log, id);
    if Passes(log, id) != [] { DelayWaits(|Passes(log, id)|); }
  }

  /** The same of any dispatchers, interleaved in any way. */
  lemma LifeUnderDispatchers(now: Time, steps: seq<Workers.Step>, id: RowId)
    requires Workers.Valid(Workers.Start(now), steps) && id < |Workers.Run(Workers.Start(now), steps).db.rows|
    ensures var db := Workers.Run(Workers.Start(now), steps).db;
      Lives(db.rows[id], Passes(Workers.Log(Workers.Start(now), steps), id), id, NotesFrom(db.notes, id))
  {
    hide Lives, Workers.Inv;
    Workers.Serialisable(now, steps);
    LifeOfARow(Workers.Log(Workers.Start(now), steps), id);
  }
}
